/**
 What each transition of a node does, field by field: when a round is entered and with what, when a wait is
 scheduled, when a proposal counts, when a block becomes the valid one, and when a block is finalised.
 The votes of the prevote and precommit steps are in Ballots.dfy.
 */
module Transitions {
  import opened Wrappers
  import opened Quorum
  import opened VoteSets
  import opened Consensus

  /** The order of rounds and steps is lexicographic. */
  lemma OrderIsLexicographic(h1: int, r1: int, s1: int, h2: int, r2: int, s2: int)
    ensures CompareHRS(h1, r1, s1, h2, r2, s2) < 0 <==> h1 < h2 || (h1 == h2 && (r1 < r2 || (r1 == r2 && s1 < s2)))
    ensures CompareHRS(h1, r1, s1, h2, r2, s2) == 0 <==> h1 == h2 && r1 == r2 && s1 == s2
  {
  }

  /** Proposal and block are there, and the proof of lock the proposal names, if any, has its majority. */
  predicate Complete(n: Node)
  {
    && n.proposal.Some? && n.proposalBlock.Some?
    && (0 <= n.proposal.value.polRound ==> TwoThirdsMajority(n.votes, n.proposal.value.polRound, Prevote).Some?)
  }

  /** A round can be entered from an earlier one, or from the wait for it to start. */
  predicate CanEnter(n: Node, height: int, round: int)
  {
    !n.halted && n.height == height && (n.round < round || (n.round == round && n.step == STEP_NEW_HEIGHT))
  }

  /** Nothing of the height's decisions changes. */
  predicate SameDecisions(n: Node, n': Node)
  {
    && n'.height == n.height && n'.chain == n.chain && n'.saved == n.saved && n'.commitRound == n.commitRound
    && n'.validators == n.validators && n'.lastCommit == n.lastCommit
    && n'.lockedRound == n.lockedRound && n'.lockedBlock == n.lockedBlock && n'.lockedBlockParts == n.lockedBlockParts
    && n'.validRound == n.validRound && n'.validBlock == n.validBlock && n'.validBlockParts == n.validBlockParts
  }

  /**
   Entering a round: the votes up to the next one are tracked, and the proposal is dropped except in round 0.
   The first round may wait for transactions; any other goes on to propose at once.
   */
  lemma NewRoundEntered(cfg: Config, n: Node, height: int, round: int)
    ensures var n' := EnterNewRound(cfg, n, height, round);
            && (!CanEnter(n, height, round) ==> n' == n)
            && (CanEnter(n, height, round) ==>
                  && SameDecisions(n, n') && n'.round == round
                  && (n'.halted <==> n.votes.round != 0 && round + 1 < n.votes.round - 1)
                  && (!n'.halted ==>
                        && n'.votes == SetRound(n.votes, round + 1) && !n'.triggeredTimeoutPrecommit
                        && n'.proposal == (if round == 0 then n.proposal else None)
                        && n'.proposalBlock == (if round == 0 then n.proposalBlock else None)
                        && n'.proposalBlockParts == (if round == 0 then n.proposalBlockParts else None)))
  {
    var n1 := n.(round := round, step := STEP_NEW_ROUND);
    var n2 := if round == 0 then n1 else n1.(proposal := None, proposalBlock := None, proposalBlockParts := None);
    var n3 := n2.(votes := SetRound(n.votes, round + 1), triggeredTimeoutPrecommit := false);
    ProposeEntered(cfg, n3, height, round);
    hide SetRound, EnterPropose;
  }

  /** How the round begins: with a wait for transactions, which may have a timeout, or with the propose step. */
  lemma NewRoundWaits(cfg: Config, n: Node, height: int, round: int)
    requires CanEnter(n, height, round) && !EnterNewRound(cfg, n, height, round).halted
    ensures var n' := EnterNewRound(cfg, n, height, round);
            if cfg.waitForTxs && round == 0 && !cfg.needProof(n.chain) then
              && n'.step == STEP_NEW_ROUND && n'.outbox == n.outbox
              && n'.timeouts ==
                   n.timeouts + if cfg.emptyBlocksInterval then {TimeoutInfo(height, round, STEP_NEW_ROUND)} else {}
            else
              && n'.timeouts == n.timeouts + {TimeoutInfo(height, round, STEP_PROPOSE)}
              && n'.step == if Complete(n') then STEP_PREVOTE else STEP_PROPOSE
  {
    var n1 := n.(round := round, step := STEP_NEW_ROUND);
    var n2 := if round == 0 then n1 else n1.(proposal := None, proposalBlock := None, proposalBlockParts := None);
    var n3 := n2.(votes := SetRound(n.votes, round + 1), triggeredTimeoutPrecommit := false);
    ProposeEntered(cfg, n3, height, round);
    hide SetRound, EnterPropose;
  }

  /** Proposing: a timeout is scheduled, and the prevote cast at once if the proposal is complete. */
  lemma ProposeEntered(cfg: Config, n: Node, height: int, round: int)
    ensures var n' := EnterPropose(cfg, n, height, round);
            var enters := !n.halted && n.height == height
                          && (n.round < round || (n.round == round && n.step < STEP_PROPOSE));
            && (!enters ==> n' == n)
            && (enters ==>
                  && n' == n.(timeouts := n.timeouts + {TimeoutInfo(height, round, STEP_PROPOSE)}, round := round,
                              step := if Complete(n) then STEP_PREVOTE else STEP_PROPOSE, outbox := n'.outbox)
                  && (!Complete(n) ==> n'.outbox == n.outbox))
  {
  }

  /** The wait for more prevotes: entered once in a round, and only with two thirds of any. */
  lemma PrevoteWaitEntered(n: Node, height: int, round: int)
    ensures var n' := EnterPrevoteWait(n, height, round);
            var enters := !n.halted && n.height == height
                          && (n.round < round || (n.round == round && n.step < STEP_PREVOTE_WAIT));
            && (!enters ==> n' == n)
            && (enters && !TwoThirdsAny(n.votes, round, Prevote) ==> n' == n.(halted := true))
            && (enters && TwoThirdsAny(n.votes, round, Prevote) ==>
                  n' == n.(timeouts := n.timeouts + {TimeoutInfo(height, round, STEP_PREVOTE_WAIT)}, round := round,
                           step := STEP_PREVOTE_WAIT))
  {
  }

  /** The wait for more precommits: scheduled once in a round, without a change of step. */
  lemma PrecommitWaitEntered(n: Node, height: int, round: int)
    ensures var n' := EnterPrecommitWait(n, height, round);
            var enters := !n.halted && n.height == height
                          && (n.round < round || (n.round == round && !n.triggeredTimeoutPrecommit));
            && (!enters ==> n' == n)
            && (enters && !TwoThirdsAny(n.votes, round, Precommit) ==> n' == n.(halted := true))
            && (enters && TwoThirdsAny(n.votes, round, Precommit) ==>
                  n' == n.(timeouts := n.timeouts + {TimeoutInfo(height, round, STEP_PRECOMMIT_WAIT)},
                           triggeredTimeoutPrecommit := true))
  {
  }

  // ---- finalising ----

  /** The node has the block that the precommits of a round decided, with its parts. */
  predicate HasDecided(n: Node, round: int, block: Block)
  {
    && n.proposalBlock == Some(block)
    && exists parts ::
         && TwoThirdsMajority(n.votes, round, Precommit) == Some(BlockID(block.hash, parts))
         && n.proposalBlockParts.Some? && n.proposalBlockParts.value.header == parts
  }

  /**
   A node in the commit step finalises exactly a block it has that is decided, valid, and executed without
   failure: then it moves to the next height. A decided block that cannot be executed is saved only.
   */
  lemma CommitFinalises(cfg: Config, n: Node)
    requires !n.halted && n.step == STEP_COMMIT
    ensures var n' := TryFinalizeCommit(cfg, n, n.height);
            && (n'.chain != n.chain <==>
                  exists block :: HasDecided(n, n.commitRound, block) && cfg.valid(n.chain, block)
                                  && cfg.applies(n.chain, block))
            && (forall block :: HasDecided(n, n.commitRound, block) && cfg.valid(n.chain, block) ==>
                  if cfg.applies(n.chain, block) then n'.chain == n.chain + [block]
                  else n' == n.(saved := if n.saved.None? then Some(block) else n.saved))
            && (n'.chain == n.chain && n' != n && !n'.halted ==>
                  n'.saved.Some? && HasDecided(n, n.commitRound, n'.saved.value))
  {
    if n.proposalBlock.Some? {
      assert forall block :: HasDecided(n, n.commitRound, block) ==> block == n.proposalBlock.value;
      assert |n.chain + [n.proposalBlock.value]| != |n.chain|;
    }
  }

  /** It waits while the decided block is missing, and panics only over its parts or its validity. */
  lemma CommitWaitsOrPanics(cfg: Config, n: Node)
    requires !n.halted && n.step == STEP_COMMIT
    ensures var n' := TryFinalizeCommit(cfg, n, n.height);
            var maj := TwoThirdsMajority(n.votes, n.commitRound, Precommit);
            var ready := maj.Some? && maj.value.BlockID? && n.proposalBlock == Some(Block(maj.value.hash));
            && (!ready ==> n' == n)
            && (ready ==>
                  (n'.halted <==>
                     || n.proposalBlockParts.None? || n.proposalBlockParts.value.header != maj.value.parts
                     || !cfg.valid(n.chain, Block(maj.value.hash))))
  {
  }

  /** The height after a block starts at round 0 of the next validators, with nothing but the seen commit. */
  lemma NextHeightStarts(cfg: Config, n: Node, block: Block)
    requires cfg.applies(n.chain, block)
    ensures var n' := CommitBlock(cfg, n, block);
            && n'.chain == n.chain + [block] && n'.height == cfg.initialHeight + |n'.chain|
            && n'.validators == cfg.validators(n'.chain)
            && n'.round == 0 && n'.step == STEP_NEW_HEIGHT && n'.commitRound == -1 && n'.saved.None?
            && n'.proposal.None? && n'.proposalBlock.None? && n'.proposalBlockParts.None?
            && n'.lockedBlock.None? && n'.lockedRound == -1 && n'.lockedBlockParts.None?
            && n'.validBlock.None? && n'.validRound == -1 && n'.validBlockParts.None?
            && n'.votes == NewHeightVoteSet(n'.height, n'.validators) && !n'.triggeredTimeoutPrecommit
            && n'.lastCommit == GetVoteSet(n.votes, n.commitRound, Precommit)
            && n'.timeouts == n.timeouts + {TimeoutInfo(n'.height, 0, STEP_NEW_HEIGHT)}
            && n'.outbox == n.outbox && n'.halted == n.halted && n'.self == n.self && n'.canSign == n.canSign
  {
  }

  /** A node starts as it would at the height after an empty chain, without a key and without a last commit. */
  lemma NodeStarts(cfg: Config, self: Address)
    ensures var n := InitNode(cfg, self);
            && n.self == self && n.chain == [] && n.outbox == [] && !n.halted && n.lastCommit.None?
            && n.timeouts == {TimeoutInfo(cfg.initialHeight, 0, STEP_NEW_HEIGHT)}
            && UpdateToState(cfg, n, []) == n
  {
  }

  /** The commit step keeps the decided block if it is locked or proposed, and else begins to collect it. */
  lemma CommitCollects(n: Node, id: BlockID)
    requires id.BlockID?
    ensures var n' := CommitProposal(n, id);
            var block := Some(Block(id.hash));
            && n' == n.(proposalBlock := n'.proposalBlock, proposalBlockParts := n'.proposalBlockParts)
            && (n.lockedBlock == block ==>
                  n'.proposalBlock == block && n'.proposalBlockParts == n.lockedBlockParts)
            && (n.lockedBlock != block && n.proposalBlock == block ==> n' == n)
            && (n.lockedBlock != block && n.proposalBlock != block ==>
                  if n.proposalBlockParts.Some? && n.proposalBlockParts.value.header == id.parts then n' == n
                  else n'.proposalBlock.None? && n'.proposalBlockParts == Some(PartSet(id.parts, false)))
  {
  }

  /** The commit step is entered once in a height, for a round with a precommit majority; without one it panics. */
  lemma CommitEntered(cfg: Config, n: Node, height: int, round: int)
    ensures var n' := EnterCommit(cfg, n, height, round);
            var maj := TwoThirdsMajority(n.votes, round, Precommit);
            if n.halted || n.height != height || STEP_COMMIT <= n.step then n' == n
            else if maj.None? then n' == n.(halted := true)
            else n' == TryFinalizeCommit(cfg,
                         CommitProposal(n, maj.value).(step := STEP_COMMIT, commitRound := round), height)
  {
  }

  // ---- proposals and blocks ----

  /** A proposal counts if it is the first of this height and round, its proof of lock is earlier, and it is signed. */
  lemma ProposalCounts(n: Node, p: Proposal, sigOk: bool)
    ensures var n' := SetProposal(n, p, sigOk);
            if n.proposal.None? && p.height == n.height && p.round == n.round && sigOk
               && (p.polRound == -1 || 0 <= p.polRound < p.round) then
              n' == n.(proposal := Some(p),
                       proposalBlockParts :=
                         if n.proposalBlockParts.Some? then n.proposalBlockParts
                         else Some(PartSet(match p.blockID case BlockID(_, parts) => parts case NilBlock => 0, false)))
            else n' == n
  {
  }

  /**
   A complete block becomes the proposal block, and the valid block exactly if the round's prevotes have a
   majority for it and none was valid in this round yet.
   */
  lemma BlockBecomesValid(cfg: Config, n: Node, block: Block)
    requires n.height == cfg.initialHeight + |n.chain|
    ensures var n' := CompleteProposalBlock(cfg, n, block);
            var polka := TwoThirdsMajority(n.votes, n.round, Prevote);
            var seen := polka.Some? && polka.value.BlockID? && polka.value.hash == block.hash;
            n'.height == n.height ==>
              if seen && n.validRound < n.round then
                && n'.validRound == n.round && n'.validBlock == Some(block)
                && n'.validBlockParts == n.proposalBlockParts
              else
                && n'.validRound == n.validRound && n'.validBlock == n.validBlock
                && n'.validBlockParts == n.validBlockParts
  {
    var polka := TwoThirdsMajority(n.votes, n.round, Prevote);
    var n1 := n.(proposalBlock := Some(block));
    var n2 := n1.(validRound := n1.round, validBlock := n1.proposalBlock, validBlockParts := n1.proposalBlockParts);
    AfterBlockKeepsValid(cfg, n1, polka.Some?);
    AfterBlockKeepsValid(cfg, n2, polka.Some?);
    hide AfterProposalBlock;
  }

  lemma AfterBlockKeepsValid(cfg: Config, n: Node, hasTwoThirds: bool)
    requires n.height == cfg.initialHeight + |n.chain|
    ensures var n' := AfterProposalBlock(cfg, n, hasTwoThirds);
            n'.height == n.height ==>
              n'.validRound == n.validRound && n'.validBlock == n.validBlock && n'.validBlockParts == n.validBlockParts
  {
    PrevoteKeepsValid(cfg, n);
    PrecommitKeepsValid(cfg, EnterPrevote(cfg, n, n.height, n.round));
    FinalizeKeepsValid(cfg, n);
    hide EnterPrevote, EnterPrecommit, TryFinalizeCommit;
  }

  lemma PrevoteKeepsValid(cfg: Config, n: Node)
    ensures var n' := EnterPrevote(cfg, n, n.height, n.round);
            && n'.height == n.height && n'.round == n.round && n'.validRound == n.validRound
            && n'.validBlock == n.validBlock && n'.validBlockParts == n.validBlockParts
  {
  }

  lemma PrecommitKeepsValid(cfg: Config, n: Node)
    ensures var n' := EnterPrecommit(cfg, n, n.height, n.round);
            && n'.height == n.height && n'.validRound == n.validRound
            && n'.validBlock == n.validBlock && n'.validBlockParts == n.validBlockParts
  {
    hide PolRound;
  }

  lemma FinalizeKeepsValid(cfg: Config, n: Node)
    requires n.height == cfg.initialHeight + |n.chain|
    ensures var n' := TryFinalizeCommit(cfg, n, n.height);
            n'.height == n.height ==>
              n'.validRound == n.validRound && n'.validBlock == n.validBlock && n'.validBlockParts == n.validBlockParts
  {
  }

  /** When a complete block moves the node on: to its prevote, and on a majority to its precommit; or to finalising. */
  lemma BlockMovesOn(cfg: Config, n: Node, hasTwoThirds: bool)
    ensures var n' := AfterProposalBlock(cfg, n, hasTwoThirds);
            if n.step <= STEP_PROPOSE && Complete(n) then
              var n1 := EnterPrevote(cfg, n, n.height, n.round);
              n' == if hasTwoThirds then EnterPrecommit(cfg, n1, n.height, n1.round) else n1
            else n' == if n.step == STEP_COMMIT then TryFinalizeCommit(cfg, n, n.height) else n
  {
    hide EnterPrevote, EnterPrecommit, TryFinalizeCommit;
  }

  /** Parts count for this height while some are missing; the last one completes the set. */
  lemma PartsCount(cfg: Config, n: Node, height: int, outcome: PartOutcome)
    ensures var n' := AddProposalBlockPart(cfg, n, height, outcome);
            var wanted := n.height == height && n.proposalBlockParts.Some? && !n.proposalBlockParts.value.complete;
            && (!wanted || outcome.PartRefused? || outcome.PartStored? ==> n' == n)
            && (wanted && (outcome.PartsUnusable? || outcome.PartsComplete?) ==>
                  var full := n.(proposalBlockParts := Some(PartSet(n.proposalBlockParts.value.header, true)));
                  n' == if outcome.PartsUnusable? then full else CompleteProposalBlock(cfg, full, outcome.block))
  {
    hide CompleteProposalBlock;
  }

  // ---- prevotes and precommits ----

  /** Seeing a prevote majority: an older lock on another block is dropped. */
  lemma PolkaDropsLock(n: Node, round: int, polka: BlockID)
    ensures var n' := SeePolka(n, round, polka);
            var drops := n.lockedBlock.Some? && n.lockedRound < round <= n.round
                         && !(polka.BlockID? && n.lockedBlock.value.hash == polka.hash);
            && n'.lockedBlock == (if drops then None else n.lockedBlock)
            && n'.lockedRound == (if drops then -1 else n.lockedRound)
            && n'.lockedBlockParts == (if drops then None else n.lockedBlockParts)
            && n'.round == n.round && n'.step == n.step && n'.votes == n.votes && n'.outbox == n.outbox
  {
    UpdateFrame(UnlockOld(n, round, polka), round, polka);
    hide UpdateValid;
  }

  lemma UpdateFrame(n: Node, round: int, polka: BlockID)
    ensures var n' := UpdateValid(n, round, polka);
            n' == n.(validRound := n'.validRound, validBlock := n'.validBlock, validBlockParts := n'.validBlockParts,
                     proposalBlock := n'.proposalBlock, proposalBlockParts := n'.proposalBlockParts)
  {
  }

  /** A majority for a block in the current round makes it the valid block if it is there, and else collects it. */
  lemma PolkaMakesValid(n: Node, round: int, polka: BlockID)
    ensures var n' := SeePolka(n, round, polka);
            var newer := polka.BlockID? && n.validRound < round && round == n.round;
            var here := newer && n.proposalBlock == Some(Block(polka.hash));
            && n'.validRound == (if here then round else n.validRound)
            && n'.validBlock == (if here then n.proposalBlock else n.validBlock)
            && n'.validBlockParts == (if here then n.proposalBlockParts else n.validBlockParts)
            && n'.proposalBlock == (if newer && !here then None else n.proposalBlock)
            && n'.proposalBlockParts ==
                 if newer && !(n.proposalBlockParts.Some? && n.proposalBlockParts.value.header == polka.parts)
                 then Some(PartSet(polka.parts, false)) else n.proposalBlockParts
  {
    UnlockFrame(n, round, polka);
    hide UnlockOld;
  }

  lemma UnlockFrame(n: Node, round: int, polka: BlockID)
    ensures var n' := UnlockOld(n, round, polka);
            n' == n.(lockedRound := n'.lockedRound, lockedBlock := n'.lockedBlock,
                     lockedBlockParts := n'.lockedBlockParts)
  {
  }

  /** What follows an added prevote, once its majority, if any, has been seen. */
  lemma PrevoteMovesOn(cfg: Config, n: Node, round: int)
    ensures var polka := TwoThirdsMajority(n.votes, round, Prevote);
            var n1 := if polka.Some? then SeePolka(n, round, polka.value) else n;
            var n' := AfterPrevote(cfg, n, round);
            var any := TwoThirdsAny(n.votes, round, Prevote);
            var decides := polka.Some? && (Complete(n1) || polka.value.NilBlock?);
            var proves := n1.proposal.Some? && 0 <= round && n1.proposal.value.polRound == round;
            && (n.round < round && any ==> n' == EnterNewRound(cfg, n1, n.height, round))
            && (n.round == round && STEP_PREVOTE <= n.step ==>
                  n' == if decides then EnterPrecommit(cfg, n1, n.height, round)
                        else if any then EnterPrevoteWait(n1, n.height, round) else n1)
            && (!(n.round < round && any) && !(n.round == round && STEP_PREVOTE <= n.step) ==>
                  n' == if proves && Complete(n1) then EnterPrevote(cfg, n1, n.height, n.round) else n1)
  {
    var polka := TwoThirdsMajority(n.votes, round, Prevote);
    if polka.Some? {
      SeePolkaFrame(n, round, polka.value);
    }
    hide SeePolka, EnterNewRound, EnterPrecommit, EnterPrevoteWait, EnterPrevote, TwoThirdsAny;
  }

  lemma SeePolkaFrame(n: Node, round: int, polka: BlockID)
    ensures var n' := SeePolka(n, round, polka);
            && n'.height == n.height && n'.round == n.round && n'.step == n.step && n'.votes == n.votes
            && n'.proposal == n.proposal
  {
    UnlockFrame(n, round, polka);
    UpdateFrame(UnlockOld(n, round, polka), round, polka);
    hide UnlockOld, UpdateValid;
  }

  /** What follows an added precommit: a majority is acted on in its round, and for a block committed. */
  lemma PrecommitMovesOn(cfg: Config, n: Node, round: int)
    ensures var maj := TwoThirdsMajority(n.votes, round, Precommit);
            var n1 := EnterNewRound(cfg, n, n.height, round);
            var n2 := EnterPrecommit(cfg, n1, n.height, round);
            var n3 := EnterCommit(cfg, n2, n.height, round);
            var n' := AfterPrecommit(cfg, n, round);
            && (maj == Some(NilBlock) ==> n' == EnterPrecommitWait(n2, n.height, round))
            && (maj.Some? && maj.value.BlockID? ==>
                  n' == if cfg.skipTimeoutCommit && HasAll(GetVoteSet(n.votes, round, Precommit).value) then
                          EnterNewRound(cfg, n3, n3.height, 0)
                        else n3)
            && (maj.None? ==>
                  n' == if n.round <= round && TwoThirdsAny(n.votes, round, Precommit) then
                          EnterPrecommitWait(n1, n.height, round)
                        else n)
  {
    hide EnterNewRound, EnterPrecommit, EnterCommit, EnterPrecommitWait, HasAll;
  }

  /** Where a vote goes: late precommits to the last commit, votes of this height to their round, others nowhere. */
  lemma VoteMovesOn(cfg: Config, n: Node, vote: Vote, peer: Peer, sigOk: bool)
    ensures var n' := AddVoteMsg(cfg, n, vote, peer, sigOk);
            var late := vote.height + 1 == n.height && vote.kind.Precommit?;
            && (late && n.step != STEP_NEW_HEIGHT ==> n' == n)
            && (late && n.step == STEP_NEW_HEIGHT && n.lastCommit.None? ==> n' == n.(halted := true))
            && (late && n.step == STEP_NEW_HEIGHT && n.lastCommit.Some? ==>
                  var r := AddVote(n.lastCommit.value, vote, sigOk);
                  var n1 := n.(lastCommit := Some(r.votes));
                  n' == if r.added && cfg.skipTimeoutCommit && HasAll(r.votes) then EnterNewRound(cfg, n1, n.height, 0)
                        else n1)
            && (!late && vote.height != n.height ==> n' == n)
            && (vote.height == n.height ==>
                  var r := AddHeightVote(n.votes, vote, peer, sigOk);
                  var n1 := n.(votes := r.votes);
                  n' == if !r.added then n1
                        else if vote.kind.Prevote? then AfterPrevote(cfg, n1, vote.round)
                        else AfterPrecommit(cfg, n1, vote.round))
  {
    hide AddVote, AddHeightVote, EnterNewRound, AfterPrevote, AfterPrecommit, HasAll;
  }

  // ---- timeouts ----

  /** A timeout counts unless the node has moved past its height, round or step. */
  predicate Fires(n: Node, ti: TimeoutInfo)
  {
    ti.height == n.height && (n.round < ti.round || (n.round == ti.round && n.step <= ti.step))
  }

  /** What each timeout does. */
  lemma TimeoutMovesOn(cfg: Config, n: Node, ti: TimeoutInfo)
    ensures var n' := HandleTimeout(cfg, n, ti);
            var h := n.height;
            && (!Fires(n, ti) ==> n' == n)
            && (Fires(n, ti) && ti.step == STEP_NEW_HEIGHT ==> n' == EnterNewRound(cfg, n, h, 0))
            && (Fires(n, ti) && ti.step == STEP_NEW_ROUND ==> n' == EnterPropose(cfg, n, h, 0))
            && (Fires(n, ti) && ti.step == STEP_PROPOSE ==> n' == EnterPrevote(cfg, n, h, ti.round))
            && (Fires(n, ti) && ti.step == STEP_PREVOTE_WAIT ==> n' == EnterPrecommit(cfg, n, h, ti.round))
            && (Fires(n, ti) && ti.step == STEP_PRECOMMIT_WAIT ==>
                  n' == EnterNewRound(cfg, EnterPrecommit(cfg, n, h, ti.round), h, ti.round + 1))
  {
    hide EnterNewRound, EnterPropose, EnterPrevote, EnterPrecommit;
  }

  /** Transactions end the wait of round 0: at once when it has begun, else by a timeout unless a proof block is due. */
  lemma TransactionsMoveOn(cfg: Config, n: Node)
    ensures var n' := HandleTxsAvailable(cfg, n);
            if n.round == 0 && n.step == STEP_NEW_ROUND then n' == EnterPropose(cfg, n, n.height, 0)
            else if n.round == 0 && n.step == STEP_NEW_HEIGHT && !cfg.needProof(n.chain) then
              n' == n.(timeouts := n.timeouts + {TimeoutInfo(n.height, 0, STEP_NEW_ROUND)})
            else n' == n
  {
    hide EnterPropose;
  }

  /** A halted node ignores every event; any other signs only what this event makes it sign. */
  lemma EventsAreHandled(cfg: Config, n: Node, event: Event, canSign: bool)
    ensures var n' := Handle(cfg, n, event, canSign);
            n' == if n.halted then n.(outbox := [])
                  else
                    var n0 := n.(outbox := [], canSign := canSign);
                    match event
                    case TxsAvailable => HandleTxsAvailable(cfg, n0)
                    case ProposalMsg(p, sigOk) => SetProposal(n0, p, sigOk)
                    case BlockPartMsg(height, outcome) => AddProposalBlockPart(cfg, n0, height, outcome)
                    case VoteMsg(vote, peer, sigOk) => AddVoteMsg(cfg, n0, vote, peer, sigOk)
                    case PeerMaj23Msg(round, kind, peer, b) =>
                      n0.(votes := SetHeightPeerMaj23(n0.votes, round, kind, peer, b))
                    case Timeout(ti) => HandleTimeout(cfg, n0, ti)
  {
    hide HandleTxsAvailable, SetProposal, AddProposalBlockPart, AddVoteMsg, SetHeightPeerMaj23, HandleTimeout;
  }
}
