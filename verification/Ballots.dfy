/**
 What a node votes: the one prevote it signs on reaching the prevote step, and the one precommit it signs
 on reaching the precommit step, read off the state it is left in.
 */
module Ballots {
  import opened Wrappers
  import opened Quorum
  import opened VoteSets
  import opened Consensus
  import opened Progress
  import opened LockHistory

  predicate HasKey(n: Node)
  {
    n.canSign && exists i :: 0 <= i < |n.validators| && n.validators[i].address == n.self
  }

  /** The identifier of a block with its part set; a missing part set has the zero header. */
  function IdOf(block: Block, parts: Option<PartSet>): BlockID
  {
    BlockID(block.hash, match parts case Some(p) => p.header case None => 0)
  }

  /** The lock is prevoted if there is one; else a proposal block exactly if it is valid, and nil otherwise. */
  predicate PrevoteFits(cfg: Config, n: Node, b: BlockID)
  {
    && (n.lockedBlock.Some? ==> b == IdOf(n.lockedBlock.value, n.lockedBlockParts))
    && (n.lockedBlock.None? ==>
          && (b.BlockID? <==> n.proposalBlock.Some? && cfg.valid(n.chain, n.proposalBlock.value))
          && (b.BlockID? ==> b == IdOf(n.proposalBlock.value, n.proposalBlockParts)))
  }

  /** A block is precommitted exactly if it is locked in this round, and then it has the round's prevote majority. */
  predicate PrecommitFits(n: Node, b: BlockID)
  {
    && (b.BlockID? <==> n.lockedBlock.Some? && n.lockedRound == n.round)
    && (b.BlockID? ==> n.lockedBlock == Some(Block(b.hash)) && TwoThirdsMajority(n.votes, n.round, Prevote) == Some(b))
  }

  /** From `outbox` on, a node with a key has signed one more vote, for its height and round. */
  predicate SignedOne(n: Node, outbox: seq<Vote>, kind: VoteType, b: BlockID)
  {
    n.outbox == if HasKey(n) then outbox + [Vote(n.self, n.height, n.round, kind, b)] else outbox
  }

  ghost predicate Prevoted(cfg: Config, n: Node, n': Node)
  {
    exists b :: PrevoteFits(cfg, n', b) && SignedOne(n', n.outbox, Prevote, b)
  }

  ghost predicate Precommitted(n: Node, n': Node)
  {
    exists b, outbox :: n.outbox <= outbox && PrecommitFits(n', b) && SignedOne(n', outbox, Precommit, b)
  }

  predicate Moved(n: Node, n': Node)
  {
    !n'.halted && (n.height, n.round, n.step) != (n'.height, n'.round, n'.step)
  }

  /** Whoever gets to the prevote step has prevoted, and to the precommit step, precommitted. */
  ghost predicate VotesOnMoving(cfg: Config, n: Node, n': Node)
  {
    && (Moved(n, n') && n'.step == STEP_PREVOTE ==> Prevoted(cfg, n, n'))
    && (Moved(n, n') && n'.step == STEP_PRECOMMIT ==> Precommitted(n, n'))
  }

  lemma SignsOne(n: Node, kind: VoteType, b: BlockID)
    ensures SignedOne(SignAddVote(n, kind, b), n.outbox, kind, b)
  {
  }

  // ---- the steps that vote ----

  /** The prevote is for the lock, else for a valid proposal block, else for nil; nothing else changes. */
  lemma PrevoteVotes(cfg: Config, n: Node)
    requires !n.halted && n.step < STEP_PREVOTE
    ensures var n' := EnterPrevote(cfg, n, n.height, n.round);
            n' == n.(step := STEP_PREVOTE, outbox := n'.outbox) && Prevoted(cfg, n, n')
  {
    var b := if n.lockedBlock.Some? then IdOf(n.lockedBlock.value, n.lockedBlockParts)
             else if n.proposalBlock.Some? && cfg.valid(n.chain, n.proposalBlock.value) then
               IdOf(n.proposalBlock.value, n.proposalBlockParts)
             else NilBlock;
    var n' := EnterPrevote(cfg, n, n.height, n.round);
    assert PrevoteFits(cfg, n', b) && SignedOne(n', n.outbox, Prevote, b);
  }

  lemma DoPrevoteVotes(cfg: Config, n: Node)
    ensures Prevoted(cfg, n, DoPrevote(cfg, n))
  {
    var b := if n.lockedBlock.Some? then IdOf(n.lockedBlock.value, n.lockedBlockParts)
             else if n.proposalBlock.Some? && cfg.valid(n.chain, n.proposalBlock.value) then
               IdOf(n.proposalBlock.value, n.proposalBlockParts)
             else NilBlock;
    var n' := DoPrevote(cfg, n);
    assert PrevoteFits(cfg, n', b) && SignedOne(n', n.outbox, Prevote, b);
  }

  /** What the prevotes of the round have to be for a block to be precommitted: for the lock or a valid proposal. */
  predicate CanLock(cfg: Config, n: Node, b: BlockID)
  {
    && b.BlockID? && TwoThirdsMajority(n.votes, n.round, Prevote) == Some(b)
    && (n.lockedBlock == Some(Block(b.hash))
        || (n.proposalBlock == Some(Block(b.hash)) && cfg.valid(n.chain, Block(b.hash))))
  }

  /** The node has the part set of this header, or has just begun to collect it. */
  predicate Collects(n: Node, header: PartsHeader)
  {
    n.proposalBlockParts.Some? && n.proposalBlockParts.value.header == header
  }

  /** Without a prevote majority the lock is kept. */
  lemma NoPolkaKeepsLock(cfg: Config, n: Node)
    requires Placed(cfg, n) && !n.halted && n.step < STEP_PRECOMMIT
    requires TwoThirdsMajority(n.votes, n.round, Prevote).None?
    ensures var n' := EnterPrecommit(cfg, n, n.height, n.round);
            !n'.halted && n' == n.(step := STEP_PRECOMMIT, outbox := n'.outbox)
  {
  }

  /** A block that can be locked is locked, in this round, with the parts at hand. */
  lemma PolkaLocks(cfg: Config, n: Node, b: BlockID)
    requires Placed(cfg, n) && !n.halted && n.step < STEP_PRECOMMIT && CanLock(cfg, n, b)
    ensures var n' := EnterPrecommit(cfg, n, n.height, n.round);
            var parts := if n.lockedBlock == Some(Block(b.hash)) then n.lockedBlockParts else n.proposalBlockParts;
            && !n'.halted
            && n' == n.(step := STEP_PRECOMMIT, outbox := n'.outbox,
                        lockedRound := n.round, lockedBlock := Some(Block(b.hash)), lockedBlockParts := parts)
  {
    PolRoundIsHighest(n.votes, n.votes.round, n.round);
    hide PolRound;
  }

  /** A majority for anything else drops the lock, and its block is collected. */
  lemma PolkaUnlocks(cfg: Config, n: Node, b: BlockID)
    requires Placed(cfg, n) && !n.halted && n.step < STEP_PRECOMMIT
    requires TwoThirdsMajority(n.votes, n.round, Prevote) == Some(b) && !CanLock(cfg, n, b)
    requires !EnterPrecommit(cfg, n, n.height, n.round).halted
    ensures var n' := EnterPrecommit(cfg, n, n.height, n.round);
            && n'.step == STEP_PRECOMMIT && n'.round == n.round && n'.votes == n.votes && n'.chain == n.chain
            && n'.lockedBlock.None? && n'.lockedRound == -1
            && (n.lockedBlock.Some? ==> n'.lockedBlockParts.None?)
            && (b.BlockID? ==> Collects(n', b.parts))
  {
    hide PolRound;
  }

  /** The only panic of the precommit step: a prevote majority for a proposal block that is invalid, not locked. */
  lemma PrecommitPanics(cfg: Config, n: Node)
    requires Placed(cfg, n) && !n.halted && n.step < STEP_PRECOMMIT
    ensures EnterPrecommit(cfg, n, n.height, n.round).halted <==>
            exists b: BlockID ::
              && TwoThirdsMajority(n.votes, n.round, Prevote) == Some(b) && b.BlockID?
              && n.lockedBlock != Some(Block(b.hash)) && n.proposalBlock == Some(Block(b.hash))
              && !cfg.valid(n.chain, Block(b.hash))
  {
    if TwoThirdsMajority(n.votes, n.round, Prevote).Some? {
      PolRoundIsHighest(n.votes, n.votes.round, n.round);
    }
    hide PolRound;
  }

  /** The one vote of the precommit step is for the block it locks, or nil. */
  lemma PrecommitVotes(cfg: Config, n: Node)
    requires Placed(cfg, n) && !n.halted && n.step < STEP_PRECOMMIT
    requires !EnterPrecommit(cfg, n, n.height, n.round).halted
    ensures var n' := EnterPrecommit(cfg, n, n.height, n.round);
            Precommitted(n, n') && |n'.outbox| == |n.outbox| + if HasKey(n) then 1 else 0
  {
    var polka := TwoThirdsMajority(n.votes, n.round, Prevote);
    var n' := EnterPrecommit(cfg, n, n.height, n.round);
    var b := if polka.Some? && CanLock(cfg, n, polka.value) then polka.value else NilBlock;
    if polka.None? {
      NoPolkaKeepsLock(cfg, n);
    } else if CanLock(cfg, n, polka.value) {
      PolkaLocks(cfg, n, polka.value);
    } else {
      PolkaUnlocks(cfg, n, polka.value);
    }
    PrecommitSigns(cfg, n);
    hide EnterPrecommit;
    assert PrecommitFits(n', b);
  }

  lemma PrecommitSigns(cfg: Config, n: Node)
    requires Placed(cfg, n) && !n.halted && n.step < STEP_PRECOMMIT
    requires !EnterPrecommit(cfg, n, n.height, n.round).halted
    ensures var polka := TwoThirdsMajority(n.votes, n.round, Prevote);
            SignedOne(EnterPrecommit(cfg, n, n.height, n.round), n.outbox, Precommit,
                      if polka.Some? && CanLock(cfg, n, polka.value) then polka.value else NilBlock)
  {
    hide PolRound, HasHeader;
  }

  // ---- every event ----

  /** A way to a new round ends in the new-round or the propose step without a vote, or in round 0 with a prevote. */
  ghost predicate NewRoundVotes(cfg: Config, n: Node, n': Node)
  {
    || n' == n || n'.halted
    || (n'.height == n.height && n'.step < STEP_PREVOTE && n'.outbox == n.outbox)
    || (n'.height == n.height && n'.step == STEP_PREVOTE && n'.round == 0 && Prevoted(cfg, n, n'))
  }

  lemma EnterProposeVotes(cfg: Config, n: Node)
    requires n.step < STEP_PREVOTE
    ensures var n' := EnterPropose(cfg, n, n.height, n.round);
            || n' == n || (n'.step == STEP_PROPOSE && n'.outbox == n.outbox && n'.round == n.round)
            || (n'.step == STEP_PREVOTE && n'.round == n.round && Prevoted(cfg, n, n'))
    ensures n.proposal.None? ==> EnterPropose(cfg, n, n.height, n.round).step < STEP_PREVOTE
    ensures EnterPropose(cfg, n, n.height, n.round).height == n.height
  {
    if !n.halted && n.step < STEP_PROPOSE {
      var n2 := Schedule(n, n.height, n.round, STEP_PROPOSE).(step := STEP_PROPOSE);
      PrevoteVotes(cfg, n2);
    }
    hide EnterPrevote;
  }

  lemma OpenRoundVotes(cfg: Config, n: Node)
    requires n.step == STEP_NEW_ROUND
    ensures var n' := OpenRound(cfg, n, n.round);
            || n'.halted
            || (n'.height == n.height && n'.step < STEP_PREVOTE && n'.outbox == n.outbox)
            || (n'.height == n.height && n'.step == STEP_PREVOTE && n.proposal.Some? && n'.round == n.round
                && Prevoted(cfg, n, n'))
  {
    hide EnterPropose, SetRound, Prevoted;
    var n1 := n.(votes := SetRound(n.votes, n.round + 1), triggeredTimeoutPrecommit := false);
    EnterProposeVotes(cfg, n1);
    SameStart(cfg, n, n1, EnterPropose(cfg, n1, n1.height, n1.round));
  }

  lemma EnterNewRoundVotes(cfg: Config, n: Node, height: int, round: int)
    ensures NewRoundVotes(cfg, n, EnterNewRound(cfg, n, height, round))
    ensures n.proposal.None? && EnterNewRound(cfg, n, height, round) != n ==>
              EnterNewRound(cfg, n, height, round).halted || EnterNewRound(cfg, n, height, round).step < STEP_PREVOTE
  {
    hide OpenRound, Prevoted;
    var n1 := n.(round := round, step := STEP_NEW_ROUND);
    var n2 := if round == 0 then n1 else n1.(proposal := None, proposalBlock := None, proposalBlockParts := None);
    OpenRoundVotes(cfg, n2);
    SameStart(cfg, n, n2, OpenRound(cfg, n2, round));
  }

  lemma SameStart(cfg: Config, n: Node, m: Node, n': Node)
    requires m.outbox == n.outbox
    ensures Prevoted(cfg, m, n') ==> Prevoted(cfg, n, n')
  {
  }

  /** A way to the next step that starts without a vote and without moving. */
  lemma SameMoves(cfg: Config, n: Node, m: Node, n': Node)
    requires m.outbox == n.outbox && m.height == n.height && m.round == n.round && m.step == n.step
    requires VotesOnMoving(cfg, m, n')
    ensures VotesOnMoving(cfg, n, n')
  {
  }

  lemma NewRoundMoves(cfg: Config, n: Node, n': Node)
    requires NewRoundVotes(cfg, n, n')
    ensures VotesOnMoving(cfg, n, n')
  {
    hide Prevoted, Precommitted;
  }

  lemma PrevoteMoves(cfg: Config, n: Node, height: int, round: int)
    requires round <= n.round
    ensures VotesOnMoving(cfg, n, EnterPrevote(cfg, n, height, round))
  {
    hide Prevoted, Precommitted;
    if !n.halted && n.height == height && n.round == round && n.step < STEP_PREVOTE {
      PrevoteVotes(cfg, n);
    }
    hide DoPrevote;
  }

  lemma PrecommitMoves(cfg: Config, n: Node, height: int, round: int)
    requires Placed(cfg, n) && round <= n.round
    ensures VotesOnMoving(cfg, n, EnterPrecommit(cfg, n, height, round))
    ensures var n' := EnterPrecommit(cfg, n, height, round);
            n' == n || n'.halted || (n'.step == STEP_PRECOMMIT && n'.height == n.height && Precommitted(n, n'))
  {
    hide Prevoted, Precommitted, Placed;
    if !n.halted && n.height == height && n.round == round && n.step < STEP_PRECOMMIT {
      PrecommitStep(cfg, n);
      if !EnterPrecommit(cfg, n, n.height, n.round).halted {
        PrecommitVotes(cfg, n);
      }
      hide EnterPrecommit;
    } else {
      PrecommitStays(cfg, n, height, round);
      hide EnterPrecommit;
    }
  }

  lemma PrecommitStep(cfg: Config, n: Node)
    requires !n.halted && n.step < STEP_PRECOMMIT
    ensures EnterPrecommit(cfg, n, n.height, n.round).step == STEP_PRECOMMIT
    ensures EnterPrecommit(cfg, n, n.height, n.round).height == n.height
  {
    hide PolRound;
  }

  lemma PrecommitStays(cfg: Config, n: Node, height: int, round: int)
    requires round <= n.round
    requires n.halted || n.height != height || n.round != round || STEP_PRECOMMIT <= n.step
    ensures EnterPrecommit(cfg, n, height, round) == n
  {
  }

  lemma SeePolkaSigns(n: Node, round: int, polka: BlockID)
    ensures var n' := SeePolka(n, round, polka);
            && n'.outbox == n.outbox && n'.height == n.height && n'.round == n.round && n'.step == n.step
            && n'.halted == n.halted
  {
    UpdateSigns(UnlockOld(n, round, polka), round, polka);
    hide UpdateValid;
  }

  lemma UpdateSigns(n: Node, round: int, polka: BlockID)
    ensures var n' := UpdateValid(n, round, polka);
            && n'.outbox == n.outbox && n'.height == n.height && n'.round == n.round && n'.step == n.step
            && n'.halted == n.halted
  {
  }

  lemma AfterPrevoteMoves(cfg: Config, n: Node, round: int)
    requires Tracked(cfg, n) && n.round <= n.votes.round && (round == n.round || ValidSeen(n))
    ensures VotesOnMoving(cfg, n, AfterPrevote(cfg, n, round))
  {
    var polka := TwoThirdsMajority(n.votes, round, Prevote);
    var n1 := if polka.Some? then SeePolka(n, round, polka.value) else n;
    if polka.Some? {
      SeePolkaPlaced(cfg, n, round);
      SeePolkaSigns(n, round, polka.value);
    }
    assert Placed(cfg, n1);
    hide SeePolka, EnterNewRound, EnterPrecommit, EnterPrevote, Placed, VotesOnMoving;
    EnterNewRoundVotes(cfg, n1, n1.height, round);
    NewRoundMoves(cfg, n1, EnterNewRound(cfg, n1, n1.height, round));
    SameMoves(cfg, n, n1, EnterNewRound(cfg, n1, n1.height, round));
    if round == n1.round {
      PrecommitMoves(cfg, n1, n1.height, round);
      SameMoves(cfg, n, n1, EnterPrecommit(cfg, n1, n1.height, round));
    }
    PrevoteMoves(cfg, n1, n1.height, n1.round);
    SameMoves(cfg, n, n1, EnterPrevote(cfg, n1, n1.height, n1.round));
    WaitMoves(cfg, n1, n1.height, round);
    SameMoves(cfg, n, n1, EnterPrevoteWait(n1, n1.height, round));
    SelfMoves(cfg, n, n1);
    hide EnterPrevoteWait;
  }

  lemma SelfMoves(cfg: Config, n: Node, n': Node)
    requires n'.height == n.height && n'.round == n.round && n'.step == n.step
    ensures VotesOnMoving(cfg, n, n')
  {
  }

  lemma WaitMoves(cfg: Config, n: Node, height: int, round: int)
    ensures VotesOnMoving(cfg, n, EnterPrevoteWait(n, height, round))
    ensures EnterPrecommitWait(n, height, round) ==
            n.(halted := EnterPrecommitWait(n, height, round).halted,
               timeouts := EnterPrecommitWait(n, height, round).timeouts,
               triggeredTimeoutPrecommit := EnterPrecommitWait(n, height, round).triggeredTimeoutPrecommit)
    ensures n.halted ==> EnterPrecommitWait(n, height, round).halted
  {
    hide Prevoted, Precommitted;
  }

  /** The wait for precommits keeps what was said of the votes. */
  lemma WaitedMoves(cfg: Config, n: Node, m: Node, height: int, round: int)
    requires VotesOnMoving(cfg, n, m)
    ensures VotesOnMoving(cfg, n, EnterPrecommitWait(m, height, round))
  {
    var n' := EnterPrecommitWait(m, height, round);
    WaitMoves(cfg, m, height, round);
    hide EnterPrecommitWait;
    if Moved(n, n') {
      if n'.step == STEP_PREVOTE {
        var b :| PrevoteFits(cfg, m, b) && SignedOne(m, n.outbox, Prevote, b);
        assert PrevoteFits(cfg, n', b) && SignedOne(n', n.outbox, Prevote, b);
      }
      if n'.step == STEP_PRECOMMIT {
        var b, outbox :| n.outbox <= outbox && PrecommitFits(m, b) && SignedOne(m, outbox, Precommit, b);
        assert PrecommitFits(n', b) && SignedOne(n', outbox, Precommit, b);
      }
    }
  }

  lemma FinalizedStep(cfg: Config, n: Node)
    requires n.step == STEP_COMMIT
    ensures var n' := TryFinalizeCommit(cfg, n, n.height);
            || n'.halted || (n'.step == STEP_COMMIT && n'.round == n.round)
            || (n'.step == STEP_NEW_HEIGHT && n'.proposal.None?)
  {
  }

  lemma CommittedStep(cfg: Config, n: Node, round: int)
    ensures var n' := EnterCommit(cfg, n, n.height, round);
            if n.halted || STEP_COMMIT <= n.step then n' == n
            else
              || n'.halted || (n'.step == STEP_COMMIT && n'.round == n.round)
              || (n'.step == STEP_NEW_HEIGHT && n'.proposal.None?)
  {
    hide TryFinalizeCommit;
    var maj := TwoThirdsMajority(n.votes, round, Precommit);
    if maj.Some? {
      FinalizedStep(cfg, CommitProposal(n, maj.value).(step := STEP_COMMIT, commitRound := round));
    }
  }

  lemma AfterPrecommitMoves(cfg: Config, n: Node, round: int)
    requires Placed(cfg, n) && !n.halted
    ensures VotesOnMoving(cfg, n, AfterPrecommit(cfg, n, round))
  {
    var h := n.height;
    var n1 := EnterNewRound(cfg, n, h, round);
    var n2 := EnterPrecommit(cfg, n1, h, round);
    EnterNewRoundPlaced(cfg, n, h, round);
    EnterNewRoundReaches(cfg, n, round);
    EnterNewRoundVotes(cfg, n, h, round);
    NewRoundMoves(cfg, n, n1);
    hide EnterNewRound, EnterPrecommit, EnterCommit, EnterPrecommitWait, Placed, VotesOnMoving, NewRoundVotes;
    SelfMoves(cfg, n, n);
    WaitedMoves(cfg, n, n1, h, round);
    EnterAndPrecommitMoves(cfg, n, n1, round);
    WaitedMoves(cfg, n, n2, h, round);
    var n3 := EnterCommit(cfg, n2, h, round);
    CommittedMoves(cfg, n, n2, round);
  }

  lemma EnterAndPrecommitMoves(cfg: Config, n: Node, n1: Node, round: int)
    requires Placed(cfg, n1) && VotesOnMoving(cfg, n, n1) && NewRoundVotes(cfg, n, n1) && !n1.halted
    requires n1.height == n.height && round <= n1.round && n.outbox <= n1.outbox
    ensures var n2 := EnterPrecommit(cfg, n1, n.height, round);
            VotesOnMoving(cfg, n, n2) && n2.height == n.height
  {
    hide Placed, Prevoted, PrecommitFits;
    var n2 := EnterPrecommit(cfg, n1, n.height, round);
    PrecommitMoves(cfg, n1, n.height, round);
  }

  /** Committing, and perhaps starting the next height at once, ends in no voting step. */
  lemma CommittedMoves(cfg: Config, n: Node, n2: Node, round: int)
    requires VotesOnMoving(cfg, n, n2) && n2.height == n.height && 0 <= n2.round
    ensures var n3 := EnterCommit(cfg, n2, n.height, round);
            VotesOnMoving(cfg, n, n3) && VotesOnMoving(cfg, n, EnterNewRound(cfg, n3, n3.height, 0))
  {
    hide Prevoted, Precommitted;
    var n3 := EnterCommit(cfg, n2, n.height, round);
    CommittedStep(cfg, n2, round);
    hide EnterCommit;
    EnterNewRoundVotes(cfg, n3, n3.height, 0);
    NoNewRound(cfg, n3);
    hide EnterNewRound;
  }

  lemma NoNewRound(cfg: Config, n: Node)
    ensures n.halted || (0 <= n.round && n.step != STEP_NEW_HEIGHT) ==> EnterNewRound(cfg, n, n.height, 0) == n
  {
  }

  lemma AddVoteMsgMoves(cfg: Config, n: Node, vote: Vote, peer: Peer, sigOk: bool)
    requires Placed(cfg, n) && !n.halted
    ensures VotesOnMoving(cfg, n, AddVoteMsg(cfg, n, vote, peer, sigOk))
  {
    hide EnterNewRound, AfterPrevote, AfterPrecommit, AddHeightVote, AddVote, VotesOnMoving;
    SelfMoves(cfg, n, n);
    SelfMoves(cfg, n, Halt(n));
    if vote.height + 1 == n.height && vote.kind.Precommit? {
      if n.lastCommit.Some? {
        var n1 := n.(lastCommit := Some(AddVote(n.lastCommit.value, vote, sigOk).votes));
        SelfMoves(cfg, n, n1);
        EnterNewRoundVotes(cfg, n1, n1.height, 0);
        NewRoundMoves(cfg, n1, EnterNewRound(cfg, n1, n1.height, 0));
        SameMoves(cfg, n, n1, EnterNewRound(cfg, n1, n1.height, 0));
      }
    } else if vote.height == n.height {
      AddHeightVoteMajority(n.votes, vote, peer, sigOk);
      var r := AddHeightVote(n.votes, vote, peer, sigOk);
      var n1 := n.(votes := r.votes);
      SelfMoves(cfg, n, n1);
      if r.added && vote.kind.Prevote? {
        AfterPrevoteMoves(cfg, n1, vote.round);
        SameMoves(cfg, n, n1, AfterPrevote(cfg, n1, vote.round));
      } else if r.added {
        AfterPrecommitMoves(cfg, n1, vote.round);
        SameMoves(cfg, n, n1, AfterPrecommit(cfg, n1, vote.round));
      }
    }
  }

  lemma CompleteProposalBlockMoves(cfg: Config, n: Node, block: Block)
    requires Placed(cfg, n) && !n.halted
    ensures VotesOnMoving(cfg, n, CompleteProposalBlock(cfg, n, block))
  {
    var n1 := n.(proposalBlock := Some(block));
    var polka := TwoThirdsMajority(n1.votes, n1.round, Prevote);
    var n2 :=
      if polka.Some? && polka.value.BlockID? && n1.validRound < n1.round && HashesTo(n1.proposalBlock, polka.value) then
        n1.(validRound := n1.round, validBlock := n1.proposalBlock, validBlockParts := n1.proposalBlockParts)
      else n1;
    hide EnterPrevote, EnterPrecommit, TryFinalizeCommit, Placed, VotesOnMoving, Moves;
    ValidBlockSeen(cfg, n, block);
    SelfMoves(cfg, n, n2);
    AfterProposalBlockMoves(cfg, n2, polka.Some?);
    hide AfterProposalBlock;
    SameMoves(cfg, n, n2, AfterProposalBlock(cfg, n2, polka.Some?));
  }

  lemma AfterProposalBlockMoves(cfg: Config, n: Node, hasTwoThirds: bool)
    requires Placed(cfg, n) && !n.halted
    ensures VotesOnMoving(cfg, n, AfterProposalBlock(cfg, n, hasTwoThirds))
  {
    hide EnterPrevote, EnterPrecommit, TryFinalizeCommit, Placed, VotesOnMoving, Moves;
    SelfMoves(cfg, n, n);
    var n1 := EnterPrevote(cfg, n, n.height, n.round);
    PrevoteMoves(cfg, n, n.height, n.round);
    if n.step <= STEP_PROPOSE {
      PrevoteVotes(cfg, n);
      EnterPrevotePlaced(cfg, n, n.height, n.round);
      PrecommitAfterPrevote(cfg, n, n1);
    } else if n.step == STEP_COMMIT {
      FinalizedStep(cfg, n);
      EndsElsewhere(cfg, n, TryFinalizeCommit(cfg, n, n.height));
    }
  }

  lemma EndsElsewhere(cfg: Config, n: Node, n': Node)
    requires n'.halted || n'.step == STEP_COMMIT || n'.step == STEP_NEW_HEIGHT
    ensures VotesOnMoving(cfg, n, n')
  {
  }

  lemma PrecommitAfterPrevote(cfg: Config, n: Node, n1: Node)
    requires Placed(cfg, n1) && n.outbox <= n1.outbox && !n1.halted && n1.step == STEP_PREVOTE
    ensures VotesOnMoving(cfg, n, EnterPrecommit(cfg, n1, n1.height, n1.round))
  {
    hide Prevoted, PrecommitFits, Placed;
    PrecommitMoves(cfg, n1, n1.height, n1.round);
    PrecommitStep(cfg, n1);
    hide EnterPrecommit;
  }

  lemma HandleTimeoutMoves(cfg: Config, n: Node, ti: TimeoutInfo)
    requires Placed(cfg, n) && !n.halted && Timely(n, Timeout(ti))
    ensures VotesOnMoving(cfg, n, HandleTimeout(cfg, n, ti))
  {
    hide EnterNewRound, EnterPropose, EnterPrevote, EnterPrecommit, Placed, VotesOnMoving, Moves;
    SelfMoves(cfg, n, n);
    SelfMoves(cfg, n, Halt(n));
    if ti.height != n.height || ti.round < n.round || (ti.round == n.round && ti.step < n.step) {
      return;
    }
    EnterNewRoundVotes(cfg, n, ti.height, 0);
    NewRoundMoves(cfg, n, EnterNewRound(cfg, n, ti.height, 0));
    ProposeMoves(cfg, n);
    PrevoteMoves(cfg, n, ti.height, ti.round);
    WaitIsOver(cfg, n, ti.round);
  }

  lemma ProposeMoves(cfg: Config, n: Node)
    requires Placed(cfg, n)
    ensures VotesOnMoving(cfg, n, EnterPropose(cfg, n, n.height, 0))
  {
    hide Prevoted, Precommitted;
    if n.round == 0 && n.step < STEP_PREVOTE {
      EnterProposeVotes(cfg, n);
    }
    hide EnterPrevote;
  }

  /** Precommitting at the end of a round and going on to the next one ends before its prevote. */
  lemma WaitIsOver(cfg: Config, n: Node, round: int)
    requires Placed(cfg, n) && !n.halted && round == n.round
    ensures var n1 := EnterPrecommit(cfg, n, n.height, round);
            VotesOnMoving(cfg, n, EnterPrecommit(cfg, n, n.height, round))
            && VotesOnMoving(cfg, n, EnterNewRound(cfg, n1, n.height, round + 1))
  {
    hide Prevoted, Precommitted;
    var n1 := EnterPrecommit(cfg, n, n.height, round);
    PrecommitMoves(cfg, n, n.height, round);
    EnterPrecommitPlaced(cfg, n, n.height, round);
    PrecommitRound(cfg, n);
    hide EnterPrecommit, Moves;
    EnterNewRoundVotes(cfg, n1, n.height, round + 1);
    if !n1.halted {
      EnterNewRoundReaches(cfg, n1, round + 1);
    }
    hide EnterNewRound;
  }

  lemma PrecommitRound(cfg: Config, n: Node)
    ensures EnterPrecommit(cfg, n, n.height, n.round).round == n.round
    ensures EnterPrecommit(cfg, n, n.height, n.round).height == n.height
  {
    hide PolRound;
  }

  /**
   Whatever event takes a node to the prevote step, it has then signed, if it has a key, exactly one prevote
   for its height and round: for its lock, else for a valid proposal block, else for nil. Whatever event
   takes it to the precommit step, the last vote it signed is the precommit of its round: for the block it
   locked in this round, which has the prevote majority, and for nil if it locked none.
   */
  lemma VotesOnEvent(cfg: Config, n: Node, event: Event)
    requires Placed(cfg, n) && !n.halted && Timely(n, event)
    ensures VotesOnMoving(cfg, n, HandleEvent(cfg, n, event))
  {
    hide EnterPropose, CompleteProposalBlock, AddVoteMsg, HandleTimeout, SetHeightPeerMaj23, VotesOnMoving;
    SelfMoves(cfg, n, n);
    match event
    case TxsAvailable =>
      SelfMoves(cfg, n, Schedule(n, n.height, 0, STEP_NEW_ROUND));
      ProposeMoves(cfg, n);
    case ProposalMsg(p, sigOk) => SelfMoves(cfg, n, SetProposal(n, p, sigOk));
    case BlockPartMsg(height, outcome) =>
      if n.proposalBlockParts.Some? {
        var n1 := n.(proposalBlockParts := Some(n.proposalBlockParts.value.(complete := true)));
        SelfMoves(cfg, n, n1);
        if outcome.PartsComplete? {
          CompleteProposalBlockMoves(cfg, n1, outcome.block);
          SameMoves(cfg, n, n1, CompleteProposalBlock(cfg, n1, outcome.block));
        }
      }
    case VoteMsg(vote, peer, sigOk) => AddVoteMsgMoves(cfg, n, vote, peer, sigOk);
    case PeerMaj23Msg(round, kind, peer, b) =>
      SelfMoves(cfg, n, n.(votes := SetHeightPeerMaj23(n.votes, round, kind, peer, b)));
    case Timeout(ti) => HandleTimeoutMoves(cfg, n, ti);
  }

  lemma VotesOnReceive(cfg: Config, n: Node, event: Event, canSign: bool)
    ensures !n.halted && Placed(cfg, n) && Timely(n, event) ==>
              VotesOnMoving(cfg, n.(outbox := [], canSign := canSign), Handle(cfg, n, event, canSign))
  {
    if !n.halted && Placed(cfg, n) && Timely(n, event) {
      VotesOnEvent(cfg, n.(outbox := [], canSign := canSign), event);
    }
    hide HandleEvent;
  }
}
