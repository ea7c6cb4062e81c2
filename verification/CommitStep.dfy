/**
 A node in the commit step waits for the block it has to finalise. It does not always stay: this module
 says exactly when one event takes it out of the step at the same height, and shows a run in which it happens.
 */
module CommitStep {
  import opened Wrappers
  import opened Quorum
  import opened VoteSets
  import opened Consensus
  import opened Progress
  import opened LockHistory

  /** A vote of this height for a later round that is counted. */
  predicate LaterVote(n: Node, event: Event)
  {
    && event.VoteMsg? && event.vote.height == n.height && n.round < event.vote.round
    && AddHeightVote(n.votes, event.vote, event.peer, event.voteSigOk).added
  }

  /** The votes of the height once the event's vote is counted. */
  function VotesWith(n: Node, event: Event): HeightVoteSet
    requires event.VoteMsg?
  {
    AddHeightVote(n.votes, event.vote, event.peer, event.voteSigOk).votes
  }

  /**
   With the vote its round has two thirds of the power in prevotes, or in precommits without a majority for a
   block.
   */
  predicate SkipsRound(n: Node, event: Event)
  {
    && LaterVote(n, event)
    && if event.vote.kind.Prevote? then TwoThirdsAny(VotesWith(n, event), event.vote.round, Prevote)
       else Undecided(VotesWith(n, event), event.vote.round)
  }

  predicate Undecided(hvs: HeightVoteSet, round: int)
  {
    var maj := TwoThirdsMajority(hvs, round, Precommit);
    if maj.Some? then maj.value.NilBlock? else TwoThirdsAny(hvs, round, Precommit)
  }

  predicate Decided(hvs: HeightVoteSet, round: int)
  {
    var maj := TwoThirdsMajority(hvs, round, Precommit);
    maj.Some? && maj.value.BlockID?
  }

  /** With the vote its round has a precommit majority for a block. */
  predicate DecidesLater(n: Node, event: Event)
  {
    LaterVote(n, event) && event.vote.kind.Precommit? && Decided(VotesWith(n, event), event.vote.round)
  }

  predicate Waiting(n: Node) { !n.halted && n.step == STEP_COMMIT }

  /** The node has left the commit step without going to another height. */
  predicate Left(n: Node, n': Node) { n'.height == n.height && n'.step != STEP_COMMIT }

  lemma FinalizeStays(cfg: Config, n: Node, height: int)
    requires WellPlaced(cfg, n) && n.step == STEP_COMMIT
    ensures !Left(n, TryFinalizeCommit(cfg, n, height))
    ensures var n' := TryFinalizeCommit(cfg, n, height); n'.height == n.height ==>
              n'.round == n.round && n'.commitRound == n.commitRound
  {
  }

  /** In the commit step the round can only be entered anew by being a later one. */
  lemma PrevoteLeaves(cfg: Config, n: Node, round: int)
    requires Tracked(cfg, n) && n.round <= n.votes.round && Waiting(n) && (round == n.round || ValidSeen(n))
    ensures var n' := AfterPrevote(cfg, n, round);
            && (Left(n, n') <==> n.round < round && TwoThirdsAny(n.votes, round, Prevote))
            && (Left(n, n') ==> n'.round == round && !n'.halted)
  {
    hide SeePolka, EnterNewRound, EnterPrecommit, EnterPrevote, EnterPrevoteWait;
    var polka := TwoThirdsMajority(n.votes, round, Prevote);
    var n1 := if polka.Some? then SeePolka(n, round, polka.value) else n;
    if polka.Some? {
      SeePolkaPlaced(cfg, n, round);
      SeePolkaWaits(n, round, polka.value);
    }
    if n.round < round {
      EnterNewRoundReaches(cfg, n1, round);
    }
    NothingLeft(cfg, n1, round);
  }

  lemma SeePolkaWaits(n: Node, round: int, polka: BlockID)
    ensures SeePolka(n, round, polka).halted == n.halted
  {
  }

  /** What the commit step refuses in the current round and in earlier ones. */
  lemma NothingLeft(cfg: Config, n: Node, round: int)
    requires Waiting(n) && 0 <= n.round
    ensures round <= n.round ==>
              EnterPrecommit(cfg, n, n.height, round) == n && EnterNewRound(cfg, n, n.height, round) == n
    ensures round <= n.round ==> EnterPrevoteWait(n, n.height, round) == n
    ensures EnterPrevote(cfg, n, n.height, n.round) == n && EnterNewRound(cfg, n, n.height, 0) == n
    ensures EnterPropose(cfg, n, n.height, 0) == n
  {
  }

  /** Precommits of the round the node is in, or of an earlier one, change nothing but the wait. */
  lemma EarlyPrecommitStays(cfg: Config, n: Node, round: int)
    requires Placed(cfg, n) && Waiting(n) && round <= n.round
    ensures !Left(n, AfterPrecommit(cfg, n, round))
  {
    hide EnterNewRound, EnterPrecommit, EnterCommit;
    NothingLeft(cfg, n, round);
    CommitRefused(cfg, n, round);
  }

  lemma CommitRefused(cfg: Config, n: Node, round: int)
    requires Waiting(n)
    ensures EnterCommit(cfg, n, n.height, round) == n
  {
  }

  /** In a later round the precommit is cast without halting. */
  lemma PrecommitReached(cfg: Config, n: Node, round: int)
    requires Placed(cfg, n) && !n.halted && n.round < round
    ensures var n2 := EnterPrecommit(cfg, EnterNewRound(cfg, n, n.height, round), n.height, round);
            !n2.halted && n2.height == n.height && n2.round == round && n2.step == STEP_PRECOMMIT
            && n2.chain == n.chain
            && forall r, k :: TwoThirdsMajority(n2.votes, r, k) == TwoThirdsMajority(n.votes, r, k)
  {
    EnterNewRoundReaches(cfg, n, round);
    EnterNewRoundPlaced(cfg, n, n.height, round);
    FreshRound(cfg, n, round);
    hide EnterNewRound;
    var n1 := EnterNewRound(cfg, n, n.height, round);
    var polka := TwoThirdsMajority(n1.votes, round, Prevote);
    if polka.Some? {
      PolRoundIsHighest(n1.votes, n1.votes.round, round);
      hide PolRound;
    }
  }

  lemma FreshRound(cfg: Config, n: Node, round: int)
    requires Placed(cfg, n) && !n.halted && n.round < round
    ensures var n1 := EnterNewRound(cfg, n, n.height, round);
            n1.proposalBlock.None?
                && forall r, k :: TwoThirdsMajority(n1.votes, r, k) == TwoThirdsMajority(n.votes, r, k)
  {
    hide SetRound;
    SetRoundMajority(n.votes, round + 1);
  }

  /** Precommits of a later round leave the step when they are enough but undecided; a decision comes back to it. */
  lemma LatePrecommitLeaves(cfg: Config, n: Node, round: int)
    requires Placed(cfg, n) && Waiting(n) && n.round < round
    ensures Left(n, AfterPrecommit(cfg, n, round)) <==> Undecided(n.votes, round)
    ensures var n' := AfterPrecommit(cfg, n, round);
            Decided(n.votes, round) && n'.height == n.height ==>
              n'.step == STEP_COMMIT && n'.round == round && n'.commitRound == round
  {
    var h := n.height;
    EnterNewRoundReaches(cfg, n, round);
    PrecommitReached(cfg, n, round);
    EnterNewRoundPlaced(cfg, n, h, round);
    var n1 := EnterNewRound(cfg, n, h, round);
    var n2 := EnterPrecommit(cfg, n1, h, round);
    EnterPrecommitPlaced(cfg, n1, h, round);
    hide EnterNewRound, EnterPrecommit, Placed, Moves;
    if Decided(n.votes, round) {
      CommitReturns(cfg, n2, round);
    }
  }

  /** A precommit majority for a block puts the node back into the commit step, or finalises the block. */
  lemma CommitReturns(cfg: Config, n: Node, round: int)
    requires Placed(cfg, n) && !n.halted && n.round == round && n.step == STEP_PRECOMMIT && 0 < round
    requires Decided(n.votes, round)
    ensures var n3 := EnterCommit(cfg, n, n.height, round);
            && (n3.height == n.height ==> n3.step == STEP_COMMIT && n3.round == round && n3.commitRound == round)
            && (n3.height == n.height ==> EnterNewRound(cfg, n3, n3.height, 0) == n3)
            && (n3.height != n.height ==> EnterNewRound(cfg, n3, n3.height, 0).height != n.height)
  {
    var maj := TwoThirdsMajority(n.votes, round, Precommit);
    var n2 := CommitProposal(n, maj.value).(step := STEP_COMMIT, commitRound := round);
    FinalizeStays(cfg, n2, n.height);
    hide TryFinalizeCommit;
    var n3 := EnterCommit(cfg, n, n.height, round);
    EnterCommitPlaced(cfg, n, n.height, round);
    RoundKeepsHeight(cfg, n3, 0);
  }

  lemma RoundKeepsHeight(cfg: Config, n: Node, round: int)
    ensures EnterNewRound(cfg, n, n.height, round).height == n.height
  {
    hide SetRound;
  }

  lemma VoteLeaves(cfg: Config, n: Node, event: Event)
    requires Placed(cfg, n) && Waiting(n) && event.VoteMsg?
    ensures Left(n, HandleEvent(cfg, n, event)) <==> SkipsRound(n, event)
    ensures var n' := HandleEvent(cfg, n, event);
            DecidesLater(n, event) && n'.height == n.height ==>
              n'.step == STEP_COMMIT && n'.round == event.vote.round && n'.commitRound == event.vote.round
  {
    hide AfterPrevote, AfterPrecommit, AddHeightVote, AddVote;
    var vote := event.vote;
    if vote.height == n.height {
      AddHeightVoteMajority(n.votes, vote, event.peer, event.voteSigOk);
      var r := AddHeightVote(n.votes, vote, event.peer, event.voteSigOk);
      var n1 := n.(votes := r.votes);
      if r.added && vote.kind.Prevote? {
        PrevoteLeaves(cfg, n1, vote.round);
      } else if r.added && vote.round <= n.round {
        EarlyPrecommitStays(cfg, n1, vote.round);
      } else if r.added {
        LatePrecommitLeaves(cfg, n1, vote.round);
      }
    }
  }

  /**
   When the commit step is left. An event takes a waiting node out of the commit step at the same height
   exactly when it is a vote that completes a skip to a later round; a decision of a later round comes
   back to the commit step in that round, or finalises the block.
   */
  lemma CommitStepLeft(cfg: Config, n: Node, event: Event)
    requires Placed(cfg, n) && Waiting(n) && Timely(n, event)
    ensures Left(n, HandleEvent(cfg, n, event)) <==> SkipsRound(n, event)
    ensures var n' := HandleEvent(cfg, n, event);
            DecidesLater(n, event) && n'.height == n.height ==>
              n'.step == STEP_COMMIT && n'.round == event.vote.round && n'.commitRound == event.vote.round
  {
    hide EnterNewRound, EnterPropose, EnterPrevote, EnterPrecommit, AddVoteMsg, TryFinalizeCommit, SetHeightPeerMaj23;
    NothingLeft(cfg, n, n.round);
    match event
    case VoteMsg(_, _, _) => VoteLeaves(cfg, n, event);
    case BlockPartMsg(height, outcome) =>
      if outcome.PartsComplete? && n.proposalBlockParts.Some? {
        BlockStays(cfg, n.(proposalBlockParts := Some(n.proposalBlockParts.value.(complete := true))), outcome.block);
      }
    case TxsAvailable =>
    case ProposalMsg(_, _) =>
    case PeerMaj23Msg(_, _, _, _) =>
    case Timeout(_) =>
  }

  lemma BlockStays(cfg: Config, n: Node, block: Block)
    requires WellPlaced(cfg, n) && n.step == STEP_COMMIT
    ensures !Left(n, CompleteProposalBlock(cfg, n, block))
  {
    var n1 := n.(proposalBlock := Some(block));
    FinalizeStays(cfg, n1, n.height);
    var n2 :=
      n1.(validRound := n1.round, validBlock := n1.proposalBlock, validBlockParts := n1.proposalBlockParts);
    FinalizeStays(cfg, n2, n.height);
    hide TryFinalizeCommit, EnterPrevote, EnterPrecommit;
  }

  // ---- a run in which it happens ----

  /** A full node, 0, follows a chain with one validator, 1. */
  function OneValidator(): Config
  {
    Config(1, _ => [Validator(1, 1)], (_, _) => true, (_, _) => true, _ => false, false, false, false)
  }

  function VoteOf(round: int, kind: VoteType): Event
  {
    VoteMsg(Vote(1, 1, round, kind, BlockID(7, 0)), 1, true)
  }

  /** The vote of the only validator is a majority. */
  lemma OnlyVote(round: int, kind: VoteType)
    ensures var vals := [Validator(1, 1)];
            var r := AddVote(NewVoteSet(1, round, kind, vals), VoteOf(round, kind).vote, true);
            r.added && r.votes.maj23 == Some(BlockID(7, 0)) && HasTwoThirdsAny(r.votes)
  {
    var vals := [Validator(1, 1)];
    assert vals[1..] == [] && vals[0].address in Addresses(vals);
    assert TotalPower(vals) == 1 && PowerOf(vals, {1}) == 1;
  }

  /** The votes after the precommit of round 0, and with round 1 tracked. */
  function FirstVotes(): HeightVoteSet
  {
    AddHeightVote(NewHeightVoteSet(1, [Validator(1, 1)]), VoteOf(0, Precommit).vote, 1, true).votes
  }

  lemma FirstVotesDecide()
    ensures AddHeightVote(NewHeightVoteSet(1, [Validator(1, 1)]), VoteOf(0, Precommit).vote, 1, true).added
    ensures FirstVotes().round == 0 && FirstVotes().sets.Keys == {0} && FirstVotes().height == 1
    ensures FirstVotes().vals == [Validator(1, 1)]
    ensures GetVoteSet(FirstVotes(), 0, Precommit).Some?
    ensures TwoThirdsMajority(FirstVotes(), 0, Precommit) == Some(BlockID(7, 0))
    ensures TwoThirdsMajority(FirstVotes(), 0, Prevote) == None
  {
    OnlyVote(0, Precommit);
    hide AddVote;
  }

  /** In the next round the only validator's prevote is two thirds of anything. */
  lemma NextRoundSkips()
    ensures var r := AddHeightVote(SetRound(FirstVotes(), 1), VoteOf(1, Prevote).vote, 1, true);
            r.added && TwoThirdsAny(r.votes, 1, Prevote)
  {
    FirstVotesDecide();
    OnlyVote(1, Prevote);
    hide AddVote, FirstVotes;
    assert SetRound(FirstVotes(), 1).sets[1] == NewRound(1, 1, [Validator(1, 1)]);
  }

  /** Where the node is once the first precommit is counted. */
  function AtCommit(): Node
  {
    var cfg := OneValidator();
    InitNode(cfg, 0).(
      votes := SetRound(FirstVotes(), 1), step := STEP_COMMIT, commitRound := 0,
      proposalBlockParts := Some(PartSet(0, false)),
      timeouts := {TimeoutInfo(1, 0, STEP_NEW_HEIGHT), TimeoutInfo(1, 0, STEP_PROPOSE)})
  }

  /** A node at the start of a height without a proposal goes to the propose step of round 0. */
  lemma RoundZeroOpens(cfg: Config, n: Node)
    requires !n.halted && n.round == 0 && n.step == STEP_NEW_HEIGHT && n.votes.round == 0 && n.proposal.None?
    requires !cfg.waitForTxs
    ensures EnterNewRound(cfg, n, n.height, 0) ==
            n.(votes := SetRound(n.votes, 1), triggeredTimeoutPrecommit := false, step := STEP_PROPOSE,
               timeouts := n.timeouts + {TimeoutInfo(n.height, 0, STEP_PROPOSE)})
  {
    hide SetRound, EnterPrevote;
  }

  /** Without a majority of prevotes a full node takes the precommit step and signs nothing. */
  lemma NilPrecommit(cfg: Config, n: Node, round: int)
    requires !n.halted && !n.canSign && n.round == round && n.step < STEP_PRECOMMIT
    requires TwoThirdsMajority(n.votes, round, Prevote).None?
    ensures EnterPrecommit(cfg, n, n.height, round) == n.(step := STEP_PRECOMMIT)
  {
    hide PrecommitPolka, TwoThirdsMajority;
  }

  /** A majority for a block that the node knows nothing of: it waits for the block. */
  lemma CommitWaits(cfg: Config, n: Node, round: int, b: BlockID)
    requires !n.halted && n.step < STEP_COMMIT && b.BlockID?
    requires TwoThirdsMajority(n.votes, round, Precommit) == Some(b)
    requires n.lockedBlock.None? && n.proposalBlock.None? && n.proposalBlockParts.None?
    ensures EnterCommit(cfg, n, n.height, round) ==
            n.(step := STEP_COMMIT, commitRound := round, proposalBlockParts := Some(PartSet(b.parts, false)))
  {
    hide FinalizeCommit;
  }

  lemma FirstPrecommitHandled()
    ensures var cfg := OneValidator();
            Handle(cfg, InitNode(cfg, 0), VoteOf(0, Precommit), false) ==
            AfterPrecommit(cfg, InitNode(cfg, 0).(votes := FirstVotes()), 0)
  {
    FirstVotesDecide();
    hide AddHeightVote, AfterPrecommit, SetRound;
  }

  lemma FirstPrecommitWaits()
    ensures Handle(OneValidator(), InitNode(OneValidator(), 0), VoteOf(0, Precommit), false) == AtCommit()
  {
    var cfg := OneValidator();
    FirstPrecommitHandled();
    FirstVotesDecide();
    SetRoundMajority(FirstVotes(), 1);
    hide Handle, FirstVotes, SetRound, EnterNewRound, EnterPrecommit, EnterCommit, AfterPrecommit, TwoThirdsMajority;
    hide NewHeightVoteSet, VoteOf;
    var a := InitNode(cfg, 0).(votes := FirstVotes());
    RoundZeroOpens(cfg, a);
    var b := EnterNewRound(cfg, a, 1, 0);
    NilPrecommit(cfg, b, 0);
    CommitWaits(cfg, EnterPrecommit(cfg, b, 1, 0), 0, BlockID(7, 0));
    PrecommitDecides(cfg, a, 0);
  }

  lemma PrecommitDecides(cfg: Config, n: Node, round: int)
    requires Decided(n.votes, round) && !cfg.skipTimeoutCommit
    ensures AfterPrecommit(cfg, n, round) ==
            EnterCommit(cfg,
              EnterPrecommit(cfg, EnterNewRound(cfg, n, n.height, round), n.height, round), n.height, round)
  {
    hide EnterNewRound, EnterPrecommit, EnterCommit;
  }

  /**
   The precommit of round 0 puts the node into the commit step without the block; the prevote of round 1 takes it
   out.
   */
  lemma CommitStepIsLeft()
    ensures var cfg := OneValidator();
            var n1 := Handle(cfg, InitNode(cfg, 0), VoteOf(0, Precommit), false);
            var n2 := Handle(cfg, n1, VoteOf(1, Prevote), false);
            Waiting(n1) && n1.height == 1 && n1.round == 0 && Left(n1, n2)
  {
    var cfg := OneValidator();
    var n1 := AtCommit();
    FirstPrecommitWaits();
    NextRoundSkips();
    InitNodePlaced(cfg, 0);
    HandleEventMoves(cfg, InitNode(cfg, 0), VoteOf(0, Precommit));
    hide FirstVotes, AddHeightVote, SetRound, Placed, HandleEvent;
    CommitStepLeft(cfg, n1, VoteOf(1, Prevote));
  }
}
