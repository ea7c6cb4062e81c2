/**
 The locked round is usually at most the valid round, but relocking does not touch the valid block. This
 module says exactly when one event lets the locked round pass the valid round, and shows a run in which
 it happens.
 */
module RelockRound {
  import opened Wrappers
  import opened Quorum
  import opened VoteSets
  import opened Consensus
  import opened Progress
  import opened LockHistory

  /** The locked round has not passed the valid round. */
  predicate Level(n: Node) { n.lockedRound <= n.validRound }

  /** The prevotes of a round have a majority for the locked block, and the valid block is from an earlier round. */
  predicate Outruns(n: Node, round: int)
  {
    var polka := TwoThirdsMajority(n.votes, round, Prevote);
    polka.Some? && HashesTo(n.lockedBlock, polka.value) && n.validRound < round
  }

  /**
   A precommit of the node's round that does not halt raises the lock past the valid block exactly for these
   majorities.
   */
  lemma PrecommitOutruns(cfg: Config, n: Node)
    requires Level(n) && -1 <= n.validRound && !n.halted
    requires !EnterPrecommit(cfg, n, n.height, n.round).halted
    ensures var polka := TwoThirdsMajority(n.votes, n.round, Prevote);
            !Level(EnterPrecommit(cfg, n, n.height, n.round)) <==>
              (&& n.step < STEP_PRECOMMIT && n.validRound < n.round && polka.Some?
               && (HashesTo(n.lockedBlock, polka.value) || HashesTo(n.proposalBlock, polka.value)))
  {
    hide PolRound;
  }

  /** Of a node in a run only a relock does it: a proposal block with a majority is the valid block already. */
  lemma OnlyRelockOutruns(cfg: Config, n: Node)
    requires Placed(cfg, n) && Level(n) && !n.halted
    ensures !Level(EnterPrecommit(cfg, n, n.height, n.round)) <==> n.step < STEP_PRECOMMIT && Outruns(n, n.round)
    ensures EnterPrecommit(cfg, n, n.height, n.round).height == n.height
  {
    var polka := TwoThirdsMajority(n.votes, n.round, Prevote);
    if polka.Some? {
      PolRoundIsHighest(n.votes, n.votes.round, n.round);
    }
    hide PolRound;
  }

  // ---- transitions that leave the rounds alone ----

  /** Neither the lock nor the valid round changes, unless the node goes to another height. */
  predicate SameRounds(n: Node, n': Node)
  {
    if n'.height == n.height then n'.lockedRound == n.lockedRound && n'.validRound == n.validRound else Level(n')
  }

  lemma EnterPrevoteRounds(cfg: Config, n: Node, height: int, round: int)
    ensures SameRounds(n, EnterPrevote(cfg, n, height, round)) && EnterPrevote(cfg, n, height, round).height == n.height
  {
  }

  lemma EnterProposeRounds(cfg: Config, n: Node, height: int, round: int)
    ensures SameRounds(n, EnterPropose(cfg, n, height, round)) && EnterPropose(cfg, n, height, round).height == n.height
  {
    hide EnterPrevote;
    var n2 := Schedule(n, height, round, STEP_PROPOSE).(round := round, step := STEP_PROPOSE);
    EnterPrevoteRounds(cfg, n2, height, n2.round);
  }

  lemma EnterNewRoundRounds(cfg: Config, n: Node, height: int, round: int)
    ensures SameRounds(n, EnterNewRound(cfg, n, height, round))
    ensures EnterNewRound(cfg, n, height, round).height == n.height
    ensures EnterNewRound(cfg, n, height, round).lockedBlock == n.lockedBlock
  {
    hide SetRound;
  }

  lemma TryFinalizeRounds(cfg: Config, n: Node, height: int)
    requires WellPlaced(cfg, n)
    ensures SameRounds(n, TryFinalizeCommit(cfg, n, height))
  {
  }

  lemma EnterCommitRounds(cfg: Config, n: Node, height: int, round: int)
    requires WellPlaced(cfg, n)
    ensures SameRounds(n, EnterCommit(cfg, n, height, round))
  {
    hide TryFinalizeCommit;
    var maj := TwoThirdsMajority(n.votes, round, Precommit);
    if maj.Some? {
      TryFinalizeRounds(cfg, CommitProposal(n, maj.value).(step := STEP_COMMIT, commitRound := round), height);
    }
  }

  // ---- events ----

  /** Prevotes never do it: the block of a majority is made the valid block, or the node stops having it. */
  lemma PrevoteLevel(cfg: Config, n: Node, round: int)
    requires Tracked(cfg, n) && n.round <= n.votes.round && (round == n.round || ValidSeen(n)) && !n.halted && Level(n)
    ensures Level(AfterPrevote(cfg, n, round))
  {
    hide SeePolka, EnterNewRound, EnterPrecommit, EnterPrevote;
    var polka := TwoThirdsMajority(n.votes, round, Prevote);
    var n1 := if polka.Some? then SeePolka(n, round, polka.value) else n;
    if polka.Some? {
      SeePolkaPlaced(cfg, n, round);
      SeePolkaLevel(n, round, polka.value);
    }
    EnterNewRoundRounds(cfg, n1, n1.height, round);
    EnterPrevoteRounds(cfg, n1, n1.height, n1.round);
    if round == n1.round {
      OnlyRelockOutruns(cfg, n1);
      assert polka.Some? && (IsProposalComplete(n1) || polka.value.NilBlock?) ==> !Outruns(n1, round);
    }
  }

  lemma SeePolkaLevel(n: Node, round: int, polka: BlockID)
    requires Level(n) && -1 <= n.validRound
    ensures var n1 := SeePolka(n, round, polka);
            && Level(n1) && n1.halted == n.halted && n1.votes == n.votes
            && (round == n.round && n1.validRound < round && polka.BlockID? ==> n1.proposalBlock.None?)
  {
    UnlockLevel(n, round, polka);
    hide UnlockOld;
  }

  lemma UnlockLevel(n: Node, round: int, polka: BlockID)
    requires Level(n) && -1 <= n.validRound
    ensures var n1 := UnlockOld(n, round, polka);
            && Level(n1) && n1.halted == n.halted && n1.votes == n.votes && n1.round == n.round
            && n1.validRound == n.validRound
  {
  }

  /** A completed block that is not the one prevoted, with the node locked on that one. */
  predicate WrongBlock(n: Node, block: Block)
  {
    var n1 := n.(proposalBlock := Some(block));
    && n.step <= STEP_PROPOSE && IsProposalComplete(n1) && Outruns(n, n.round)
    && !HashesTo(Some(block), TwoThirdsMajority(n.votes, n.round, Prevote).value)
  }

  lemma BlockLevel(cfg: Config, n: Node, block: Block)
    requires Placed(cfg, n) && !n.halted && Level(n)
    ensures var n' := CompleteProposalBlock(cfg, n, block);
            if n'.height == n.height then !Level(n') <==> WrongBlock(n, block) else Level(n')
  {
    var n1 := n.(proposalBlock := Some(block));
    var polka := TwoThirdsMajority(n1.votes, n1.round, Prevote);
    var n2 :=
      if polka.Some? && polka.value.BlockID? && n1.validRound < n1.round && HashesTo(n1.proposalBlock, polka.value) then
        n1.(validRound := n1.round, validBlock := n1.proposalBlock, validBlockParts := n1.proposalBlockParts)
      else n1;
    ValidBlockSeen(cfg, n, block);
    var n3 := EnterPrevote(cfg, n2, n2.height, n2.round);
    EnterPrevotePlaced(cfg, n2, n2.height, n2.round);
    PrevoteKeeps(cfg, n2);
    TryFinalizeRounds(cfg, n2, n2.height);
    hide EnterPrevote, EnterPrecommit, TryFinalizeCommit, Placed, Moves;
    OnlyRelockOutruns(cfg, n3);
  }

  lemma PrevoteKeeps(cfg: Config, n: Node)
    ensures var n' := EnterPrevote(cfg, n, n.height, n.round);
            && n'.halted == n.halted && n'.height == n.height && n'.round == n.round && n'.votes == n.votes
            && n'.lockedBlock == n.lockedBlock && n'.lockedRound == n.lockedRound && n'.validRound == n.validRound
            && (n.step < STEP_PRECOMMIT ==> n'.step < STEP_PRECOMMIT)
  {
  }

  /** Precommits of a round with a majority make the node precommit that round, if it has not yet. */
  predicate LateRelock(n: Node, round: int)
  {
    && TwoThirdsMajority(n.votes, round, Precommit).Some?
    && (n.round < round || (n.round == round && n.step < STEP_PRECOMMIT))
    && Outruns(n, round)
  }

  /** Entering a round and precommitting it. */
  lemma EnterAndPrecommit(cfg: Config, n: Node, round: int)
    requires Placed(cfg, n) && !n.halted && Level(n)
    ensures var n2 := EnterPrecommit(cfg, EnterNewRound(cfg, n, n.height, round), n.height, round);
            && WellPlaced(cfg, n2) && n2.height == n.height
            && (!Level(n2) <==> (n.round < round || (n.round == round && n.step < STEP_PRECOMMIT)) && Outruns(n, round))
  {
    var n1 := EnterNewRound(cfg, n, n.height, round);
    EnterNewRoundReaches(cfg, n, round);
    EnterNewRoundPlaced(cfg, n, n.height, round);
    EnterNewRoundRounds(cfg, n, n.height, round);
    NewRoundMajorities(cfg, n, round);
    assert Outruns(n1, round) == Outruns(n, round);
    assert WellPlaced(cfg, n1);
    hide EnterNewRound, EnterPrecommit, Moves, Outruns, TwoThirdsMajority;
    if n1.round == round {
      OnlyRelockOutruns(cfg, n1);
      PrecommitKeepsPlace(cfg, n1, round);
    } else {
      PastPrecommit(cfg, n1, round);
    }
  }

  lemma PrecommitKeepsPlace(cfg: Config, n: Node, round: int)
    requires WellPlaced(cfg, n)
    ensures WellPlaced(cfg, EnterPrecommit(cfg, n, n.height, round))
  {
    hide PrecommitPolka;
    var polka := TwoThirdsMajority(n.votes, round, Prevote);
    if polka.Some? {
      PrecommitPolkaFrame(cfg, n, round, polka.value);
    }
  }

  lemma WaitRounds(n: Node, height: int, round: int)
    ensures var n' := EnterPrecommitWait(n, height, round);
            n'.height == n.height && n'.lockedRound == n.lockedRound && n'.validRound == n.validRound
  {
  }

  lemma PrecommitLevel(cfg: Config, n: Node, round: int)
    requires Placed(cfg, n) && !n.halted && Level(n)
    ensures var n' := AfterPrecommit(cfg, n, round);
            if n'.height == n.height then !Level(n') <==> LateRelock(n, round) else Level(n')
  {
    var h := n.height;
    EnterNewRoundRounds(cfg, n, h, round);
    EnterAndPrecommit(cfg, n, round);
    hide EnterNewRound, EnterPrecommit, EnterCommit, EnterPrecommitWait, Placed, Outruns, WellPlaced, HasAll,
        HasTwoThirdsAny;
    var n1 := EnterNewRound(cfg, n, h, round);
    var n2 := EnterPrecommit(cfg, n1, h, round);
    WaitRounds(n1, h, round);
    WaitRounds(n2, h, round);
    EnterCommitRounds(cfg, n2, h, round);
    var n3 := EnterCommit(cfg, n2, h, round);
    EnterNewRoundRounds(cfg, n3, n3.height, 0);
  }

  lemma NewRoundMajorities(cfg: Config, n: Node, round: int)
    ensures var n1 := EnterNewRound(cfg, n, n.height, round);
            && (forall r, k :: TwoThirdsMajority(n1.votes, r, k) == TwoThirdsMajority(n.votes, r, k))
            && (STEP_PRECOMMIT <= n.step && round <= n.round ==> n1 == n)
  {
    hide SetRound;
    SetRoundMajority(n.votes, round + 1);
  }

  lemma PastPrecommit(cfg: Config, n: Node, round: int)
    requires round < n.round
    ensures EnterPrecommit(cfg, n, n.height, round) == n
  {
  }

  /** The timeouts that make the node precommit. */
  predicate PrecommitTimeout(n: Node, ti: TimeoutInfo)
  {
    && ti.height == n.height && ti.round == n.round && n.step <= ti.step && n.step < STEP_PRECOMMIT
    && (ti.step == STEP_PREVOTE_WAIT || ti.step == STEP_PRECOMMIT_WAIT)
  }

  lemma TimeoutLevel(cfg: Config, n: Node, ti: TimeoutInfo)
    requires Placed(cfg, n) && !n.halted && Level(n) && Timely(n, Timeout(ti))
    ensures var n' := HandleTimeout(cfg, n, ti);
            n'.height == n.height && (!Level(n') <==> PrecommitTimeout(n, ti) && Outruns(n, n.round))
  {
    hide EnterNewRound, EnterPropose, EnterPrevote, EnterPrecommit, Placed, Outruns;
    if ti.height == n.height && ti.round == n.round {
      OnlyRelockOutruns(cfg, n);
      EnterNewRoundRounds(cfg, n, ti.height, 0);
      EnterProposeRounds(cfg, n, ti.height, 0);
      EnterPrevoteRounds(cfg, n, ti.height, ti.round);
      EnterNewRoundRounds(cfg, EnterPrecommit(cfg, n, ti.height, ti.round), ti.height, ti.round + 1);
      if STEP_PRECOMMIT <= n.step {
        DonePrecommit(cfg, n);
      }
    }
  }

  lemma DonePrecommit(cfg: Config, n: Node)
    requires STEP_PRECOMMIT <= n.step
    ensures EnterPrecommit(cfg, n, n.height, n.round) == n
  {
  }

  /**
   The event makes the node relock: it precommits a round whose prevote majority is for the block it is
   locked on, while the valid block is from an earlier round.
   */
  predicate RelocksPastValid(n: Node, event: Event)
  {
    match event
    case Timeout(ti) => PrecommitTimeout(n, ti) && Outruns(n, n.round)
    case BlockPartMsg(height, outcome) =>
      && height == n.height && n.proposalBlockParts.Some? && !n.proposalBlockParts.value.complete
      && outcome.PartsComplete? && WrongBlock(n, outcome.block)
    case VoteMsg(vote, peer, sigOk) =>
      && vote.height == n.height && vote.kind.Precommit?
      && var r := AddHeightVote(n.votes, vote, peer, sigOk); r.added && LateRelock(n.(votes := r.votes), vote.round)
    case _ => false
  }

  /**
   When the locked round passes the valid round. From a state of a run in which it has not, an event that
   stays at the height makes it pass exactly by such a relock; an event that ends the height never does.
   */
  lemma LockPassesValid(cfg: Config, n: Node, event: Event)
    requires Placed(cfg, n) && !n.halted && Timely(n, event) && Level(n)
    ensures var n' := HandleEvent(cfg, n, event);
            if n'.height == n.height then !Level(n') <==> RelocksPastValid(n, event) else Level(n')
  {
    hide EnterNewRound, EnterPropose, AfterPrevote, AfterPrecommit, CompleteProposalBlock, HandleTimeout;
    hide AddHeightVote, AddVote, SetHeightPeerMaj23;
    match event
    case TxsAvailable => EnterProposeRounds(cfg, n, n.height, 0);
    case ProposalMsg(_, _) =>
    case BlockPartMsg(height, outcome) =>
      if outcome.PartsComplete? && n.proposalBlockParts.Some? {
        var n1 := n.(proposalBlockParts := Some(n.proposalBlockParts.value.(complete := true)));
        BlockLevel(cfg, n1, outcome.block);
      }
    case VoteMsg(vote, peer, sigOk) =>
      var r := AddHeightVote(n.votes, vote, peer, sigOk);
      AddHeightVoteMajority(n.votes, vote, peer, sigOk);
      var n1 := n.(votes := r.votes);
      if vote.height == n.height && r.added && vote.kind.Prevote? {
        PrevoteLevel(cfg, n1, vote.round);
      } else if vote.height == n.height && r.added {
        PrecommitLevel(cfg, n1, vote.round);
      } else if n.lastCommit.Some? {
        var n2 := n.(lastCommit := Some(AddVote(n.lastCommit.value, vote, sigOk).votes));
        EnterNewRoundRounds(cfg, n2, n2.height, 0);
      }
    case PeerMaj23Msg(_, _, _, _) =>
    case Timeout(ti) => TimeoutLevel(cfg, n, ti);
  }

  // ---- a run in which it happens ----

  const B := BlockID(7, 0)

  function Vals(): ValidatorSet { [Validator(1, 3), Validator(2, 1)] }

  /** A full node, 0, follows a chain with two validators, of which 1 alone is a majority. */
  function TwoValidators(): Config
  {
    Config(1, _ => Vals(), (_, _) => true, (_, _) => true, _ => false, false, false, false)
  }

  function PrevoteOf(v: Address, round: int, b: BlockID): Event
  {
    VoteMsg(Vote(v, 1, round, Prevote, b), v, true)
  }

  function Count(hvs: HeightVoteSet, v: Address, round: int, b: BlockID): HeightAdded
  {
    AddHeightVote(hvs, Vote(v, 1, round, Prevote, b), v, true)
  }

  function Votes1(): HeightVoteSet { Count(NewHeightVoteSet(1, Vals()), 1, 0, B).votes }
  function Votes2(): HeightVoteSet { Count(Votes1(), 1, 1, B).votes }
  function Votes3(): HeightVoteSet { SetRound(Votes2(), 2) }
  function Votes4(): HeightVoteSet { Count(Votes3(), 2, 1, NilBlock).votes }

  lemma Powers()
    ensures TotalPower(Vals()) == 4 && PowerOf(Vals(), {1}) == 3 && PowerOf(Vals(), {2}) == 1
    ensures 1 in Addresses(Vals()) && 2 in Addresses(Vals())
  {
    var tail := Vals()[1..];
    assert tail == [Validator(2, 1)] && tail[1..] == [];
    assert Vals()[0].address == 1 && Vals()[1].address == 2;
    assert PowerOf(tail, {1}) == 0 && PowerOf(tail, {2}) == 1 && TotalPower(tail) == 1;
  }

  /** The prevote of validator 1 is a majority of a fresh round; validator 2 can still add to it. */
  lemma FirstPrevote(round: int)
    ensures var r := AddVote(NewVoteSet(1, round, Prevote, Vals()), Vote(1, 1, round, Prevote, B), true);
            && r.added && r.votes.maj23 == Some(B) && HasTwoThirdsAny(r.votes)
            && var r2 := AddVote(r.votes, Vote(2, 1, round, Prevote, NilBlock), true);
               r2.added && r2.votes.maj23 == Some(B) && HasTwoThirdsAny(r2.votes)
  {
    Powers();
    hide Vals, PowerOf, TotalPower, Addresses;
  }

  lemma Votes1Facts()
    ensures Count(NewHeightVoteSet(1, Vals()), 1, 0, B).added && TwoThirdsMajority(Votes1(), 0, Prevote) == Some(B)
    ensures Votes1().round == 0 && Votes1().height == 1 && Votes1().vals == Vals()
    ensures Votes1().sets.Keys == {0} && Votes1().catchup == map[]
  {
    FirstPrevote(0);
    hide AddVote, Vals;
  }

  lemma Votes2Facts()
    ensures Count(Votes1(), 1, 1, B).added && TwoThirdsMajority(Votes2(), 1, Prevote) == Some(B)
    ensures TwoThirdsAny(Votes2(), 1, Prevote) && Votes2().round == 0 && 1 in Votes2().sets
    ensures Votes2().sets[1].prevotes ==
        AddVote(NewVoteSet(1, 1, Prevote, Vals()), Vote(1, 1, 1, Prevote, B), true).votes
  {
    Votes1Facts();
    FirstPrevote(1);
    hide AddVote, Vals, Votes1;
  }

  lemma Votes4Facts()
    ensures Count(Votes3(), 2, 1, NilBlock).added && TwoThirdsMajority(Votes4(), 1, Prevote) == Some(B)
    ensures TwoThirdsAny(Votes4(), 1, Prevote) && Votes4().round == 2
  {
    Votes2Facts();
    FirstPrevote(1);
    hide AddVote, Vals, Votes2;
    assert Votes3().sets[1] == Votes2().sets[1];
  }

  function Parts(complete: bool): Option<PartSet> { Some(PartSet(0, complete)) }

  // The node after each of seven events.

  function Start(): Node { InitNode(TwoValidators(), 0) }

  function Proposed(): Node
  {
    Start().(proposal := Some(Proposal(1, 0, -1, B)), proposalBlockParts := Parts(false))
  }

  function WithBlock(): Node
  {
    Proposed().(proposalBlockParts := Parts(true), proposalBlock := Some(Block(7)), step := STEP_PREVOTE)
  }

  function LockedNode(): Node
  {
    WithBlock().(
      votes := Votes1(), step := STEP_PRECOMMIT,
      validRound := 0, validBlock := Some(Block(7)), validBlockParts := Parts(true),
      lockedRound := 0, lockedBlock := Some(Block(7)), lockedBlockParts := Parts(true))
  }

  function NextRound(): Node
  {
    LockedNode().(
      votes := Votes3(), round := 1, step := STEP_PROPOSE,
      proposal := None, proposalBlock := None, proposalBlockParts := None,
      timeouts := LockedNode().timeouts + {TimeoutInfo(1, 1, STEP_PROPOSE)})
  }

  function Prevoted(): Node { NextRound().(step := STEP_PREVOTE) }

  function AwaitingPrevotes(): Node
  {
    Prevoted().(
      votes := Votes4(), step := STEP_PREVOTE_WAIT, proposalBlockParts := Parts(false),
      timeouts := Prevoted().timeouts + {TimeoutInfo(1, 1, STEP_PREVOTE_WAIT)})
  }

  function RelockedNode(): Node { AwaitingPrevotes().(lockedRound := 1, step := STEP_PRECOMMIT) }

  const PROPOSE_TIMEOUT := TimeoutInfo(1, 1, STEP_PROPOSE)
  const PREVOTE_TIMEOUT := TimeoutInfo(1, 1, STEP_PREVOTE_WAIT)

  function After(n: Node, event: Event): Node { Handle(TwoValidators(), n, event, false) }

  lemma Step0()
    ensures After(Start(), ProposalMsg(Proposal(1, 0, -1, B), true)) == Proposed()
  {
  }

  lemma Step1()
    ensures After(Proposed(), BlockPartMsg(1, PartsComplete(Block(7)))) == WithBlock()
  {
    hide EnterPrecommit, Vals;
  }

  /** The first prevote makes the proposed block valid and locks it. */
  lemma Step2()
    ensures After(WithBlock(), PrevoteOf(1, 0, B)) == LockedNode()
  {
    Votes1Facts();
    assert Votes1() == AddHeightVote(WithBlock().votes, PrevoteOf(1, 0, B).vote, 1, true).votes;
    hide AddHeightVote, Votes1, Vals, NewHeightVoteSet;
    var n := WithBlock().(votes := Votes1());
    assert SeePolka(n, 0, B) == n.(validRound := 0, validBlock := Some(Block(7)), validBlockParts := Parts(true));
    assert PolRound(Votes1(), 0) == 0;
  }

  /** A node in round 0, locked in it, with nothing more to do there. */
  predicate LockedAtZero(n: Node)
  {
    && !n.halted && !n.canSign && n.outbox == [] && n.height == 1 && n.round == 0 && n.step == STEP_PRECOMMIT
    && n.lockedBlock == Some(Block(7)) && n.votes == Votes1()
  }

  lemma LockedZero()
    ensures LockedAtZero(LockedNode()) && !LockedNode().triggeredTimeoutPrecommit
  {
    hide Votes1, NewHeightVoteSet, Vals;
  }

  lemma SkipsToRoundOne(cfg: Config, n: Node)
    requires LockedAtZero(n.(votes := Votes1())) && !n.triggeredTimeoutPrecommit && n.votes.round == 0
    requires TwoThirdsMajority(n.votes, 1, Prevote) == Some(B) && TwoThirdsAny(n.votes, 1, Prevote)
    ensures AfterPrevote(cfg, n, 1) ==
            n.(votes := SetRound(n.votes, 2), round := 1, step := STEP_PROPOSE,
               proposal := None, proposalBlock := None, proposalBlockParts := None,
               timeouts := n.timeouts + {PROPOSE_TIMEOUT})
  {
    assert SeePolka(n, 1, B) == n;
    hide SeePolka, SetRound, EnterPrevote, EnterPrecommit, Votes1, TwoThirdsMajority, TwoThirdsAny;
  }

  /** A prevote of round 1 takes the node there, with its lock. */
  lemma Step3()
    ensures After(LockedNode(), PrevoteOf(1, 1, B)) == NextRound()
  {
    LockedZero();
    Votes2Facts();
    var n := LockedNode();
    assert NextRound() == n.(votes := Votes3(), round := 1, step := STEP_PROPOSE,
                             proposal := None, proposalBlock := None, proposalBlockParts := None,
                             timeouts := n.timeouts + {PROPOSE_TIMEOUT}) by {
      hide LockedNode, Votes3;
    }
    hide LockedNode, NextRound, Votes1, SetRound, AfterPrevote, AddHeightVote, TwoThirdsMajority, TwoThirdsAny;
    CountsPrevote(TwoValidators(), n, 1, 1, B);
    SkipsToRoundOne(TwoValidators(), n.(votes := Votes2()));
  }

  lemma Step4()
    ensures After(NextRound(), Timeout(PROPOSE_TIMEOUT)) == Prevoted()
  {
    hide Votes1, Votes3, Vals, NewHeightVoteSet;
  }

  /** A node in round 1, locked on the block in round 0. */
  predicate LockedBefore(n: Node)
  {
    && !n.halted && !n.canSign && n.outbox == [] && n.height == 1 && n.round == 1
    && n.lockedBlock == Some(Block(7)) && n.lockedRound == 0 && n.validRound == 0
    && n.proposal.None? && n.proposalBlock.None?
  }

  lemma LockedStates()
    ensures LockedBefore(Prevoted()) && Prevoted().step == STEP_PREVOTE && Prevoted().votes == Votes3()
    ensures Prevoted().proposalBlockParts.None?
    ensures LockedBefore(AwaitingPrevotes()) && AwaitingPrevotes().step == STEP_PREVOTE_WAIT
    ensures AwaitingPrevotes().votes == Votes4()
  {
    hide Votes1, Votes3, Votes4, NewHeightVoteSet;
  }

  lemma WaitsForPrevotes(cfg: Config, n: Node)
    requires LockedBefore(n) && n.step == STEP_PREVOTE && n.proposalBlockParts.None?
    requires TwoThirdsMajority(n.votes, 1, Prevote) == Some(B) && TwoThirdsAny(n.votes, 1, Prevote)
    ensures AfterPrevote(cfg, n, 1) ==
            n.(proposalBlockParts := Parts(false), step := STEP_PREVOTE_WAIT,
               timeouts := n.timeouts + {TimeoutInfo(1, 1, STEP_PREVOTE_WAIT)})
  {
    hide EnterNewRound, EnterPrecommit, EnterPrevote;
    assert SeePolka(n, 1, B) == n.(proposalBlockParts := Parts(false));
    hide SeePolka;
  }

  /** Another prevote: the majority is for a block the node does not have in this round, so it waits. */
  lemma Step5()
    ensures After(Prevoted(), PrevoteOf(2, 1, NilBlock)) == AwaitingPrevotes()
  {
    LockedStates();
    Votes4Facts();
    var n, n' := Prevoted(), AwaitingPrevotes();
    assert n' == n.(votes := Votes4(), step := STEP_PREVOTE_WAIT, proposalBlockParts := Parts(false),
                    timeouts := n.timeouts + {TimeoutInfo(1, 1, STEP_PREVOTE_WAIT)}) by {
      hide Votes1, Votes3, Votes4;
    }
    hide Prevoted, AwaitingPrevotes, Votes3, AfterPrevote, AddHeightVote;
    WaitsForPrevotes(TwoValidators(), n.(votes := Votes4()));
    CountsPrevote(TwoValidators(), n, 2, 1, NilBlock);
  }

  /** A prevote of the node's height that is counted. */
  lemma CountsPrevote(cfg: Config, n: Node, v: Address, round: int, b: BlockID)
    requires !n.halted && !n.canSign && n.outbox == [] && n.height == 1 && Count(n.votes, v, round, b).added
    ensures Handle(cfg, n, PrevoteOf(v, round, b), false) ==
        AfterPrevote(cfg, n.(votes := Count(n.votes, v, round, b).votes), round)
  {
    hide AfterPrevote, AddHeightVote;
  }

  lemma Relocks(cfg: Config, n: Node)
    requires LockedBefore(n) && n.step == STEP_PREVOTE_WAIT && n.votes.round == 2
    requires TwoThirdsMajority(n.votes, 1, Prevote) == Some(B)
    ensures EnterPrecommit(cfg, n, 1, 1) == n.(lockedRound := 1, step := STEP_PRECOMMIT)
  {
    PolRoundIsHighest(n.votes, 2, 1);
    hide PolRound;
  }

  /** The wait is over: the node relocks in round 1, and its valid block stays that of round 0. */
  lemma Step6()
    ensures After(AwaitingPrevotes(), Timeout(PREVOTE_TIMEOUT)) == RelockedNode()
  {
    hide AwaitingPrevotes, Votes1, Votes3, Votes4, TwoThirdsMajority, EnterPrecommit, Handle;
    LockedStates();
    Votes4Facts();
    var n := AwaitingPrevotes();
    TimeoutPrecommits(TwoValidators(), n, PREVOTE_TIMEOUT);
    Relocks(TwoValidators(), n);
  }

  lemma TimeoutPrecommits(cfg: Config, n: Node, ti: TimeoutInfo)
    requires !n.halted && !n.canSign && n.outbox == []
    requires ti.height == n.height && ti.round == n.round && n.step <= ti.step == STEP_PREVOTE_WAIT
    ensures Handle(cfg, n, Timeout(ti), false) == EnterPrecommit(cfg, n, n.height, n.round)
  {
    hide EnterPrecommit, EnterNewRound, EnterPropose, EnterPrevote;
  }

  /** Seven events from the start of a height; every timeout was scheduled before it fires. */
  lemma LockPassesValidInRun()
    ensures var n1 := After(InitNode(TwoValidators(), 0), ProposalMsg(Proposal(1, 0, -1, B), true));
            var n2 := After(n1, BlockPartMsg(1, PartsComplete(Block(7))));
            var n3 := After(n2, PrevoteOf(1, 0, B));
            var n4 := After(n3, PrevoteOf(1, 1, B));
            var n5 := After(n4, Timeout(PROPOSE_TIMEOUT));
            var n6 := After(n5, PrevoteOf(2, 1, NilBlock));
            var n7 := After(n6, Timeout(PREVOTE_TIMEOUT));
            && Level(n1) && Level(n2) && Level(n3) && Level(n4) && Level(n5) && Level(n6)
            && !Level(n7) && !n7.halted && n7.height == 1
            && PROPOSE_TIMEOUT in n4.timeouts && PREVOTE_TIMEOUT in n6.timeouts
  {
    Step0();
    Step1();
    Step2();
    Step3();
    Step4();
    Step5();
    Step6();
    RoundsOfStates();
    hide After, Proposed, WithBlock, LockedNode, NextRound, Prevoted, AwaitingPrevotes, RelockedNode;
  }

  lemma RoundsOfStates()
    ensures Level(Start()) && Level(Proposed()) && Level(WithBlock()) && Level(LockedNode()) && Level(NextRound())
    ensures Level(Prevoted()) && Level(AwaitingPrevotes()) && !Level(RelockedNode()) && !RelockedNode().halted
    ensures RelockedNode().height == 1
    ensures PROPOSE_TIMEOUT in NextRound().timeouts && PREVOTE_TIMEOUT in AwaitingPrevotes().timeouts
  {
    hide Votes1, Votes3, Votes4, NewHeightVoteSet;
  }
}
