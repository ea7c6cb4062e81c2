/**
 The `State` object: the consensus state machine as it runs, updating its fields in place.

 Every method is proved to change the object exactly as the transition function of the same name
 changes the node value `View()`. The safety theorems of Network.dfy therefore speak about these
 methods.
 */
module ConsensusState {
  import opened Wrappers
  import opened Quorum
  import opened VoteSets
  import opened Consensus
  import opened LockHistory
  import opened Ballots

  class State {
    const cfg: Config
    const self: Address

    var canSign: bool
    var halted: bool
    var chain: Chain
    var saved: Option<Block>
    var height: int
    var round: int
    var step: int
    var commitRound: int
    var validators: ValidatorSet
    var proposal: Option<Proposal>
    var proposalBlock: Option<Block>
    var proposalBlockParts: Option<PartSet>
    var lockedRound: int
    var lockedBlock: Option<Block>
    var lockedBlockParts: Option<PartSet>
    var validRound: int
    var validBlock: Option<Block>
    var validBlockParts: Option<PartSet>
    var votes: HeightVoteSet
    var lastCommit: Option<VoteSet>
    var triggeredTimeoutPrecommit: bool
    var timeouts: set<TimeoutInfo>
    var outbox: seq<Vote>

    function View(): Node
      reads this
    {
      Node(self, canSign, halted, chain, saved, height, round, step, commitRound, validators,
           proposal, proposalBlock, proposalBlockParts, lockedRound, lockedBlock, lockedBlockParts,
           validRound, validBlock, validBlockParts, votes, lastCommit, triggeredTimeoutPrecommit, timeouts, outbox)
    }

    constructor (cfg: Config, self: Address)
      ensures this.cfg == cfg && View() == InitNode(cfg, self)
    {
      this.cfg, this.self := cfg, self;
      canSign, halted, chain, saved := false, false, [], None;
      height, round, step, commitRound := cfg.initialHeight, 0, STEP_NEW_HEIGHT, -1;
      validators := cfg.validators([]);
      proposal, proposalBlock, proposalBlockParts := None, None, None;
      lockedRound, lockedBlock, lockedBlockParts := -1, None, None;
      validRound, validBlock, validBlockParts := -1, None, None;
      votes := NewHeightVoteSet(cfg.initialHeight, cfg.validators([]));
      lastCommit, triggeredTimeoutPrecommit := None, false;
      timeouts := {TimeoutInfo(cfg.initialHeight, 0, STEP_NEW_HEIGHT)};
      outbox := [];
    }

    method ScheduleTimeout(height: int, round: int, step: int)
      modifies this
      ensures View() == Schedule(old(View()), height, round, step)
    {
      timeouts := timeouts + {TimeoutInfo(height, round, step)};
    }

    method ClearProposal()
      modifies this
      ensures View() == old(View()).(proposal := None, proposalBlock := None, proposalBlockParts := None)
    {
      proposal, proposalBlock, proposalBlockParts := None, None, None;
    }

    method ClearLock()
      modifies this
      ensures View() == Unlock(old(View()))
    {
      lockedRound, lockedBlock, lockedBlockParts := -1, None, None;
    }

    method SignVote(kind: VoteType, blockID: BlockID)
      modifies this
      ensures View() == SignAddVote(old(View()), kind, blockID)
    {
      if !canSign || self !in Addresses(validators) { return; }
      outbox := outbox + [Vote(self, height, round, kind, blockID)];
    }

    method EnterNewRoundStep(height: int, round: int)
      modifies this
      ensures View() == EnterNewRound(cfg, old(View()), height, round)
    {
      if halted || this.height != height || round < this.round || (this.round == round && step != STEP_NEW_HEIGHT) {
        return;
      }
      this.round, step := round, STEP_NEW_ROUND;
      if round != 0 {
        ClearProposal();
      }
      StartRound(round);
    }

    method StartRound(round: int)
      modifies this
      ensures View() == OpenRound(cfg, old(View()), round)
    {
      hide SetRound, EnterPropose;
      if votes.round != 0 && round + 1 < votes.round - 1 {
        halted := true;
        return;
      }
      votes := SetRound(votes, round + 1);
      triggeredTimeoutPrecommit := false;
      if cfg.waitForTxs && round == 0 && !cfg.needProof(chain) {
        if cfg.emptyBlocksInterval {
          ScheduleTimeout(height, round, STEP_NEW_ROUND);
        }
      } else {
        EnterProposeStep(height, round);
      }
    }

    method EnterProposeStep(height: int, round: int)
      modifies this
      ensures View() == EnterPropose(cfg, old(View()), height, round)
    {
      if halted || this.height != height || round < this.round || (this.round == round && STEP_PROPOSE <= step) {
        return;
      }
      ScheduleTimeout(height, round, STEP_PROPOSE);
      this.round, step := round, STEP_PROPOSE;
      if IsProposalComplete(View()) {
        EnterPrevoteStep(height, this.round);
      }
    }

    method EnterPrevoteStep(height: int, round: int)
      modifies this
      ensures View() == EnterPrevote(cfg, old(View()), height, round)
    {
      if halted || this.height != height || round < this.round || (this.round == round && STEP_PREVOTE <= step) {
        return;
      }
      SignPrevote();
      this.round, step := round, STEP_PREVOTE;
    }

    /** Prevote the locked block, else the valid proposal block, else nil. */
    method SignPrevote()
      modifies this
      ensures View() == DoPrevote(cfg, old(View()))
      ensures Prevoted(cfg, old(View()), View())
    {
      DoPrevoteVotes(cfg, View());
      if lockedBlock.Some? {
        SignVote(Prevote, BlockID(lockedBlock.value.hash, Header(lockedBlockParts)));
        return;
      }
      if proposalBlock.None? {
        SignVote(Prevote, NilBlock);
        return;
      }
      if !cfg.valid(chain, proposalBlock.value) {
        SignVote(Prevote, NilBlock);
        return;
      }
      SignVote(Prevote, BlockID(proposalBlock.value.hash, Header(proposalBlockParts)));
    }

    method EnterPrevoteWaitStep(height: int, round: int)
      modifies this
      ensures View() == EnterPrevoteWait(old(View()), height, round)
    {
      if halted || this.height != height || round < this.round || (this.round == round && STEP_PREVOTE_WAIT <= step) {
        return;
      }
      if !TwoThirdsAny(votes, round, Prevote) {
        halted := true;
        return;
      }
      ScheduleTimeout(height, round, STEP_PREVOTE_WAIT);
      this.round, step := round, STEP_PREVOTE_WAIT;
    }

    method EnterPrecommitStep(height: int, round: int)
      modifies this
      ensures View() == EnterPrecommit(cfg, old(View()), height, round)
    {
      if halted || this.height != height || round < this.round || (this.round == round && STEP_PRECOMMIT <= step) {
        return;
      }
      var polka := TwoThirdsMajority(votes, round, Prevote);
      if polka.None? {
        SignVote(Precommit, NilBlock);
      } else {
        SignPrecommit(round, polka.value);
      }
      this.round, step := round, STEP_PRECOMMIT;
    }

    /** Relock, lock, or unlock as the prevote majority demands, and precommit. */
    method SignPrecommit(round: int, polka: BlockID)
      modifies this
      ensures View() == PrecommitPolka(cfg, old(View()), round, polka)
    {
      hide PolRound, SignAddVote;
      var polRound := FindPolRound();
      if polRound < round {
        halted := true;
        return;
      }
      if polka.NilBlock? {
        if lockedBlock.Some? {
          ClearLock();
        }
        SignVote(Precommit, NilBlock);
        return;
      }
      if HashesTo(lockedBlock, polka) {
        lockedRound := round;
        SignVote(Precommit, polka);
        return;
      }
      if HashesTo(proposalBlock, polka) {
        if !cfg.valid(chain, proposalBlock.value) {
          halted := true;
          return;
        }
        lockedRound, lockedBlock, lockedBlockParts := round, proposalBlock, proposalBlockParts;
        SignVote(Precommit, polka);
        return;
      }
      UnlockForMissingBlock(polka);
    }

    method UnlockForMissingBlock(polka: BlockID)
      requires polka.BlockID?
      modifies this
      ensures View() == UnlockAndPrecommitNil(old(View()), polka)
    {
      ClearLock();
      if !HasHeader(proposalBlockParts, polka.parts) {
        proposalBlock := None;
        proposalBlockParts := Some(PartSet(polka.parts, false));
      }
      SignVote(Precommit, NilBlock);
    }

    /** The last tracked round whose prevotes have a majority, found by counting down. */
    method FindPolRound() returns (r: int)
      ensures r == PolRound(votes, votes.round)
    {
      r := votes.round;
      while r >= 0
        invariant -1 <= r || votes.round < -1
        invariant PolRound(votes, votes.round) == PolRound(votes, r)
      {
        if TwoThirdsMajority(votes, r, Prevote).Some? { return; }
        r := r - 1;
      }
      r := -1;
    }

    method EnterPrecommitWaitStep(height: int, round: int)
      modifies this
      ensures View() == EnterPrecommitWait(old(View()), height, round)
    {
      if halted || this.height != height || round < this.round || (this.round == round && triggeredTimeoutPrecommit) {
        return;
      }
      if !TwoThirdsAny(votes, round, Precommit) {
        halted := true;
        return;
      }
      ScheduleTimeout(height, round, STEP_PRECOMMIT_WAIT);
      triggeredTimeoutPrecommit := true;
    }

    method EnterCommitStep(height: int, commitRound: int)
      modifies this
      ensures View() == EnterCommit(cfg, old(View()), height, commitRound)
    {
      hide TryFinalizeCommit, CommitProposal;
      if halted || this.height != height || STEP_COMMIT <= step { return; }
      var maj := TwoThirdsMajority(votes, commitRound, Precommit);
      if maj.None? {
        halted := true;
        return;
      }
      SetCommitProposal(maj.value);
      step := STEP_COMMIT;
      this.commitRound := commitRound;
      TryFinalize(height);
    }

    method SetCommitProposal(maj: BlockID)
      modifies this
      ensures View() == CommitProposal(old(View()), maj)
    {
      if HashesTo(lockedBlock, maj) {
        proposalBlock, proposalBlockParts := lockedBlock, lockedBlockParts;
      }
      if !HashesTo(proposalBlock, maj) && !HasHeader(proposalBlockParts, PartsOf(maj)) {
        proposalBlock := None;
        proposalBlockParts := Some(PartSet(PartsOf(maj), false));
      }
    }

    method TryFinalize(height: int)
      modifies this
      ensures View() == TryFinalizeCommit(cfg, old(View()), height)
    {
      if halted { return; }
      if this.height != height {
        halted := true;
        return;
      }
      var maj := TwoThirdsMajority(votes, commitRound, Precommit);
      if maj.None? || maj.value.NilBlock? { return; }
      if !HashesTo(proposalBlock, maj.value) { return; }
      Finalize(height);
    }

    method Finalize(height: int)
      modifies this
      ensures View() == FinalizeCommit(cfg, old(View()), height)
    {
      if this.height != height || step != STEP_COMMIT { return; }
      var maj := TwoThirdsMajority(votes, commitRound, Precommit);
      if maj.None? || maj.value.NilBlock? || !HasHeader(proposalBlockParts, maj.value.parts)
         || !HashesTo(proposalBlock, maj.value) || !cfg.valid(chain, proposalBlock.value)
      {
        halted := true;
        return;
      }
      var block := proposalBlock.value;
      if saved.None? {
        saved := Some(block);
      }
      if !cfg.applies(chain, block) { return; }
      UpdateTo(chain + [block]);
      ScheduleTimeout(this.height, 0, STEP_NEW_HEIGHT);
    }

    method UpdateTo(chain: Chain)
      modifies this
      ensures View() == UpdateToState(cfg, old(View()), chain)
    {
      hide GetVoteSet, NewHeightVoteSet;
      RecordCommit(chain);
      MoveToHeight();
      ResetVotes();
      ClearProposal();
      ClearLock();
      ClearValid();
    }

    /** Remember the commit and the chain it extends. */
    method RecordCommit(chain: Chain)
      modifies this
      ensures View() == old(View()).(chain := chain, saved := None,
                  lastCommit := GetVoteSet(old(votes), old(commitRound), Precommit))
    {
      hide GetVoteSet;
      lastCommit := GetVoteSet(votes, commitRound, Precommit);
      this.chain, saved := chain, None;
    }

    method MoveToHeight()
      modifies this
      ensures View() == old(View()).(height := cfg.initialHeight + |old(chain)|, round := 0, step := STEP_NEW_HEIGHT,
                                     validators := cfg.validators(old(chain)))
    {
      height, round, step := cfg.initialHeight + |chain|, 0, STEP_NEW_HEIGHT;
      validators := cfg.validators(chain);
    }

    method ClearValid()
      modifies this
      ensures View() == old(View()).(validRound := -1, validBlock := None, validBlockParts := None)
    {
      validRound, validBlock, validBlockParts := -1, None, None;
    }

    method ResetVotes()
      modifies this
      ensures View() == old(View()).(votes := NewHeightVoteSet(old(height), old(validators)),
                  commitRound := -1, triggeredTimeoutPrecommit := false)
    {
      votes := NewHeightVoteSet(height, validators);
      commitRound := -1;
      triggeredTimeoutPrecommit := false;
    }

    method ReceiveProposal(p: Proposal, sigOk: bool)
      modifies this
      ensures View() == SetProposal(old(View()), p, sigOk)
    {
      if proposal.Some? { return; }
      if p.height != height || p.round != round { return; }
      if p.polRound < -1 || (p.polRound >= 0 && p.polRound >= p.round) { return; }
      if !sigOk { return; }
      proposal := Some(p);
      if proposalBlockParts.None? {
        proposalBlockParts := Some(PartSet(PartsOf(p.blockID), false));
      }
    }

    method ReceiveBlockPart(height: int, outcome: PartOutcome)
      modifies this
      ensures View() == AddProposalBlockPart(cfg, old(View()), height, outcome)
    {
      if this.height != height || proposalBlockParts.None? || proposalBlockParts.value.complete { return; }
      if outcome.PartRefused? || outcome.PartStored? { return; }
      proposalBlockParts := Some(proposalBlockParts.value.(complete := true));
      if outcome.PartsComplete? {
        CompleteBlock(outcome.block);
      }
    }

    method CompleteBlock(block: Block)
      modifies this
      ensures View() == CompleteProposalBlock(cfg, old(View()), block)
    {
      hide AfterProposalBlock, TwoThirdsMajority;
      proposalBlock := Some(block);
      var polka := TwoThirdsMajority(votes, round, Prevote);
      if polka.Some? && polka.value.BlockID? && validRound < round {
        if HashesTo(proposalBlock, polka.value) {
          ProposalIsValid();
        }
      }
      BlockCompleted(polka.Some?);
    }

    method ProposalIsValid()
      modifies this
      ensures View() == old(View()).(validRound := old(round),
                  validBlock := old(proposalBlock), validBlockParts := old(proposalBlockParts))
    {
      validRound, validBlock, validBlockParts := round, proposalBlock, proposalBlockParts;
    }

    method BlockCompleted(hasTwoThirds: bool)
      modifies this
      ensures View() == AfterProposalBlock(cfg, old(View()), hasTwoThirds)
    {
      hide EnterPrevote, EnterPrecommit, TryFinalizeCommit;
      if step <= STEP_PROPOSE && IsProposalComplete(View()) {
        var h := height;
        EnterPrevoteStep(h, round);
        if hasTwoThirds {
          EnterPrecommitStep(h, round);
        }
      } else if step == STEP_COMMIT {
        TryFinalize(height);
      }
    }

    method SeePrevoteMajority(round: int, polka: BlockID)
      modifies this
      ensures View() == SeePolka(old(View()), round, polka)
    {
      DropOldLock(round, polka);
      SetValidBlock(round, polka);
    }

    method DropOldLock(round: int, polka: BlockID)
      modifies this
      ensures View() == UnlockOld(old(View()), round, polka)
    {
      if lockedBlock.Some? && lockedRound < round && round <= this.round && !HashesTo(lockedBlock, polka) {
        ClearLock();
      }
    }

    method SetValidBlock(round: int, polka: BlockID)
      modifies this
      ensures View() == UpdateValid(old(View()), round, polka)
    {
      if polka.BlockID? && validRound < round && round == this.round {
        if HashesTo(proposalBlock, polka) {
          ProposalIsValid();
        } else {
          proposalBlock := None;
        }
        if !HasHeader(proposalBlockParts, polka.parts) {
          proposalBlockParts := Some(PartSet(polka.parts, false));
        }
      }
    }

    method PrevoteAdded(round: int)
      modifies this
      ensures View() == AfterPrevote(cfg, old(View()), round)
    {
      hide EnterNewRound, EnterPrecommit, EnterPrevote, EnterPrevoteWait, SeePolka;
      var polka := TwoThirdsMajority(votes, round, Prevote);
      if polka.Some? {
        SeePrevoteMajority(round, polka.value);
      }
      if this.round < round && TwoThirdsAny(votes, round, Prevote) {
        EnterNewRoundStep(height, round);
      } else if this.round == round && STEP_PREVOTE <= step {
        if polka.Some? && (IsProposalComplete(View()) || polka.value.NilBlock?) {
          EnterPrecommitStep(height, round);
        } else if TwoThirdsAny(votes, round, Prevote) {
          EnterPrevoteWaitStep(height, round);
        }
      } else if proposal.Some? && 0 <= proposal.value.polRound == round {
        if IsProposalComplete(View()) {
          EnterPrevoteStep(height, this.round);
        }
      }
    }

    method PrecommitAdded(round: int)
      modifies this
      ensures View() == AfterPrecommit(cfg, old(View()), round)
    {
      hide EnterNewRound, EnterPrecommit, EnterCommit, EnterPrecommitWait;
      var h := height;
      var precommits := GetVoteSet(votes, round, Precommit);
      if precommits.None? { return; }
      if precommits.value.maj23.Some? {
        EnterNewRoundStep(h, round);
        EnterPrecommitStep(h, round);
        if precommits.value.maj23.value.BlockID? {
          EnterCommitStep(h, round);
          if cfg.skipTimeoutCommit && HasAll(precommits.value) {
            EnterNewRoundStep(height, 0);
          }
        } else {
          EnterPrecommitWaitStep(h, round);
        }
      } else if this.round <= round && HasTwoThirdsAny(precommits.value) {
        EnterNewRoundStep(h, round);
        EnterPrecommitWaitStep(h, round);
      }
    }

    method ReceiveVote(vote: Vote, peer: Peer, sigOk: bool)
      modifies this
      ensures View() == AddVoteMsg(cfg, old(View()), vote, peer, sigOk)
    {
      hide AfterPrevote, AfterPrecommit, EnterNewRound, AddHeightVote, AddVote;
      if vote.height + 1 == height && vote.kind.Precommit? {
        if step != STEP_NEW_HEIGHT { return; }
        if lastCommit.None? {
          halted := true;
          return;
        }
        var r := AddVote(lastCommit.value, vote, sigOk);
        lastCommit := Some(r.votes);
        if r.added && cfg.skipTimeoutCommit && HasAll(r.votes) {
          EnterNewRoundStep(height, 0);
        }
        return;
      }
      if vote.height != height { return; }
      var r := AddHeightVote(votes, vote, peer, sigOk);
      votes := r.votes;
      if !r.added { return; }
      if vote.kind.Prevote? {
        PrevoteAdded(vote.round);
      } else {
        PrecommitAdded(vote.round);
      }
    }

    method ReceiveTimeout(ti: TimeoutInfo)
      modifies this
      ensures View() == HandleTimeout(cfg, old(View()), ti)
    {
      hide EnterNewRound, EnterPropose, EnterPrevote, EnterPrecommit;
      if ti.height != height || ti.round < round || (ti.round == round && ti.step < step) { return; }
      if ti.step == STEP_NEW_HEIGHT {
        EnterNewRoundStep(ti.height, 0);
      } else if ti.step == STEP_NEW_ROUND {
        EnterProposeStep(ti.height, 0);
      } else if ti.step == STEP_PROPOSE {
        EnterPrevoteStep(ti.height, ti.round);
      } else if ti.step == STEP_PREVOTE_WAIT {
        EnterPrecommitStep(ti.height, ti.round);
      } else if ti.step == STEP_PRECOMMIT_WAIT {
        EnterPrecommitStep(ti.height, ti.round);
        EnterNewRoundStep(ti.height, ti.round + 1);
      } else {
        halted := true;
      }
    }

    method TransactionsAvailable()
      modifies this
      ensures View() == HandleTxsAvailable(cfg, old(View()))
    {
      if round != 0 { return; }
      if step == STEP_NEW_HEIGHT {
        if !cfg.needProof(chain) {
          ScheduleTimeout(height, 0, STEP_NEW_ROUND);
        }
      } else if step == STEP_NEW_ROUND {
        EnterProposeStep(height, 0);
      }
    }

    /**
     One iteration of the receive routine. From the states of a run it leaves the node with the votes that the
     prevote and the precommit step demand.
     */
    method Receive(event: Event, canSign: bool)
      modifies this
      ensures View() == Handle(cfg, old(View()), event, canSign)
      ensures !old(halted) && Placed(cfg, old(View())) && Timely(old(View()), event) ==>
                VotesOnMoving(cfg, old(View()).(outbox := [], canSign := canSign), View())
    {
      VotesOnReceive(cfg, View(), event, canSign);
      hide Placed, Timely, VotesOnMoving;
      hide HandleTxsAvailable, SetProposal, AddProposalBlockPart, AddVoteMsg, HandleTimeout, SetHeightPeerMaj23;
      outbox := [];
      if halted { return; }
      this.canSign := canSign;
      match event
      case TxsAvailable => TransactionsAvailable();
      case ProposalMsg(p, sigOk) => ReceiveProposal(p, sigOk);
      case BlockPartMsg(height, outcome) => ReceiveBlockPart(height, outcome);
      case VoteMsg(vote, peer, sigOk) => ReceiveVote(vote, peer, sigOk);
      case PeerMaj23Msg(round, kind, peer, b) => votes := SetHeightPeerMaj23(votes, round, kind, peer, b);
      case Timeout(ti) => ReceiveTimeout(ti);
    }
  }
}
