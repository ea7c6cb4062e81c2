/**
 Progress of one node: whatever the event, (Height, Round, Step) never goes back, the chain only grows,
 and the valid round never decreases within a height.
 */
module Progress {
  import opened Wrappers
  import opened VoteSets
  import opened Consensus

  predicate WellPlaced(cfg: Config, n: Node)
  {
    n.height == cfg.initialHeight + |n.chain|
  }

  predicate Forward(n: Node, n': Node)
  {
    && n'.self == n.self
    && n.chain <= n'.chain
    && CompareHRS(n.height, n.round, n.step, n'.height, n'.round, n'.step) <= 0
    && (n.height == n'.height ==> n.validRound <= n'.validRound && n.chain == n'.chain)
    && n.timeouts <= n'.timeouts
    && n.outbox <= n'.outbox
  }

  /** `n'` is a later, well placed state of `n`. */
  predicate Later(cfg: Config, n: Node, n': Node)
  {
    Forward(n, n') && WellPlaced(cfg, n')
  }

  lemma LaterTrans(cfg: Config, a: Node, b: Node, c: Node)
    requires Later(cfg, a, b) && Later(cfg, b, c)
    ensures Later(cfg, a, c)
  {
    assert a.chain <= c.chain;
  }

  lemma EnterPrevoteLater(cfg: Config, n: Node, height: int, round: int)
    requires WellPlaced(cfg, n)
    ensures Later(cfg, n, EnterPrevote(cfg, n, height, round))
  {
  }

  lemma EnterProposeLater(cfg: Config, n: Node, height: int, round: int)
    requires WellPlaced(cfg, n)
    ensures Later(cfg, n, EnterPropose(cfg, n, height, round))
  {
    hide EnterPrevote;
    if n.halted || n.height != height || round < n.round || (n.round == round && STEP_PROPOSE <= n.step) {
      return;
    }
    var n2 := Schedule(n, height, round, STEP_PROPOSE).(round := round, step := STEP_PROPOSE);
    if IsProposalComplete(n2) {
      EnterPrevoteLater(cfg, n2, height, n2.round);
      LaterTrans(cfg, n, n2, EnterPrevote(cfg, n2, height, n2.round));
    }
  }

  lemma OpenRoundLater(cfg: Config, n: Node, round: int)
    requires WellPlaced(cfg, n)
    ensures Later(cfg, n, OpenRound(cfg, n, round))
  {
    hide EnterPropose, SetRound;
    var n1 := n.(votes := SetRound(n.votes, round + 1), triggeredTimeoutPrecommit := false);
    EnterProposeLater(cfg, n1, n.height, round);
    LaterTrans(cfg, n, n1, EnterPropose(cfg, n1, n.height, round));
  }

  lemma EnterNewRoundLater(cfg: Config, n: Node, height: int, round: int)
    requires WellPlaced(cfg, n)
    ensures Later(cfg, n, EnterNewRound(cfg, n, height, round))
  {
    hide OpenRound;
    if n.halted || n.height != height || round < n.round || (n.round == round && n.step != STEP_NEW_HEIGHT) {
      return;
    }
    var n1 := n.(round := round, step := STEP_NEW_ROUND);
    var n2 := if round == 0 then n1 else n1.(proposal := None, proposalBlock := None, proposalBlockParts := None);
    OpenRoundLater(cfg, n2, round);
    LaterTrans(cfg, n, n2, OpenRound(cfg, n2, round));
  }

  /** Everything but the lock, the proposal block and the votes signed. */
  predicate OnlyPrecommits(n: Node, n': Node)
  {
    && n'.self == n.self && n'.chain == n.chain && n'.height == n.height && n'.round == n.round
    && n'.validRound == n.validRound && n'.timeouts == n.timeouts && n.outbox <= n'.outbox
  }

  lemma SignFrame(n: Node, kind: VoteType, b: BlockID)
    ensures OnlyPrecommits(n, SignAddVote(n, kind, b))
  {
  }

  lemma PrecommitPolkaFrame(cfg: Config, n: Node, round: int, polka: BlockID)
    ensures OnlyPrecommits(n, PrecommitPolka(cfg, n, round, polka))
  {
    hide PolRound, SignAddVote;
    SignFrame(n, Precommit, NilBlock);
    SignFrame(n.(lockedRound := round), Precommit, polka);
    SignFrame(n.(lockedRound := round, lockedBlock := n.proposalBlock, lockedBlockParts := n.proposalBlockParts),
        Precommit, polka);
    SignFrame(Unlock(n), Precommit, NilBlock);
    SignFrame(Unlock(n).(proposalBlock := None, proposalBlockParts := Some(PartSet(PartsOf(polka), false))),
        Precommit, NilBlock);
  }

  lemma EnterPrecommitLater(cfg: Config, n: Node, height: int, round: int)
    requires WellPlaced(cfg, n)
    ensures Later(cfg, n, EnterPrecommit(cfg, n, height, round))
  {
    hide PrecommitPolka;
    var polka := TwoThirdsMajority(n.votes, round, Prevote);
    if polka.Some? {
      PrecommitPolkaFrame(cfg, n, round, polka.value);
    }
  }

  lemma CommitBlockLater(cfg: Config, n: Node, block: Block)
    requires WellPlaced(cfg, n)
    ensures Later(cfg, n, CommitBlock(cfg, n, block))
  {
  }

  lemma TryFinalizeCommitLater(cfg: Config, n: Node, height: int)
    requires WellPlaced(cfg, n)
    ensures Later(cfg, n, TryFinalizeCommit(cfg, n, height))
  {
    hide CommitBlock;
    if n.proposalBlock.Some? {
      var n1 := if n.saved.None? then n.(saved := n.proposalBlock) else n;
      CommitBlockLater(cfg, n1, n.proposalBlock.value);
      LaterTrans(cfg, n, n1, CommitBlock(cfg, n1, n.proposalBlock.value));
    }
  }

  lemma EnterCommitLater(cfg: Config, n: Node, height: int, commitRound: int)
    requires WellPlaced(cfg, n)
    ensures Later(cfg, n, EnterCommit(cfg, n, height, commitRound))
  {
    hide TryFinalizeCommit;
    var maj := TwoThirdsMajority(n.votes, commitRound, Precommit);
    if n.halted || n.height != height || STEP_COMMIT <= n.step || maj.None? {
      return;
    }
    var n3 := CommitProposal(n, maj.value).(step := STEP_COMMIT, commitRound := commitRound);
    TryFinalizeCommitLater(cfg, n3, height);
    LaterTrans(cfg, n, n3, TryFinalizeCommit(cfg, n3, height));
  }

  lemma SeePolkaLater(cfg: Config, n: Node, round: int, polka: BlockID)
    requires WellPlaced(cfg, n)
    ensures Later(cfg, n, SeePolka(n, round, polka))
  {
    var n1 := UnlockOld(n, round, polka);
    assert Later(cfg, n, n1);
    hide UnlockOld;
    assert Later(cfg, n1, UpdateValid(n1, round, polka));
    LaterTrans(cfg, n, n1, UpdateValid(n1, round, polka));
  }

  lemma AfterPrevoteLater(cfg: Config, n: Node, round: int)
    requires WellPlaced(cfg, n)
    ensures Later(cfg, n, AfterPrevote(cfg, n, round))
  {
    hide SeePolka, EnterNewRound, EnterPrecommit, EnterPrevote;
    var polka := TwoThirdsMajority(n.votes, round, Prevote);
    var n1 := if polka.Some? then SeePolka(n, round, polka.value) else n;
    if polka.Some? {
      SeePolkaLater(cfg, n, round, polka.value);
    }
    EnterNewRoundLater(cfg, n1, n1.height, round);
    LaterTrans(cfg, n, n1, EnterNewRound(cfg, n1, n1.height, round));
    EnterPrecommitLater(cfg, n1, n1.height, round);
    LaterTrans(cfg, n, n1, EnterPrecommit(cfg, n1, n1.height, round));
    LaterTrans(cfg, n, n1, EnterPrevoteWait(n1, n1.height, round));
    EnterPrevoteLater(cfg, n1, n1.height, n1.round);
    LaterTrans(cfg, n, n1, EnterPrevote(cfg, n1, n1.height, n1.round));
  }

  lemma AfterPrecommitLater(cfg: Config, n: Node, round: int)
    requires WellPlaced(cfg, n)
    ensures Later(cfg, n, AfterPrecommit(cfg, n, round))
  {
    hide EnterNewRound, EnterPrecommit, EnterCommit;
    var h := n.height;
    var n1 := EnterNewRound(cfg, n, h, round);
    EnterNewRoundLater(cfg, n, h, round);
    LaterTrans(cfg, n, n1, EnterPrecommitWait(n1, h, round));
    var n2 := EnterPrecommit(cfg, n1, h, round);
    EnterPrecommitLater(cfg, n1, h, round);
    LaterTrans(cfg, n, n1, n2);
    LaterTrans(cfg, n, n2, EnterPrecommitWait(n2, h, round));
    var n3 := EnterCommit(cfg, n2, h, round);
    EnterCommitLater(cfg, n2, h, round);
    LaterTrans(cfg, n, n2, n3);
    EnterNewRoundLater(cfg, n3, n3.height, 0);
    LaterTrans(cfg, n, n3, EnterNewRound(cfg, n3, n3.height, 0));
  }

  lemma AddVoteMsgLater(cfg: Config, n: Node, vote: Vote, peer: Peer, sigOk: bool)
    requires WellPlaced(cfg, n)
    ensures Later(cfg, n, AddVoteMsg(cfg, n, vote, peer, sigOk))
  {
    hide EnterNewRound, AfterPrevote, AfterPrecommit, AddHeightVote, AddVote;
    if vote.height + 1 == n.height && vote.kind.Precommit? {
      if n.lastCommit.Some? {
        var n1 := n.(lastCommit := Some(AddVote(n.lastCommit.value, vote, sigOk).votes));
        EnterNewRoundLater(cfg, n1, n1.height, 0);
        LaterTrans(cfg, n, n1, EnterNewRound(cfg, n1, n1.height, 0));
      }
    } else {
      var n1 := n.(votes := AddHeightVote(n.votes, vote, peer, sigOk).votes);
      AfterPrevoteLater(cfg, n1, vote.round);
      LaterTrans(cfg, n, n1, AfterPrevote(cfg, n1, vote.round));
      AfterPrecommitLater(cfg, n1, vote.round);
      LaterTrans(cfg, n, n1, AfterPrecommit(cfg, n1, vote.round));
    }
  }

  lemma CompleteProposalBlockLater(cfg: Config, n: Node, block: Block)
    requires WellPlaced(cfg, n)
    ensures Later(cfg, n, CompleteProposalBlock(cfg, n, block))
  {
    hide EnterPrevote, EnterPrecommit, TryFinalizeCommit;
    var n1 := n.(proposalBlock := Some(block));
    var polka := TwoThirdsMajority(n1.votes, n1.round, Prevote);
    var n2 :=
      if polka.Some? && polka.value.BlockID? && n1.validRound < n1.round && HashesTo(n1.proposalBlock, polka.value) then
        n1.(validRound := n1.round, validBlock := n1.proposalBlock, validBlockParts := n1.proposalBlockParts)
      else n1;
    var n3 := EnterPrevote(cfg, n2, n2.height, n2.round);
    EnterPrevoteLater(cfg, n2, n2.height, n2.round);
    LaterTrans(cfg, n, n2, n3);
    EnterPrecommitLater(cfg, n3, n2.height, n3.round);
    LaterTrans(cfg, n, n3, EnterPrecommit(cfg, n3, n2.height, n3.round));
    TryFinalizeCommitLater(cfg, n2, n2.height);
    LaterTrans(cfg, n, n2, TryFinalizeCommit(cfg, n2, n2.height));
  }

  lemma HandleTimeoutLater(cfg: Config, n: Node, ti: TimeoutInfo)
    requires WellPlaced(cfg, n)
    ensures Later(cfg, n, HandleTimeout(cfg, n, ti))
  {
    hide EnterNewRound, EnterPropose, EnterPrevote, EnterPrecommit;
    EnterNewRoundLater(cfg, n, ti.height, 0);
    EnterProposeLater(cfg, n, ti.height, 0);
    EnterPrevoteLater(cfg, n, ti.height, ti.round);
    var n1 := EnterPrecommit(cfg, n, ti.height, ti.round);
    EnterPrecommitLater(cfg, n, ti.height, ti.round);
    EnterNewRoundLater(cfg, n1, ti.height, ti.round + 1);
    LaterTrans(cfg, n, n1, EnterNewRound(cfg, n1, ti.height, ti.round + 1));
  }

  /** No event, not even a timeout that was never scheduled, moves (Height, Round, Step) backwards. */
  lemma HandleEventLater(cfg: Config, n: Node, event: Event)
    requires WellPlaced(cfg, n)
    ensures Later(cfg, n, HandleEvent(cfg, n, event))
  {
    hide EnterPropose, CompleteProposalBlock, AddVoteMsg, HandleTimeout, SetHeightPeerMaj23;
    match event
    case TxsAvailable => EnterProposeLater(cfg, n, n.height, 0);
    case ProposalMsg(p, sigOk) =>
    case BlockPartMsg(height, outcome) =>
      if outcome.PartsComplete? && n.proposalBlockParts.Some? {
        var n1 := n.(proposalBlockParts := Some(n.proposalBlockParts.value.(complete := true)));
        CompleteProposalBlockLater(cfg, n1, outcome.block);
        LaterTrans(cfg, n, n1, CompleteProposalBlock(cfg, n1, outcome.block));
      }
    case VoteMsg(vote, peer, sigOk) => AddVoteMsgLater(cfg, n, vote, peer, sigOk);
    case PeerMaj23Msg(round, kind, peer, b) =>
    case Timeout(ti) => HandleTimeoutLater(cfg, n, ti);
  }
}
