/**
 External validity: a node signs votes only for blocks that are valid on its chain, and its chain holds
 only blocks that were valid, and executed, on the chain before them.
 */
module Validity {
  import opened Wrappers
  import opened Quorum
  import opened VoteSets
  import opened Consensus

  ghost predicate ChainValid(cfg: Config, chain: Chain)
  {
    forall k :: 0 <= k < |chain| ==> cfg.valid(chain[..k], chain[k]) && cfg.applies(chain[..k], chain[k])
  }

  /** The vote is for nil, or for a block that is valid on the chain below its height. */
  predicate VoteValid(cfg: Config, chain: Chain, vote: Vote)
  {
    vote.blockID.BlockID? ==>
      && 0 <= vote.height - cfg.initialHeight <= |chain|
      && cfg.valid(chain[..vote.height - cfg.initialHeight], Block(vote.blockID.hash))
  }

  ghost predicate VotesValid(cfg: Config, chain: Chain, votes: seq<Vote>)
  {
    forall i :: 0 <= i < |votes| ==> VoteValid(cfg, chain, votes[i])
  }

  predicate HeldValid(cfg: Config, chain: Chain, block: Option<Block>)
  {
    block.Some? ==> cfg.valid(chain, block.value)
  }

  /** Chain, votes, lock and saved block of a node are valid. */
  ghost predicate Sound(cfg: Config, n: Node)
  {
    && n.height == cfg.initialHeight + |n.chain|
    && ChainValid(cfg, n.chain) && VotesValid(cfg, n.chain, n.outbox)
    && HeldValid(cfg, n.chain, n.lockedBlock) && HeldValid(cfg, n.chain, n.saved)
  }

  /** What soundness speaks about is the same. */
  predicate SameSound(n: Node, n': Node)
  {
    && n'.height == n.height && n'.chain == n.chain && n'.outbox == n.outbox
    && n'.lockedBlock == n.lockedBlock && n'.saved == n.saved
  }

  lemma SignSound(cfg: Config, n: Node, kind: VoteType, b: BlockID)
    requires Sound(cfg, n) && (b.BlockID? ==> cfg.valid(n.chain, Block(b.hash)))
    ensures Sound(cfg, SignAddVote(n, kind, b))
  {
    assert n.chain[..|n.chain|] == n.chain;
  }

  lemma EnterPrevoteSound(cfg: Config, n: Node, height: int, round: int)
    requires Sound(cfg, n)
    ensures Sound(cfg, EnterPrevote(cfg, n, height, round))
  {
    hide ChainValid, VotesValid, SignAddVote;
    if n.lockedBlock.Some? {
      SignSound(cfg, n, Prevote, BlockID(n.lockedBlock.value.hash, Header(n.lockedBlockParts)));
    } else if n.proposalBlock.Some? && cfg.valid(n.chain, n.proposalBlock.value) {
      SignSound(cfg, n, Prevote, BlockID(n.proposalBlock.value.hash, Header(n.proposalBlockParts)));
    }
    SignSound(cfg, n, Prevote, NilBlock);
    assert SameSound(DoPrevote(cfg, n), DoPrevote(cfg, n).(round := round, step := STEP_PREVOTE));
  }

  lemma EnterProposeSound(cfg: Config, n: Node, height: int, round: int)
    requires Sound(cfg, n)
    ensures Sound(cfg, EnterPropose(cfg, n, height, round))
  {
    var n2 := Schedule(n, height, round, STEP_PROPOSE).(round := round, step := STEP_PROPOSE);
    hide EnterPrevote;
    EnterPrevoteSound(cfg, n2, height, round);
  }

  lemma EnterNewRoundSound(cfg: Config, n: Node, height: int, round: int)
    requires Sound(cfg, n)
    ensures Sound(cfg, EnterNewRound(cfg, n, height, round))
  {
    hide OpenRound;
    var n1 := n.(round := round, step := STEP_NEW_ROUND);
    OpenRoundSound(cfg, n1, round);
    OpenRoundSound(cfg, n1.(proposal := None, proposalBlock := None, proposalBlockParts := None), round);
  }

  lemma OpenRoundSound(cfg: Config, n: Node, round: int)
    requires Sound(cfg, n)
    ensures Sound(cfg, OpenRound(cfg, n, round))
  {
    hide EnterPropose;
    EnterProposeSound(cfg, n.(votes := SetRound(n.votes, round + 1), triggeredTimeoutPrecommit := false),
        n.height, round);
  }

  lemma PrecommitPolkaSound(cfg: Config, n: Node, round: int, polka: BlockID)
    requires Sound(cfg, n)
    ensures Sound(cfg, PrecommitPolka(cfg, n, round, polka))
  {
    hide ChainValid, VotesValid, SignAddVote;
    SignSound(cfg, n, Precommit, NilBlock);
    SignSound(cfg, Unlock(n), Precommit, NilBlock);
    SignSound(cfg, Unlock(n).(proposalBlock := None, proposalBlockParts := Some(PartSet(PartsOf(polka), false))),
        Precommit, NilBlock);
    if HashesTo(n.lockedBlock, polka) {
      SignSound(cfg, n.(lockedRound := round), Precommit, polka);
    } else if HashesTo(n.proposalBlock, polka) && cfg.valid(n.chain, n.proposalBlock.value) {
      SignSound(cfg,
          n.(lockedRound := round, lockedBlock := n.proposalBlock, lockedBlockParts := n.proposalBlockParts),
          Precommit, polka);
    }
  }

  lemma EnterPrecommitSound(cfg: Config, n: Node, height: int, round: int)
    requires Sound(cfg, n)
    ensures Sound(cfg, EnterPrecommit(cfg, n, height, round))
  {
    hide PrecommitPolka, SignAddVote;
    SignSound(cfg, n, Precommit, NilBlock);
    var polka := TwoThirdsMajority(n.votes, round, Prevote);
    if polka.Some? {
      PrecommitPolkaSound(cfg, n, round, polka.value);
    }
  }

  lemma CommitBlockSound(cfg: Config, n: Node, block: Block)
    requires Sound(cfg, n) && cfg.valid(n.chain, block)
    ensures Sound(cfg, CommitBlock(cfg, n, block))
  {
    if cfg.applies(n.chain, block) {
      var chain := n.chain + [block];
      assert forall k :: 0 <= k <= |n.chain| ==> chain[..k] == n.chain[..k];
      assert chain[..|n.chain|] == n.chain;
    }
  }

  lemma TryFinalizeCommitSound(cfg: Config, n: Node, height: int)
    requires Sound(cfg, n)
    ensures Sound(cfg, TryFinalizeCommit(cfg, n, height))
  {
    hide CommitBlock, ChainValid, VotesValid;
    if n.proposalBlock.Some? && cfg.valid(n.chain, n.proposalBlock.value) {
      CommitBlockSound(cfg, n.(saved := n.proposalBlock), n.proposalBlock.value);
      CommitBlockSound(cfg, n, n.proposalBlock.value);
    }
  }

  lemma EnterCommitSound(cfg: Config, n: Node, height: int, commitRound: int)
    requires Sound(cfg, n)
    ensures Sound(cfg, EnterCommit(cfg, n, height, commitRound))
  {
    hide TryFinalizeCommit, ChainValid, VotesValid;
    var maj := TwoThirdsMajority(n.votes, commitRound, Precommit);
    if maj.Some? {
      TryFinalizeCommitSound(cfg, CommitProposal(n, maj.value).(step := STEP_COMMIT, commitRound := commitRound),
          height);
    }
  }

  lemma PrevoteWaitSound(cfg: Config, n: Node, round: int)
    requires Sound(cfg, n)
    ensures Sound(cfg, EnterPrevoteWait(n, n.height, round))
  {
    hide ChainValid, VotesValid;
  }

  lemma PrecommitWaitSound(cfg: Config, n: Node, height: int, round: int)
    requires Sound(cfg, n)
    ensures Sound(cfg, EnterPrecommitWait(n, height, round))
  {
    hide ChainValid, VotesValid;
  }

  lemma SeePolkaSound(cfg: Config, n: Node, round: int, polka: BlockID)
    requires Sound(cfg, n)
    ensures Sound(cfg, SeePolka(n, round, polka))
  {
    hide ChainValid, VotesValid, UpdateValid;
    UpdateValidSame(UnlockOld(n, round, polka), round, polka);
  }

  lemma UpdateValidSame(n: Node, round: int, polka: BlockID)
    ensures SameSound(n, UpdateValid(n, round, polka))
  {
  }

  lemma AfterPrevoteSound(cfg: Config, n: Node, round: int)
    requires Sound(cfg, n)
    ensures Sound(cfg, AfterPrevote(cfg, n, round))
  {
    hide Sound, SeePolka, EnterNewRound, EnterPrecommit, EnterPrevote, EnterPrevoteWait;
    var polka := TwoThirdsMajority(n.votes, round, Prevote);
    var n1 := if polka.Some? then SeePolka(n, round, polka.value) else n;
    if polka.Some? {
      SeePolkaSound(cfg, n, round, polka.value);
    }
    PrevoteWaitSound(cfg, n1, round);
    EnterNewRoundSound(cfg, n1, n1.height, round);
    EnterPrecommitSound(cfg, n1, n1.height, round);
    EnterPrevoteSound(cfg, n1, n1.height, n1.round);
  }

  lemma AfterPrecommitSound(cfg: Config, n: Node, round: int)
    requires Sound(cfg, n)
    ensures Sound(cfg, AfterPrecommit(cfg, n, round))
  {
    hide Sound, EnterNewRound, EnterPrecommit, EnterCommit, EnterPrecommitWait;
    var n1 := EnterNewRound(cfg, n, n.height, round);
    EnterNewRoundSound(cfg, n, n.height, round);
    PrecommitWaitSound(cfg, n1, n.height, round);
    var n2 := EnterPrecommit(cfg, n1, n.height, round);
    EnterPrecommitSound(cfg, n1, n.height, round);
    PrecommitWaitSound(cfg, n2, n.height, round);
    var n3 := EnterCommit(cfg, n2, n.height, round);
    EnterCommitSound(cfg, n2, n.height, round);
    EnterNewRoundSound(cfg, n3, n3.height, 0);
  }

  lemma AddVoteMsgSound(cfg: Config, n: Node, vote: Vote, peer: Peer, sigOk: bool)
    requires Sound(cfg, n)
    ensures Sound(cfg, AddVoteMsg(cfg, n, vote, peer, sigOk))
  {
    hide EnterNewRound, AfterPrevote, AfterPrecommit, AddVote, AddHeightVote, ChainValid, VotesValid;
    if n.lastCommit.Some? {
      EnterNewRoundSound(cfg, n.(lastCommit := Some(AddVote(n.lastCommit.value, vote, sigOk).votes)), n.height, 0);
    }
    var n1 := n.(votes := AddHeightVote(n.votes, vote, peer, sigOk).votes);
    AfterPrevoteSound(cfg, n1, vote.round);
    AfterPrecommitSound(cfg, n1, vote.round);
  }

  lemma CompleteProposalBlockSound(cfg: Config, n: Node, block: Block)
    requires Sound(cfg, n)
    ensures Sound(cfg, CompleteProposalBlock(cfg, n, block))
  {
    var n1 := n.(proposalBlock := Some(block));
    AfterProposalBlockSound(cfg, n1, false);
    AfterProposalBlockSound(cfg, n1, true);
    AfterProposalBlockSound(cfg,
        n1.(validRound := n1.round, validBlock := n1.proposalBlock, validBlockParts := n1.proposalBlockParts), true);
    hide AfterProposalBlock;
  }

  lemma AfterProposalBlockSound(cfg: Config, n: Node, hasTwoThirds: bool)
    requires Sound(cfg, n)
    ensures Sound(cfg, AfterProposalBlock(cfg, n, hasTwoThirds))
  {
    hide EnterPrecommit, EnterPrevote, TryFinalizeCommit, ChainValid, VotesValid;
    var n1 := EnterPrevote(cfg, n, n.height, n.round);
    EnterPrevoteSound(cfg, n, n.height, n.round);
    EnterPrecommitSound(cfg, n1, n.height, n1.round);
    TryFinalizeCommitSound(cfg, n, n.height);
  }

  lemma HandleTimeoutSound(cfg: Config, n: Node, ti: TimeoutInfo)
    requires Sound(cfg, n)
    ensures Sound(cfg, HandleTimeout(cfg, n, ti))
  {
    hide EnterNewRound, EnterPropose, EnterPrevote, EnterPrecommit, ChainValid, VotesValid;
    EnterNewRoundSound(cfg, n, ti.height, 0);
    EnterProposeSound(cfg, n, ti.height, 0);
    EnterPrevoteSound(cfg, n, ti.height, ti.round);
    var n1 := EnterPrecommit(cfg, n, ti.height, ti.round);
    EnterPrecommitSound(cfg, n, ti.height, ti.round);
    EnterNewRoundSound(cfg, n1, ti.height, ti.round + 1);
  }

  /** Every event keeps a node's chain, lock and votes valid, whatever is delivered. */
  lemma HandleEventSound(cfg: Config, n: Node, event: Event)
    requires Sound(cfg, n)
    ensures Sound(cfg, HandleEvent(cfg, n, event))
  {
    hide EnterPropose, CompleteProposalBlock, AddVoteMsg, HandleTimeout, SetHeightPeerMaj23, ChainValid, VotesValid;
    match event
    case TxsAvailable => EnterProposeSound(cfg, n, n.height, 0);
    case ProposalMsg(_, _) =>
    case BlockPartMsg(_, outcome) =>
      if outcome.PartsComplete? && n.proposalBlockParts.Some? {
        CompleteProposalBlockSound(cfg,
            n.(proposalBlockParts := Some(n.proposalBlockParts.value.(complete := true))), outcome.block);
      }
    case VoteMsg(vote, peer, sigOk) => AddVoteMsgSound(cfg, n, vote, peer, sigOk);
    case PeerMaj23Msg(_, _, _, _) =>
    case Timeout(ti) => HandleTimeoutSound(cfg, n, ti);
  }

  /** Votes valid on a chain are valid on every longer one. */
  lemma VotesStayValid(cfg: Config, chain: Chain, more: Chain, votes: seq<Vote>)
    requires chain <= more && VotesValid(cfg, chain, votes)
    ensures VotesValid(cfg, more, votes)
  {
    assert forall k :: 0 <= k <= |chain| ==> more[..k] == chain[..k];
  }
}
