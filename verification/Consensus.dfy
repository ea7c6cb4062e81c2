/**
 The consensus state machine of one node, as functions from node values to node values.

 These functions are the specification of the `State` object (ConsensusState.dfy) and the step
 function of the network model (Network.dfy). A node that would panic is marked `halted`; it ignores
 every later event. Signed votes are appended to `outbox`, scheduled timeouts are collected in
 `timeouts`.
 */
module Consensus {
  import opened Wrappers
  import opened Quorum
  import opened VoteSets

  /** Block hashes are injective, so a block is identified with its hash. */
  datatype Block = Block(hash: Hash)

  type Chain = seq<Block>

  datatype PartSet = PartSet(header: PartsHeader, complete: bool)

  datatype Proposal = Proposal(height: int, round: int, polRound: int, blockID: BlockID)

  datatype TimeoutInfo = TimeoutInfo(height: int, round: int, step: int)

  const STEP_NEW_HEIGHT := 1
  const STEP_NEW_ROUND := 2
  const STEP_PROPOSE := 3
  const STEP_PREVOTE := 4
  const STEP_PREVOTE_WAIT := 5
  const STEP_PRECOMMIT := 6
  const STEP_PRECOMMIT_WAIT := 7
  const STEP_COMMIT := 8

  /**
   What the node calls outside: the validator set, block validity and block execution are functions of the chain
   so far.
   */
  datatype Config = Config(
    initialHeight: int,
    validators: Chain -> ValidatorSet,
    valid: (Chain, Block) -> bool,
    applies: (Chain, Block) -> bool,
    needProof: Chain -> bool,
    waitForTxs: bool,
    emptyBlocksInterval: bool,
    skipTimeoutCommit: bool)

  datatype Node = Node(
    self: Address,
    canSign: bool,
    halted: bool,
    chain: Chain,
    saved: Option<Block>,
    height: int,
    round: int,
    step: int,
    commitRound: int,
    validators: ValidatorSet,
    proposal: Option<Proposal>,
    proposalBlock: Option<Block>,
    proposalBlockParts: Option<PartSet>,
    lockedRound: int,
    lockedBlock: Option<Block>,
    lockedBlockParts: Option<PartSet>,
    validRound: int,
    validBlock: Option<Block>,
    validBlockParts: Option<PartSet>,
    votes: HeightVoteSet,
    lastCommit: Option<VoteSet>,
    triggeredTimeoutPrecommit: bool,
    timeouts: set<TimeoutInfo>,
    outbox: seq<Vote>)

  /**
   Outcome of offering a block part: refused, stored, stored with the set now complete but unusable, or a
   complete block.
   */
  datatype PartOutcome = PartRefused | PartStored | PartsUnusable | PartsComplete(block: Block)

  datatype Event =
    | TxsAvailable
    | ProposalMsg(proposal: Proposal, sigOk: bool)
    | BlockPartMsg(partHeight: int, outcome: PartOutcome)
    | VoteMsg(vote: Vote, peer: Peer, voteSigOk: bool)
    | PeerMaj23Msg(majRound: int, majKind: VoteType, majPeer: Peer, majBlock: BlockID)
    | Timeout(info: TimeoutInfo)

  // ---- small helpers ----

  predicate HashesTo(block: Option<Block>, blockID: BlockID)
  {
    block.Some? && blockID.BlockID? && block.value.hash == blockID.hash
  }

  predicate HasHeader(parts: Option<PartSet>, header: PartsHeader)
  {
    parts.Some? && parts.value.header == header
  }

  /** The header of a missing part set is the zero header. */
  function Header(parts: Option<PartSet>): PartsHeader
  {
    if parts.Some? then parts.value.header else 0
  }

  function PartsOf(blockID: BlockID): PartsHeader
  {
    if blockID.BlockID? then blockID.parts else 0
  }

  function CompareHRS(h1: int, r1: int, s1: int, h2: int, r2: int, s2: int): int
  {
    if h1 < h2 then -1 else if h1 > h2 then 1
    else if r1 < r2 then -1 else if r1 > r2 then 1
    else if s1 < s2 then -1 else if s1 > s2 then 1
    else 0
  }

  function Halt(n: Node): Node
  {
    n.(halted := true)
  }

  function Schedule(n: Node, height: int, round: int, step: int): Node
  {
    n.(timeouts := n.timeouts + {TimeoutInfo(height, round, step)})
  }

  function Unlock(n: Node): Node
  {
    n.(lockedRound := -1, lockedBlock := None, lockedBlockParts := None)
  }

  /** Sign a vote for the node's current height and round, if it holds a key in the validator set. */
  function SignAddVote(n: Node, kind: VoteType, blockID: BlockID): Node
  {
    if n.canSign && n.self in Addresses(n.validators) then
      n.(outbox := n.outbox + [Vote(n.self, n.height, n.round, kind, blockID)])
    else n
  }

  predicate IsProposalComplete(n: Node)
  {
    && n.proposal.Some? && n.proposalBlock.Some?
    && (n.proposal.value.polRound < 0 || TwoThirdsMajority(n.votes, n.proposal.value.polRound, Prevote).Some?)
  }

  // ---- state functions ----

  function EnterNewRound(cfg: Config, n: Node, height: int, round: int): Node
  {
    if n.halted || n.height != height || round < n.round || (n.round == round && n.step != STEP_NEW_HEIGHT) then n
    else
      var n1 := n.(round := round, step := STEP_NEW_ROUND);
      if round == 0 then OpenRound(cfg, n1, round)
      else OpenRound(cfg, n1.(proposal := None, proposalBlock := None, proposalBlockParts := None), round)
  }

  /** Track the votes of the new round and the next one, then wait for transactions or propose. */
  function OpenRound(cfg: Config, n: Node, round: int): Node
  {
    if n.votes.round != 0 && round + 1 < n.votes.round - 1 then Halt(n)
    else
      var n1 := n.(votes := SetRound(n.votes, round + 1), triggeredTimeoutPrecommit := false);
      if cfg.waitForTxs && round == 0 && !cfg.needProof(n.chain) then
        if cfg.emptyBlocksInterval then Schedule(n1, n.height, round, STEP_NEW_ROUND) else n1
      else EnterPropose(cfg, n1, n.height, round)
  }

  function EnterPropose(cfg: Config, n: Node, height: int, round: int): Node
  {
    if n.halted || n.height != height || round < n.round || (n.round == round && STEP_PROPOSE <= n.step) then n
    else
      var n1 := Schedule(n, height, round, STEP_PROPOSE);
      var n2 := n1.(round := round, step := STEP_PROPOSE);
      if IsProposalComplete(n2) then EnterPrevote(cfg, n2, height, n2.round) else n2
  }

  function DoPrevote(cfg: Config, n: Node): Node
  {
    if n.lockedBlock.Some? then
      SignAddVote(n, Prevote, BlockID(n.lockedBlock.value.hash, Header(n.lockedBlockParts)))
    else if n.proposalBlock.None? then SignAddVote(n, Prevote, NilBlock)
    else if !cfg.valid(n.chain, n.proposalBlock.value) then SignAddVote(n, Prevote, NilBlock)
    else SignAddVote(n, Prevote, BlockID(n.proposalBlock.value.hash, Header(n.proposalBlockParts)))
  }

  function EnterPrevote(cfg: Config, n: Node, height: int, round: int): Node
  {
    if n.halted || n.height != height || round < n.round || (n.round == round && STEP_PREVOTE <= n.step) then n
    else DoPrevote(cfg, n).(round := round, step := STEP_PREVOTE)
  }

  function EnterPrevoteWait(n: Node, height: int, round: int): Node
  {
    if n.halted || n.height != height || round < n.round || (n.round == round && STEP_PREVOTE_WAIT <= n.step) then n
    else if !TwoThirdsAny(n.votes, round, Prevote) then Halt(n)
    else Schedule(n, height, round, STEP_PREVOTE_WAIT).(round := round, step := STEP_PREVOTE_WAIT)
  }

  /** Lock a block in the given round and precommit it. */
  function LockAndPrecommit(n: Node, round: int, polka: BlockID, block: Option<Block>, parts: Option<PartSet>): Node
  {
    SignAddVote(n.(lockedRound := round, lockedBlock := block, lockedBlockParts := parts), Precommit, polka)
  }

  /** Unlock and precommit nil; for a block the node lacks, start collecting its parts. */
  function UnlockAndPrecommitNil(n: Node, polka: BlockID): Node
  {
    if polka.NilBlock? || HasHeader(n.proposalBlockParts, polka.parts) then SignAddVote(Unlock(n), Precommit, NilBlock)
    else
      SignAddVote(
        Unlock(n).(proposalBlock := None, proposalBlockParts := Some(PartSet(polka.parts, false))),
        Precommit, NilBlock)
  }

  /** The precommit of a round whose prevotes have the majority `polka`: relock, lock, or unlock. */
  function PrecommitPolka(cfg: Config, n: Node, round: int, polka: BlockID): Node
  {
    if PolRound(n.votes, n.votes.round) < round then Halt(n)
    else if polka.NilBlock? && n.lockedBlock.None? then SignAddVote(n, Precommit, NilBlock)
    else if HashesTo(n.lockedBlock, polka) then LockAndPrecommit(n, round, polka, n.lockedBlock, n.lockedBlockParts)
    else if HashesTo(n.proposalBlock, polka) then
      if !cfg.valid(n.chain, n.proposalBlock.value) then Halt(n)
      else LockAndPrecommit(n, round, polka, n.proposalBlock, n.proposalBlockParts)
    else UnlockAndPrecommitNil(n, polka)
  }

  function EnterPrecommit(cfg: Config, n: Node, height: int, round: int): Node
  {
    if n.halted || n.height != height || round < n.round || (n.round == round && STEP_PRECOMMIT <= n.step) then n
    else
      var polka := TwoThirdsMajority(n.votes, round, Prevote);
      var n1 :=
        if polka.None? then SignAddVote(n, Precommit, NilBlock)
        else PrecommitPolka(cfg, n, round, polka.value);
      n1.(round := round, step := STEP_PRECOMMIT)
  }

  function EnterPrecommitWait(n: Node, height: int, round: int): Node
  {
    if n.halted || n.height != height || round < n.round || (n.round == round && n.triggeredTimeoutPrecommit) then n
    else if !TwoThirdsAny(n.votes, round, Precommit) then Halt(n)
    else Schedule(n, height, round, STEP_PRECOMMIT_WAIT).(triggeredTimeoutPrecommit := true)
  }

  /** Use the locked block as the proposal if it is being committed; otherwise start collecting the committed block. */
  function CommitProposal(n: Node, maj: BlockID): Node
  {
    var n1 :=
      if HashesTo(n.lockedBlock, maj) then n.(proposalBlock := n.lockedBlock, proposalBlockParts := n.lockedBlockParts)
      else n;
    if !HashesTo(n1.proposalBlock, maj) && !HasHeader(n1.proposalBlockParts, PartsOf(maj)) then
      n1.(proposalBlock := None, proposalBlockParts := Some(PartSet(PartsOf(maj), false)))
    else n1
  }

  function EnterCommit(cfg: Config, n: Node, height: int, commitRound: int): Node
  {
    if n.halted || n.height != height || STEP_COMMIT <= n.step then n
    else
      var maj := TwoThirdsMajority(n.votes, commitRound, Precommit);
      if maj.None? then Halt(n)
      else TryFinalizeCommit(cfg,
          CommitProposal(n, maj.value).(step := STEP_COMMIT, commitRound := commitRound), height)
  }

  function TryFinalizeCommit(cfg: Config, n: Node, height: int): Node
  {
    if n.halted then n
    else if n.height != height then Halt(n)
    else
      var maj := TwoThirdsMajority(n.votes, n.commitRound, Precommit);
      if maj.None? || maj.value.NilBlock? then n
      else if !HashesTo(n.proposalBlock, maj.value) then n
      else FinalizeCommit(cfg, n, height)
  }

  function FinalizeCommit(cfg: Config, n: Node, height: int): Node
  {
    if n.height != height || n.step != STEP_COMMIT then n
    else
      var maj := TwoThirdsMajority(n.votes, n.commitRound, Precommit);
      if maj.None? || maj.value.NilBlock? then Halt(n)
      else if !HasHeader(n.proposalBlockParts, maj.value.parts) then Halt(n)
      else if !HashesTo(n.proposalBlock, maj.value) then Halt(n)
      else if !cfg.valid(n.chain, n.proposalBlock.value) then Halt(n)
      else CommitBlock(cfg, if n.saved.None? then n.(saved := n.proposalBlock) else n, n.proposalBlock.value)
  }

  /** Apply a saved block; if that succeeds move to the next height and schedule its round 0. */
  function CommitBlock(cfg: Config, n: Node, block: Block): Node
  {
    if !cfg.applies(n.chain, block) then n
    else
      var n1 := UpdateToState(cfg, n, n.chain + [block]);
      Schedule(n1, n1.height, 0, STEP_NEW_HEIGHT)
  }

  /** Reset the round state for the height after `chain`. */
  function UpdateToState(cfg: Config, n: Node, chain: Chain): Node
  {
    var height := cfg.initialHeight + |chain|;
    var vals := cfg.validators(chain);
    n.(chain := chain, saved := None,
       height := height, round := 0, step := STEP_NEW_HEIGHT, commitRound := -1,
       validators := vals,
       proposal := None, proposalBlock := None, proposalBlockParts := None,
       lockedRound := -1, lockedBlock := None, lockedBlockParts := None,
       validRound := -1, validBlock := None, validBlockParts := None,
       votes := NewHeightVoteSet(height, vals),
       lastCommit := GetVoteSet(n.votes, n.commitRound, Precommit),
       triggeredTimeoutPrecommit := false)
  }

  // ---- messages ----

  function SetProposal(n: Node, p: Proposal, sigOk: bool): Node
  {
    if n.proposal.Some? then n
    else if p.height != n.height || p.round != n.round then n
    else if p.polRound < -1 || (p.polRound >= 0 && p.polRound >= p.round) then n
    else if !sigOk then n
    else
      var n1 := n.(proposal := Some(p));
      if n.proposalBlockParts.None? then
        n1.(proposalBlockParts := Some(PartSet(PartsOf(p.blockID), false)))
      else n1
  }

  /** The block is complete: update the valid block, then move on from the propose step or finish a waiting commit. */
  function CompleteProposalBlock(cfg: Config, n: Node, block: Block): Node
  {
    var n1 := n.(proposalBlock := Some(block));
    var polka := TwoThirdsMajority(n1.votes, n1.round, Prevote);
    if polka.Some? && polka.value.BlockID? && n1.validRound < n1.round && HashesTo(n1.proposalBlock, polka.value) then
      AfterProposalBlock(cfg,
          n1.(validRound := n1.round, validBlock := n1.proposalBlock, validBlockParts := n1.proposalBlockParts),
          polka.Some?)
    else AfterProposalBlock(cfg, n1, polka.Some?)
  }

  function AfterProposalBlock(cfg: Config, n: Node, hasTwoThirds: bool): Node
  {
    if n.step <= STEP_PROPOSE && IsProposalComplete(n) then
      var n1 := EnterPrevote(cfg, n, n.height, n.round);
      if hasTwoThirds then EnterPrecommit(cfg, n1, n.height, n1.round) else n1
    else if n.step == STEP_COMMIT then TryFinalizeCommit(cfg, n, n.height)
    else n
  }

  function AddProposalBlockPart(cfg: Config, n: Node, height: int, outcome: PartOutcome): Node
  {
    if n.height != height || n.proposalBlockParts.None? || n.proposalBlockParts.value.complete then n
    else
      match outcome
      case PartRefused => n
      case PartStored => n
      case PartsUnusable => n.(proposalBlockParts := Some(n.proposalBlockParts.value.(complete := true)))
      case PartsComplete(block) =>
        CompleteProposalBlock(cfg, n.(proposalBlockParts := Some(n.proposalBlockParts.value.(complete := true))), block)
  }

  /** A prevote majority drops an older lock on another block. */
  function UnlockOld(n: Node, round: int, polka: BlockID): Node
  {
    if n.lockedBlock.Some? && n.lockedRound < round <= n.round && !HashesTo(n.lockedBlock, polka) then Unlock(n) else n
  }

  /** A prevote majority for a block in the current round makes it the valid block, or the block to collect. */
  function UpdateValid(n: Node, round: int, polka: BlockID): Node
  {
    if polka.BlockID? && n.validRound < round && round == n.round then
      var n1 :=
        if HashesTo(n.proposalBlock, polka) then
          n.(validRound := round, validBlock := n.proposalBlock, validBlockParts := n.proposalBlockParts)
        else n.(proposalBlock := None);
      if HasHeader(n1.proposalBlockParts, polka.parts) then n1
      else n1.(proposalBlockParts := Some(PartSet(polka.parts, false)))
    else n
  }

  function SeePolka(n: Node, round: int, polka: BlockID): Node
  {
    UpdateValid(UnlockOld(n, round, polka), round, polka)
  }

  function AfterPrevote(cfg: Config, n: Node, round: int): Node
  {
    var polka := TwoThirdsMajority(n.votes, round, Prevote);
    var n1 := if polka.Some? then SeePolka(n, round, polka.value) else n;
    if n1.round < round && TwoThirdsAny(n1.votes, round, Prevote) then EnterNewRound(cfg, n1, n1.height, round)
    else if n1.round == round && STEP_PREVOTE <= n1.step then
      if polka.Some? && (IsProposalComplete(n1) || polka.value.NilBlock?) then EnterPrecommit(cfg, n1, n1.height, round)
      else if TwoThirdsAny(n1.votes, round, Prevote) then EnterPrevoteWait(n1, n1.height, round)
      else n1
    else if n1.proposal.Some? && 0 <= n1.proposal.value.polRound == round then
      if IsProposalComplete(n1) then EnterPrevote(cfg, n1, n1.height, n1.round) else n1
    else n1
  }

  function AfterPrecommit(cfg: Config, n: Node, round: int): Node
  {
    var h := n.height;
    var precommits := GetVoteSet(n.votes, round, Precommit);
    if precommits.None? then n
    else if precommits.value.maj23.Some? then
      var n1 := EnterNewRound(cfg, n, h, round);
      var n2 := EnterPrecommit(cfg, n1, h, round);
      if precommits.value.maj23.value.BlockID? then
        var n3 := EnterCommit(cfg, n2, h, round);
        if cfg.skipTimeoutCommit && HasAll(precommits.value) then EnterNewRound(cfg, n3, n3.height, 0) else n3
      else EnterPrecommitWait(n2, h, round)
    else if n.round <= round && HasTwoThirdsAny(precommits.value) then
      EnterPrecommitWait(EnterNewRound(cfg, n, h, round), h, round)
    else n
  }

  function AddPrecommitOfLastHeight(cfg: Config, n: Node, vote: Vote, sigOk: bool): Node
  {
    if n.step != STEP_NEW_HEIGHT then n
    else if n.lastCommit.None? then Halt(n)
    else
      var r := AddVote(n.lastCommit.value, vote, sigOk);
      var n1 := n.(lastCommit := Some(r.votes));
      if r.added && cfg.skipTimeoutCommit && HasAll(r.votes) then EnterNewRound(cfg, n1, n1.height, 0) else n1
  }

  function AddVoteMsg(cfg: Config, n: Node, vote: Vote, peer: Peer, sigOk: bool): Node
  {
    if vote.height + 1 == n.height && vote.kind.Precommit? then AddPrecommitOfLastHeight(cfg, n, vote, sigOk)
    else if vote.height != n.height then n
    else
      var r := AddHeightVote(n.votes, vote, peer, sigOk);
      var n1 := n.(votes := r.votes);
      if !r.added then n1
      else if vote.kind.Prevote? then AfterPrevote(cfg, n1, vote.round)
      else AfterPrecommit(cfg, n1, vote.round)
  }

  function HandleTimeout(cfg: Config, n: Node, ti: TimeoutInfo): Node
  {
    if ti.height != n.height || ti.round < n.round || (ti.round == n.round && ti.step < n.step) then n
    else if ti.step == STEP_NEW_HEIGHT then EnterNewRound(cfg, n, ti.height, 0)
    else if ti.step == STEP_NEW_ROUND then EnterPropose(cfg, n, ti.height, 0)
    else if ti.step == STEP_PROPOSE then EnterPrevote(cfg, n, ti.height, ti.round)
    else if ti.step == STEP_PREVOTE_WAIT then EnterPrecommit(cfg, n, ti.height, ti.round)
    else if ti.step == STEP_PRECOMMIT_WAIT then
      EnterNewRound(cfg, EnterPrecommit(cfg, n, ti.height, ti.round), ti.height, ti.round + 1)
    else Halt(n)
  }

  function HandleTxsAvailable(cfg: Config, n: Node): Node
  {
    if n.round != 0 then n
    else if n.step == STEP_NEW_HEIGHT then
      if cfg.needProof(n.chain) then n else Schedule(n, n.height, 0, STEP_NEW_ROUND)
    else if n.step == STEP_NEW_ROUND then EnterPropose(cfg, n, n.height, 0)
    else n
  }

  function HandleEvent(cfg: Config, n: Node, event: Event): Node
  {
    match event
    case TxsAvailable => HandleTxsAvailable(cfg, n)
    case ProposalMsg(p, sigOk) => SetProposal(n, p, sigOk)
    case BlockPartMsg(height, outcome) => AddProposalBlockPart(cfg, n, height, outcome)
    case VoteMsg(vote, peer, sigOk) => AddVoteMsg(cfg, n, vote, peer, sigOk)
    case PeerMaj23Msg(round, kind, peer, b) => n.(votes := SetHeightPeerMaj23(n.votes, round, kind, peer, b))
    case Timeout(ti) => HandleTimeout(cfg, n, ti)
  }

  /** One iteration of the receive routine; `canSign` says whether the signer answers during it. */
  function Handle(cfg: Config, n: Node, event: Event, canSign: bool): Node
  {
    if n.halted then n.(outbox := [])
    else HandleEvent(cfg, n.(outbox := [], canSign := canSign), event)
  }

  function InitNode(cfg: Config, self: Address): Node
  {
    var vals := cfg.validators([]);
    Node(self, false, false, [], None, cfg.initialHeight, 0, STEP_NEW_HEIGHT, -1, vals,
         None, None, None, -1, None, None, -1, None, None,
         NewHeightVoteSet(cfg.initialHeight, vals), None, false,
         {TimeoutInfo(cfg.initialHeight, 0, STEP_NEW_HEIGHT)}, [])
  }
}
