/**
 Consensus messages, their basic checks, and their conversion to and from the wire.

 Pointers that may be nil are options. Of a proposal, a vote and a block part only what the conversions
 look at is kept: the block it names, and `basicOk`, the outcome of its own field checks.
 */
module WalMessages {
  import opened Wrappers

  /** A conversion gives a value, an error, or dereferences nil. */
  datatype Result<T> = Ok(value: T) | Failed | Panicked

  type byte = x: int | 0 <= x < 256

  const HASH_SIZE := 32
  const MAX_INT32 := 0x7fff_ffff
  const MAX_VOTES_COUNT := 10000
  const MAX_BLOCK_PARTS_COUNT := 104857600 / 65536 + 1

  const PREVOTE := 1
  const PRECOMMIT := 2

  datatype BitArray = BitArray(bits: int, elems: seq<nat>)

  datatype PartSetHeader = PartSetHeader(total: nat, hash: seq<byte>)
  datatype BlockID = BlockID(hash: seq<byte>, parts: PartSetHeader)
  datatype Proposal = Proposal(blockID: BlockID, basicOk: bool, content: nat)
  datatype Vote = Vote(blockID: BlockID, basicOk: bool, content: nat)
  datatype Part = Part(basicOk: bool, content: nat)

  datatype Message =
    | NewRoundStep(height: int, round: int, step: byte, seconds: int, lastCommitRound: int)
    | NewValidBlock(height: int, round: int, header: PartSetHeader, parts: Option<BitArray>, isCommit: bool)
    | ProposalMessage(proposal: Option<Proposal>)
    | ProposalPOL(height: int, polRound: int, pol: Option<BitArray>)
    | BlockPart(height: int, round: int, part: Option<Part>)
    | VoteMessage(vote: Option<Vote>)
    | HasVote(height: int, round: int, kind: int, index: int)
    | VoteSetMaj23(height: int, round: int, kind: int, blockID: BlockID)
    | VoteSetBits(height: int, round: int, kind: int, blockID: BlockID, votes: Option<BitArray>)

  /**
   The wire form: the step is 32 bits wide, bit arrays are absent when empty except where the field is not a
   pointer.
   */
  datatype Proto =
    | PNewRoundStep(height: int, round: int, wideStep: nat, seconds: int, lastCommitRound: int)
    | PNewValidBlock(height: int, round: int, header: PartSetHeader, bits: Option<BitArray>, isCommit: bool)
    | PProposal(proposal: Proposal)
    | PProposalPOL(height: int, polRound: int, pol: BitArray)
    | PBlockPart(height: int, round: int, part: Part)
    | PVote(vote: Option<Vote>)
    | PHasVote(height: int, round: int, kind: int, index: int)
    | PVoteSetMaj23(height: int, round: int, kind: int, blockID: BlockID)
    | PVoteSetBits(height: int, round: int, kind: int, blockID: BlockID, votes: BitArray)
    | PUnknown

  // ---- basic checks ----

  function Size(b: Option<BitArray>): int { if b.None? then 0 else b.value.bits }

  predicate HashOk(h: seq<byte>) { |h| == 0 || |h| == HASH_SIZE }

  predicate HeaderOk(p: PartSetHeader) { HashOk(p.hash) }

  predicate BlockIDOk(b: BlockID) { HashOk(b.hash) && HeaderOk(b.parts) }

  predicate VoteTypeOk(kind: int) { kind == PREVOTE || kind == PRECOMMIT }

  predicate ValidateBasic(m: Message)
  {
    match m
    case NewRoundStep(h, r, step, _, last) => h >= 0 && r >= 0 && 1 <= step <= 8 && last >= -1
    case NewValidBlock(h, r, header, parts, _) =>
      h >= 0 && r >= 0 && HeaderOk(header) && Size(parts) != 0 && Size(parts) == header.total
          && Size(parts) <= MAX_BLOCK_PARTS_COUNT
    case ProposalMessage(p) => p.Some? && p.value.basicOk && BlockIDOk(p.value.blockID)
    case ProposalPOL(h, r, pol) => h >= 0 && r >= 0 && Size(pol) != 0 && Size(pol) <= MAX_VOTES_COUNT
    case BlockPart(h, r, part) => h >= 0 && r >= 0 && part.Some? && part.value.basicOk
    case VoteMessage(v) => v.Some? && v.value.basicOk && BlockIDOk(v.value.blockID)
    case HasVote(h, r, kind, i) => h >= 0 && r >= 0 && VoteTypeOk(kind) && i >= 0
    case VoteSetMaj23(h, r, kind, b) => h >= 0 && r >= 0 && VoteTypeOk(kind) && BlockIDOk(b)
    case VoteSetBits(h, _, kind, b, votes) =>
      h >= 0 && VoteTypeOk(kind) && BlockIDOk(b) && Size(votes) <= MAX_VOTES_COUNT
  }

  /** The numbers of a message that may not be negative; a round of a last commit may be -1. */
  function Counters(m: Message): seq<int>
  {
    match m
    case NewRoundStep(h, r, _, _, last) => [h, r, last + 1]
    case NewValidBlock(h, r, _, _, _) => [h, r]
    case ProposalPOL(h, r, _) => [h, r]
    case BlockPart(h, r, _) => [h, r]
    case HasVote(h, r, _, i) => [h, r, i]
    case VoteSetMaj23(h, r, _, _) => [h, r]
    case VoteSetBits(h, _, _, _, _) => [h]
    case _ => []
  }

  /** The hashes of a message, which are empty or of 32 bytes. */
  function Hashes(m: Message): seq<seq<byte>>
  {
    match m
    case NewValidBlock(_, _, header, _, _) => [header.hash]
    case ProposalMessage(Some(p)) => [p.blockID.hash, p.blockID.parts.hash]
    case VoteMessage(Some(v)) => [v.blockID.hash, v.blockID.parts.hash]
    case VoteSetMaj23(_, _, _, b) => [b.hash, b.parts.hash]
    case VoteSetBits(_, _, _, b, _) => [b.hash, b.parts.hash]
    case _ => []
  }

  /** What a message carries is there and has passed its own checks. */
  predicate CarriesGood(m: Message)
  {
    match m
    case ProposalMessage(p) => p.Some? && p.value.basicOk
    case BlockPart(_, _, p) => p.Some? && p.value.basicOk
    case VoteMessage(v) => v.Some? && v.value.basicOk
    case _ => true
  }

  /** Bounds on the size of the bit array: parts of a block, or votes. */
  predicate BitsFit(m: Message)
  {
    match m
    case NewValidBlock(_, _, header, _, _) => BitCount(m) == header.total && 0 != BitCount(m) <= 1601
    case ProposalPOL(_, _, _) => 0 != BitCount(m) <= 10000
    case VoteSetBits(_, _, _, _, _) => BitCount(m) <= 10000
    case _ => true
  }

  function BitCount(m: Message): int
  {
    match Bits(m) case Some(b) => b.bits case None => 0
  }

  /** The basic checks, field by field over all kinds of message. */
  lemma ChecksAre(m: Message)
    ensures ValidateBasic(m) <==>
            && (forall i :: 0 <= i < |Counters(m)| ==> Counters(m)[i] >= 0)
            && (forall i :: 0 <= i < |Hashes(m)| ==> |Hashes(m)[i]| in {0, 32})
            && CarriesGood(m) && BitsFit(m)
            && (m.NewRoundStep? ==> 1 <= m.step <= 8)
            && (m.HasVote? || m.VoteSetMaj23? || m.VoteSetBits? ==> m.kind == 1 || m.kind == 2)
  {
    var cs, hs := Counters(m), Hashes(m);
    assert (forall i :: 0 <= i < |cs| ==> cs[i] >= 0) <==>
           (|cs| > 0 ==> cs[0] >= 0) && (|cs| > 1 ==> cs[1] >= 0) && (|cs| > 2 ==> cs[2] >= 0);
    assert (forall i :: 0 <= i < |hs| ==> |hs[i]| in {0, 32}) <==>
           (|hs| > 0 ==> HashOk(hs[0])) && (|hs| > 1 ==> HashOk(hs[1]));
  }

  // ---- bit arrays ----

  function BitsToProto(b: Option<BitArray>): Option<BitArray>
  {
    if b.None? || (|b.value.elems| == 0 && b.value.bits == 0) then None else b
  }

  /** A bit array the wire form can carry. */
  predicate BitsOk(b: BitArray)
  {
    0 <= b.bits <= MAX_INT32 && |b.elems| == (b.bits + 63) / 64
  }

  /** As many words of 64 bits as are needed, and no more bits than a 32-bit length can count. */
  lemma BitsNeedWords(b: BitArray)
    ensures BitsOk(b) <==> 0 <= b.bits <= 2147483647 && 64 * (|b.elems| - 1) < b.bits <= 64 * |b.elems|
  {
  }

  function BitsFromProto(b: Option<BitArray>): Result<BitArray>
  {
    if b.None? then Ok(BitArray(0, [])) else if BitsOk(b.value) then Ok(b.value) else Failed
  }

  // ---- conversions ----

  const ZERO_BLOCK_ID := BlockID([], PartSetHeader(0, []))

  function MsgToProto(m: Message): Result<Proto>
  {
    match m
    case NewRoundStep(h, r, step, s, last) => Ok(PNewRoundStep(h, r, step, s, last))
    case NewValidBlock(h, r, header, parts, c) => Ok(PNewValidBlock(h, r, header, BitsToProto(parts), c))
    case ProposalMessage(p) => Ok(PProposal(if p.Some? then p.value else Proposal(ZERO_BLOCK_ID, false, 0)))
    case ProposalPOL(h, r, pol) =>
      if BitsToProto(pol).None? then Panicked
      else Ok(PProposalPOL(h, r, BitsToProto(pol).value))
    case BlockPart(h, r, part) => if part.None? then Failed else Ok(PBlockPart(h, r, part.value))
    case VoteMessage(v) => Ok(PVote(v))
    case HasVote(h, r, kind, i) => Ok(PHasVote(h, r, kind, i))
    case VoteSetMaj23(h, r, kind, b) => Ok(PVoteSetMaj23(h, r, kind, b))
    case VoteSetBits(h, r, kind, b, votes) =>
      var bits := BitsToProto(votes);
      Ok(PVoteSetBits(h, r, kind, b, if bits.Some? then bits.value else BitArray(0, [])))
  }

  function Checked(m: Message): Result<Message>
  {
    if ValidateBasic(m) then Ok(m) else Failed
  }

  function MsgFromProto(p: Proto): Result<Message>
  {
    match p
    case PNewRoundStep(h, r, step, s, last) => if step > 255 then Failed else Checked(NewRoundStep(h, r, step, s, last))
    case PNewValidBlock(h, r, header, bits, c) =>
      if !HeaderOk(header) then Failed
      else if !BitsFromProto(bits).Ok? then Failed
      else Checked(NewValidBlock(h, r, header, Some(BitsFromProto(bits).value), c))
    case PProposal(p) => if BlockIDOk(p.blockID) && p.basicOk then Checked(ProposalMessage(Some(p))) else Failed
    case PProposalPOL(h, r, pol) =>
      if !BitsFromProto(Some(pol)).Ok? then Failed else Checked(ProposalPOL(h, r, Some(BitsFromProto(Some(pol)).value)))
    case PBlockPart(h, r, part) => if part.basicOk then Checked(BlockPart(h, r, Some(part))) else Failed
    case PVote(v) =>
      if v.Some? && BlockIDOk(v.value.blockID) && v.value.basicOk then Checked(VoteMessage(v))
      else Failed
    case PHasVote(h, r, kind, i) => Checked(HasVote(h, r, kind, i))
    case PVoteSetMaj23(h, r, kind, b) => if BlockIDOk(b) then Checked(VoteSetMaj23(h, r, kind, b)) else Failed
    case PVoteSetBits(h, r, kind, b, votes) =>
      if !BlockIDOk(b) then Failed
      else if !BitsFromProto(Some(votes)).Ok? then Failed
      else Checked(VoteSetBits(h, r, kind, b, Some(BitsFromProto(Some(votes)).value)))
    case PUnknown => Failed
  }

  /** The bit array of a message, where it has one. */
  function Bits(m: Message): Option<BitArray>
  {
    match m
    case NewValidBlock(_, _, _, parts, _) => parts
    case ProposalPOL(_, _, pol) => pol
    case VoteSetBits(_, _, _, _, votes) => votes
    case _ => None
  }

  /** A message that survives the wire. */
  predicate Sendable(m: Message)
  {
    ValidateBasic(m) && (Bits(m).Some? ==> BitsOk(Bits(m).value))
  }

  /** A missing bit array of votes comes back as an empty one; nothing else changes. */
  function Normal(m: Message): Message
  {
    if m.VoteSetBits? && m.votes.None? then m.(votes := Some(BitArray(0, []))) else m
  }

  /** What comes off the wire has passed its checks. */
  lemma ReceivedIsSendable(p: Proto)
    requires MsgFromProto(p).Ok?
    ensures Sendable(MsgFromProto(p).value) && Normal(MsgFromProto(p).value) == MsgFromProto(p).value
  {
  }

  /** Which messages cannot be put on the wire: a part that is missing, and a proof of lock without bits. */
  lemma ConvertsUnlessMissing(m: Message)
    ensures MsgToProto(m).Failed? <==> m.BlockPart? && m.part.None?
    ensures MsgToProto(m).Panicked? <==> m.ProposalPOL? && (m.pol.None? || m.pol.value == BitArray(0, []))
  {
  }

  /** A message comes back from the wire exactly when it is sendable, and comes back the same. */
  lemma MessageRoundTrip(m: Message)
    ensures Sendable(m) ==> MsgToProto(m).Ok? && MsgFromProto(MsgToProto(m).value) == Ok(Normal(m))
    ensures !Sendable(m) && MsgToProto(m).Ok? ==> MsgFromProto(MsgToProto(m).value).Failed?
  {
  }

  // ---- messages of the write-ahead log ----

  datatype WalMessage =
    | RoundState(height: int, round: int, stepName: string)
    | Info(msg: Message, peer: string)
    | Timeout(duration: int, height: int, round: int, step: byte)
    | EndHeight(height: int)

  datatype WalProto =
    | PRoundState(height: int, round: int, stepName: string)
    | PInfo(msg: Proto, peer: string)
    | PTimeout(duration: int, height: int, round: int, wideStep: nat)
    | PEndHeight(height: int)
    | PNoSum

  function WalToProto(m: WalMessage): Result<WalProto>
  {
    match m
    case RoundState(h, r, s) => Ok(PRoundState(h, r, s))
    case Info(msg, peer) =>
      (match MsgToProto(msg)
       case Ok(p) => Ok(PInfo(p, peer))
       case Failed => Failed
       case Panicked => Panicked)
    case Timeout(d, h, r, s) => Ok(PTimeout(d, h, r, s))
    case EndHeight(h) => Ok(PEndHeight(h))
  }

  function WalFromProto(p: Option<WalProto>): Result<WalMessage>
  {
    if p.None? then Failed
    else
      match p.value
      case PRoundState(h, r, s) => Ok(RoundState(h, r, s))
      case PInfo(msg, peer) =>
        (match MsgFromProto(msg)
         case Ok(m) => Ok(Info(m, peer))
         case _ => Failed)
      case PTimeout(d, h, r, s) => if s > 255 then Failed else Ok(Timeout(d, h, r, s))
      case PEndHeight(h) => Ok(EndHeight(h))
      case PNoSum => Failed
  }

  predicate WalSendable(m: WalMessage) { m.Info? ==> Sendable(m.msg) }

  function WalNormal(m: WalMessage): WalMessage { if m.Info? then m.(msg := Normal(m.msg)) else m }

  lemma WalRoundTrip(m: WalMessage)
    ensures WalSendable(m) ==> WalToProto(m).Ok? && WalFromProto(Some(WalToProto(m).value)) == Ok(WalNormal(m))
    ensures !WalSendable(m) && WalToProto(m).Ok? ==> WalFromProto(Some(WalToProto(m).value)).Failed?
  {
    if m.Info? {
      MessageRoundTrip(m.msg);
      hide MsgToProto, MsgFromProto, Sendable, Normal;
    }
  }

  /** What is read back is sendable and in normal form, so writing it again changes nothing. */
  lemma WalReceived(p: Option<WalProto>)
    requires WalFromProto(p).Ok?
    ensures WalSendable(WalFromProto(p).value) && WalNormal(WalFromProto(p).value) == WalFromProto(p).value
  {
    if p.value.PInfo? {
      ReceivedIsSendable(p.value.msg);
      hide MsgFromProto, Sendable, Normal;
    }
  }
}
