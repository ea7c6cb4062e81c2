/**
 Vote tallies: the vote set of one (height, round, type) and the vote sets of one height.

 A vote set remembers the first vote seen from each validator, a running sum of the power seen, one
 running tally per block identifier, and the first block identifier whose tally reached a two-thirds
 majority. Conflicting votes are counted only for blocks that a peer claims to have a majority.
 */
module VoteSets {
  import opened Wrappers
  import opened Quorum

  type Hash = nat
  type PartsHeader = nat
  type Peer = nat

  /** A vote is for nil or for a block, named by its hash and the header of its part set. */
  datatype BlockID = NilBlock | BlockID(hash: Hash, parts: PartsHeader)

  datatype VoteType = Prevote | Precommit

  datatype Vote = Vote(validator: Address, height: int, round: int, kind: VoteType, blockID: BlockID)

  datatype BlockVotes = BlockVotes(peerMaj23: bool, voters: set<Address>, sum: nat)

  datatype VoteSet = VoteSet(
    height: int,
    round: int,
    kind: VoteType,
    vals: ValidatorSet,
    votes: map<Address, BlockID>,
    sum: nat,
    maj23: Option<BlockID>,
    byBlock: map<BlockID, BlockVotes>,
    peerMaj23s: map<Peer, BlockID>)

  datatype RoundVoteSet = RoundVoteSet(prevotes: VoteSet, precommits: VoteSet)

  datatype HeightVoteSet = HeightVoteSet(
    height: int,
    vals: ValidatorSet,
    round: int,
    sets: map<int, RoundVoteSet>,
    catchup: map<Peer, seq<int>>)

  function NewVoteSet(height: int, round: int, kind: VoteType, vals: ValidatorSet): VoteSet
  {
    VoteSet(height, round, kind, vals, map[], 0, None, map[], map[])
  }

  /** Result of offering a vote: the new set and whether the vote was counted. */
  datatype Added = Added(votes: VoteSet, added: bool)

  /** Is the vote already known, as the primary vote of its validator or in the tally of its block? */
  predicate HasVote(vs: VoteSet, v: Address, blockID: BlockID)
  {
    || (v in vs.votes && vs.votes[v] == blockID)
    || (blockID in vs.byBlock && v in vs.byBlock[blockID].voters)
  }

  function AddVote(vs: VoteSet, vote: Vote, sigOk: bool): Added
  {
    if vote.height != vs.height || vote.round != vs.round || vote.kind != vs.kind then Added(vs, false)
    else if vote.validator !in Addresses(vs.vals) then Added(vs, false)
    else if HasVote(vs, vote.validator, vote.blockID) then Added(vs, false)
    else if !sigOk then Added(vs, false)
    else AddVerifiedVote(vs, vote.validator, vote.blockID)
  }

  /**
   Primary votes and their sum after a verified vote; a conflicting vote replaces the primary one only for the
   majority block.
   */
  function RecordPrimary(vs: VoteSet, v: Address, b: BlockID): VoteSet
  {
    if v in vs.votes then
      if vs.maj23 == Some(b) then vs.(votes := vs.votes[v := b]) else vs
    else
      vs.(votes := vs.votes[v := b], sum := vs.sum + PowerOf(vs.vals, {v}))
  }

  function Tally(vs: VoteSet, b: BlockID): BlockVotes
  {
    if b in vs.byBlock then vs.byBlock[b] else BlockVotes(false, {}, 0)
  }

  function AddVerifiedVote(vs: VoteSet, v: Address, b: BlockID): Added
  {
    var vs1 := RecordPrimary(vs, v, b);
    if v in vs.votes && !Tally(vs, b).peerMaj23 then Added(vs1, false)
    else Added(CountVote(vs1, v, b), true)
  }

  function ExtendTally(vals: ValidatorSet, t: BlockVotes, v: Address): BlockVotes
  {
    if v in t.voters then t else t.(voters := t.voters + {v}, sum := t.sum + PowerOf(vals, {v}))
  }

  /** Count the vote for its block; the first block to cross the quorum becomes the majority. */
  function CountVote(vs: VoteSet, v: Address, b: BlockID): VoteSet
  {
    var t := Tally(vs, b);
    var t' := ExtendTally(vs.vals, t, v);
    var vs' := vs.(byBlock := vs.byBlock[b := t']);
    if t.sum < QuorumSize(vs.vals) <= t'.sum && vs.maj23.None? then
      vs'.(maj23 := Some(b), votes := CopyVotes(vs'.votes, t'.voters, b))
    else vs'
  }

  function CopyVotes(votes: map<Address, BlockID>, voters: set<Address>, b: BlockID): map<Address, BlockID>
  {
    map v | v in votes.Keys + voters :: if v in voters then b else votes[v]
  }

  function SetPeerMaj23(vs: VoteSet, peer: Peer, b: BlockID): VoteSet
  {
    if peer in vs.peerMaj23s then vs
    else
      vs.(peerMaj23s := vs.peerMaj23s[peer := b],
          byBlock := vs.byBlock[b := Tally(vs, b).(peerMaj23 := true)])
  }

  predicate HasTwoThirdsAny(vs: VoteSet)
  {
    vs.sum > TotalPower(vs.vals) * 2 / 3
  }

  predicate HasAll(vs: VoteSet)
  {
    vs.sum == TotalPower(vs.vals)
  }

  /**
   The running sums are the power of the votes behind them, and `maj23` is set exactly when some block has a
   quorum.
   */
  ghost predicate ValidVoteSet(vs: VoteSet)
  {
    && vs.sum == PowerOf(vs.vals, vs.votes.Keys)
    && (forall b :: b in vs.byBlock ==> vs.byBlock[b].sum == PowerOf(vs.vals, vs.byBlock[b].voters))
    && (forall b :: b in vs.byBlock ==> vs.byBlock[b].voters <= vs.votes.Keys)
    && (vs.maj23.Some? ==> vs.maj23.value in vs.byBlock && IsQuorum(vs.vals, vs.byBlock[vs.maj23.value].voters))
    && (vs.maj23.None? ==> forall b :: b in vs.byBlock ==> !IsQuorum(vs.vals, vs.byBlock[b].voters))
  }

  lemma NewVoteSetValid(height: int, round: int, kind: VoteType, vals: ValidatorSet)
    ensures ValidVoteSet(NewVoteSet(height, round, kind, vals))
  {
    PowerOfEmpty(vals);
    assert NewVoteSet(height, round, kind, vals).votes.Keys == {};
  }

  lemma RecordPrimaryValid(vs: VoteSet, v: Address, b: BlockID)
    requires ValidVoteSet(vs)
    ensures ValidVoteSet(RecordPrimary(vs, v, b))
    ensures RecordPrimary(vs, v, b).votes.Keys == vs.votes.Keys + {v}
    ensures RecordPrimary(vs, v, b).byBlock == vs.byBlock && RecordPrimary(vs, v, b).maj23 == vs.maj23
  {
    var vs1 := RecordPrimary(vs, v, b);
    if v in vs.votes {
      assert vs1.votes.Keys == vs.votes.Keys;
    } else {
      assert vs1.votes.Keys == vs.votes.Keys + {v};
      PowerAdd(vs.vals, vs.votes.Keys, v);
    }
  }

  lemma TallyFacts(vs: VoteSet, v: Address, b: BlockID)
    requires ValidVoteSet(vs)
    ensures var t := Tally(vs, b); var t' := ExtendTally(vs.vals, t, v);
            && t.sum == PowerOf(vs.vals, t.voters) && t'.sum == PowerOf(vs.vals, t'.voters)
            && t.voters <= vs.votes.Keys && t'.voters == t.voters + {v}
            && (t.sum >= QuorumSize(vs.vals) <==> IsQuorum(vs.vals, t.voters))
            && (t'.sum >= QuorumSize(vs.vals) <==> IsQuorum(vs.vals, t'.voters))
            && (vs.maj23.None? ==> !IsQuorum(vs.vals, t.voters))
  {
    var t := Tally(vs, b);
    PowerOfEmpty(vs.vals);
    if v !in t.voters {
      PowerAdd(vs.vals, t.voters, v);
    } else {
      assert t.voters + {v} == t.voters;
    }
    QuorumSizeIsTwoThirds(vs.vals, t.sum);
    QuorumSizeIsTwoThirds(vs.vals, ExtendTally(vs.vals, t, v).sum);
  }

  lemma TallyGrows(vs: VoteSet, v: Address, b: BlockID)
    requires ValidVoteSet(vs)
    ensures IsQuorum(vs.vals, Tally(vs, b).voters) ==> IsQuorum(vs.vals, ExtendTally(vs.vals, Tally(vs, b), v).voters)
  {
    TallyFacts(vs, v, b);
    PowerMonotone(vs.vals, Tally(vs, b).voters, Tally(vs, b).voters + {v});
  }

  /** Counting a vote keeps the tallies exact; a majority, once recorded, never changes. */
  lemma CountVoteValid(vs: VoteSet, v: Address, b: BlockID)
    requires ValidVoteSet(vs) && v in vs.votes
    ensures ValidVoteSet(CountVote(vs, v, b))
    ensures vs.maj23.Some? ==> CountVote(vs, v, b).maj23 == vs.maj23
    ensures CountVote(vs, v, b).votes.Keys == vs.votes.Keys
  {
    TallyFacts(vs, v, b);
    TallyGrows(vs, v, b);
    var t' := ExtendTally(vs.vals, Tally(vs, b), v);
    assert CopyVotes(vs.votes, t'.voters, b).Keys == vs.votes.Keys;
    assert vs.byBlock[b := t'].Keys == vs.byBlock.Keys + {b};
  }

  /** Adding a verified vote keeps the sums exact; a majority, once recorded, never changes. */
  lemma AddVerifiedVoteValid(vs: VoteSet, v: Address, b: BlockID)
    requires ValidVoteSet(vs)
    ensures ValidVoteSet(AddVerifiedVote(vs, v, b).votes)
    ensures vs.maj23.Some? ==> AddVerifiedVote(vs, v, b).votes.maj23 == vs.maj23
  {
    RecordPrimaryValid(vs, v, b);
    CountVoteValid(RecordPrimary(vs, v, b), v, b);
  }

  /** Every vote counted in `vs` satisfies `known`. */
  ghost predicate OnlyKnown(vs: VoteSet, known: set<Vote>)
  {
    && (forall v :: v in vs.votes ==> Vote(v, vs.height, vs.round, vs.kind, vs.votes[v]) in known)
    && (forall b, v :: b in vs.byBlock && v in vs.byBlock[b].voters ==>
          Vote(v, vs.height, vs.round, vs.kind, b) in known)
  }

  /**
   Offering a vote keeps a vote set valid, keeps its identity, keeps a recorded majority, and counts only `vote`
   in addition.
   */
  lemma AddVoteValid(vs: VoteSet, vote: Vote, sigOk: bool)
    requires ValidVoteSet(vs)
    ensures var vs' := AddVote(vs, vote, sigOk).votes;
            && ValidVoteSet(vs')
            && vs'.height == vs.height && vs'.round == vs.round && vs'.kind == vs.kind && vs'.vals == vs.vals
            && (vs.maj23.Some? ==> vs'.maj23 == vs.maj23)
            && (!AddVote(vs, vote, sigOk).added ==> vs'.maj23 == vs.maj23)
  {
    AddVerifiedVoteValid(vs, vote.validator, vote.blockID);
  }

  /** A vote whose signature does not verify is never counted; otherwise the counted votes are known ones. */
  lemma AddVoteKnown(vs: VoteSet, vote: Vote, sigOk: bool, known: set<Vote>)
    requires OnlyKnown(vs, known)
    requires sigOk ==> vote in known
    ensures OnlyKnown(AddVote(vs, vote, sigOk).votes, known)
  {
  }

  lemma SetPeerMaj23Valid(vs: VoteSet, peer: Peer, b: BlockID, known: set<Vote>)
    requires ValidVoteSet(vs) && OnlyKnown(vs, known)
    ensures ValidVoteSet(SetPeerMaj23(vs, peer, b)) && OnlyKnown(SetPeerMaj23(vs, peer, b), known)
    ensures SetPeerMaj23(vs, peer, b).maj23 == vs.maj23
  {
    TallyFacts(vs, 0, b);
    PowerOfEmpty(vs.vals);
    hide PowerOf, TotalPower, ExtendTally;
    if peer !in vs.peerMaj23s {
      assert SetPeerMaj23(vs, peer, b).byBlock.Keys == vs.byBlock.Keys + {b};
      assert !IsQuorum(vs.vals, {});
    }
  }

  /** The tracked votes for a block, none if it is not tracked. */
  function VotersFor(vs: VoteSet, b: BlockID): set<Address>
  {
    if b in vs.byBlock then vs.byBlock[b].voters else {}
  }

  /** The vote is for this set, of a validator, new, and signed. */
  predicate Offered(vs: VoteSet, vote: Vote, sigOk: bool)
  {
    && vote.height == vs.height && vote.round == vs.round && vote.kind == vs.kind && sigOk
    && (exists i :: 0 <= i < |vs.vals| && vs.vals[i].address == vote.validator)
    && !(vote.validator in vs.votes && vs.votes[vote.validator] == vote.blockID)
    && vote.validator !in VotersFor(vs, vote.blockID)
  }

  /**
   When a vote counts: it is the validator's first, or a conflicting one for a block that a peer claims to
   have a majority. A vote that does not count changes at most the validator's primary vote, to the
   majority block.
   */
  lemma AddVoteCounts(vs: VoteSet, vote: Vote, sigOk: bool)
    ensures var r := AddVote(vs, vote, sigOk);
            var v, b := vote.validator, vote.blockID;
            && (r.added <==>
                  && Offered(vs, vote, sigOk)
                  && (v !in vs.votes || (b in vs.byBlock && vs.byBlock[b].peerMaj23)))
            && (!r.added ==>
                  r.votes == if Offered(vs, vote, sigOk) && vs.maj23 == Some(b) then vs.(votes := vs.votes[v := b])
                             else vs)
  {
  }

  /** A counted vote joins the votes for its block and those of no other; the first quorum becomes the majority. */
  lemma AddVoteTallies(vs: VoteSet, vote: Vote, sigOk: bool)
    requires ValidVoteSet(vs) && AddVote(vs, vote, sigOk).added
    ensures var vs' := AddVote(vs, vote, sigOk).votes;
            var v, b := vote.validator, vote.blockID;
            && VotersFor(vs', b) == VotersFor(vs, b) + {v}
            && (forall c :: c != b ==> VotersFor(vs', c) == VotersFor(vs, c))
            && vs'.votes.Keys == vs.votes.Keys + {v}
            && vs'.maj23 == (if vs.maj23.Some? then vs.maj23
                             else if IsQuorum(vs.vals, VotersFor(vs, b) + {v}) then Some(b) else None)
            && forall w :: w in vs'.votes ==>
                 vs'.votes[w] ==
                   if vs.maj23.None? && vs'.maj23.Some? && w in VotersFor(vs', b) then b
                   else if w == v && (v !in vs.votes || vs.maj23 == Some(b)) then b
                   else vs.votes[w]
  {
    var v, b := vote.validator, vote.blockID;
    var vs1 := RecordPrimary(vs, v, b);
    RecordPrimaryValid(vs, v, b);
    TallyFacts(vs1, v, b);
    assert Tally(vs1, b).voters == VotersFor(vs, b);
    hide PowerOf, TotalPower, QuorumSize, IsQuorum;
  }

  /** The first claim of a peer is kept, and its block tracked; votes and majority stay as they are. */
  lemma SetPeerMaj23Claims(vs: VoteSet, peer: Peer, b: BlockID)
    ensures var vs' := SetPeerMaj23(vs, peer, b);
            && peer in vs'.peerMaj23s
            && vs'.peerMaj23s[peer] == (if peer in vs.peerMaj23s then vs.peerMaj23s[peer] else b)
            && (peer !in vs.peerMaj23s ==> b in vs'.byBlock && vs'.byBlock[b].peerMaj23)
            && (forall c :: VotersFor(vs', c) == VotersFor(vs, c))
            && (forall c :: c in vs.byBlock && c != b ==> c in vs'.byBlock && vs'.byBlock[c] == vs.byBlock[c])
            && vs'.votes == vs.votes && vs'.maj23 == vs.maj23 && vs'.sum == vs.sum
  {
  }

  /** The two thresholds on the primary votes. */
  lemma AnyAndAll(vs: VoteSet)
    requires ValidVoteSet(vs)
    ensures HasTwoThirdsAny(vs) <==> 3 * PowerOf(vs.vals, vs.votes.Keys) > 2 * TotalPower(vs.vals)
    ensures HasAll(vs) <==> PowerOf(vs.vals, vs.votes.Keys) == TotalPower(vs.vals)
  {
    QuorumSizeIsTwoThirds(vs.vals, vs.sum);
  }

  // ---- the vote sets of one height ----

  function NewRound(height: int, round: int, vals: ValidatorSet): RoundVoteSet
  {
    RoundVoteSet(NewVoteSet(height, round, Prevote, vals), NewVoteSet(height, round, Precommit, vals))
  }

  function NewHeightVoteSet(height: int, vals: ValidatorSet): HeightVoteSet
  {
    HeightVoteSet(height, vals, 0, map[0 := NewRound(height, 0, vals)], map[])
  }

  function SetRound(hvs: HeightVoteSet, round: int): HeightVoteSet
  {
    var missing := map r | hvs.round - 1 <= r <= round && r !in hvs.sets :: NewRound(hvs.height, r, hvs.vals);
    hvs.(sets := hvs.sets + missing, round := round)
  }

  function GetVoteSet(hvs: HeightVoteSet, round: int, kind: VoteType): Option<VoteSet>
  {
    if round !in hvs.sets then None
    else if kind.Prevote? then Some(hvs.sets[round].prevotes) else Some(hvs.sets[round].precommits)
  }

  function PutVoteSet(hvs: HeightVoteSet, round: int, kind: VoteType, vs: VoteSet): HeightVoteSet
    requires round in hvs.sets
  {
    var rvs := hvs.sets[round];
    hvs.(sets := hvs.sets[round := if kind.Prevote? then rvs.(prevotes := vs) else rvs.(precommits := vs)])
  }

  datatype HeightAdded = HeightAdded(votes: HeightVoteSet, added: bool)

  function OpenCatchupRound(hvs: HeightVoteSet, round: int, peer: Peer, rounds: seq<int>): HeightVoteSet
  {
    if round in hvs.sets then hvs
    else hvs.(sets := hvs.sets[round := NewRound(hvs.height, round, hvs.vals)],
              catchup := hvs.catchup[peer := rounds + [round]])
  }

  /** An unknown round is opened for a peer at most twice. */
  function AddHeightVote(hvs: HeightVoteSet, vote: Vote, peer: Peer, sigOk: bool): HeightAdded
  {
    var rounds := if peer in hvs.catchup then hvs.catchup[peer] else [];
    if vote.round !in hvs.sets && |rounds| >= 2 then HeightAdded(hvs, false)
    else
      var hvs1 := OpenCatchupRound(hvs, vote.round, peer, rounds);
      var r := AddVote(GetVoteSet(hvs1, vote.round, vote.kind).value, vote, sigOk);
      HeightAdded(PutVoteSet(hvs1, vote.round, vote.kind, r.votes), r.added)
  }

  function SetHeightPeerMaj23(hvs: HeightVoteSet, round: int, kind: VoteType, peer: Peer, b: BlockID): HeightVoteSet
  {
    var vs := GetVoteSet(hvs, round, kind);
    if vs.None? then hvs else PutVoteSet(hvs, round, kind, SetPeerMaj23(vs.value, peer, b))
  }

  /** The majority of a round, if that round is tracked and has one. */
  function TwoThirdsMajority(hvs: HeightVoteSet, round: int, kind: VoteType): Option<BlockID>
  {
    var vs := GetVoteSet(hvs, round, kind);
    if vs.None? then None else vs.value.maj23
  }

  predicate TwoThirdsAny(hvs: HeightVoteSet, round: int, kind: VoteType)
  {
    var vs := GetVoteSet(hvs, round, kind);
    vs.Some? && HasTwoThirdsAny(vs.value)
  }

  /** The highest tracked round with a prevote majority, or -1. */
  function PolRound(hvs: HeightVoteSet, round: int): int
    decreases round + 1
  {
    if round < 0 then -1
    else if TwoThirdsMajority(hvs, round, Prevote).Some? then round
    else PolRound(hvs, round - 1)
  }

  /** Up to the new round, and from the one before the current round, every round is tracked from then on. */
  lemma SetRoundTracks(hvs: HeightVoteSet, round: int, r: int, k: VoteType)
    ensures SetRound(hvs, round).round == round
    ensures GetVoteSet(SetRound(hvs, round), r, k) ==
            if GetVoteSet(hvs, r, k).Some? then GetVoteSet(hvs, r, k)
            else if hvs.round - 1 <= r <= round then Some(NewVoteSet(hvs.height, r, k, hvs.vals))
            else None
  {
  }

  /**
   A vote goes to the set of its round and type and to no other. For a round that is not tracked a set is
   opened, on behalf of the peer and at most twice for each peer.
   */
  lemma AddHeightVoteGoes(hvs: HeightVoteSet, vote: Vote, peer: Peer, sigOk: bool, r: int, k: VoteType)
    ensures var a := AddHeightVote(hvs, vote, peer, sigOk);
            var vs := GetVoteSet(hvs, vote.round, vote.kind);
            var rounds := if peer in hvs.catchup then hvs.catchup[peer] else [];
            var to := if vs.Some? then vs.value else NewVoteSet(hvs.height, vote.round, vote.kind, hvs.vals);
            && a.votes.round == hvs.round
            && if vs.None? && |rounds| >= 2 then a.votes == hvs && !a.added
               else
                 && a.added == AddVote(to, vote, sigOk).added
                 && GetVoteSet(a.votes, vote.round, vote.kind) == Some(AddVote(to, vote, sigOk).votes)
                 && a.votes.catchup == (if vs.Some? then hvs.catchup else hvs.catchup[peer := rounds + [vote.round]])
                 && ((r, k) != (vote.round, vote.kind) ==>
                       GetVoteSet(a.votes, r, k) ==
                         if vs.None? && r == vote.round then Some(NewVoteSet(hvs.height, r, k, hvs.vals))
                         else GetVoteSet(hvs, r, k))
  {
    hide AddVote;
  }

  /** A claim goes to the set of its round and type, if that round is tracked. */
  lemma HeightClaimGoes(hvs: HeightVoteSet, round: int, kind: VoteType, peer: Peer, b: BlockID, r: int, k: VoteType)
    ensures var hvs' := SetHeightPeerMaj23(hvs, round, kind, peer, b);
            GetVoteSet(hvs', r, k) ==
              if (r, k) == (round, kind) && GetVoteSet(hvs, r, k).Some? then
                Some(SetPeerMaj23(GetVoteSet(hvs, r, k).value, peer, b))
              else GetVoteSet(hvs, r, k)
  {
    hide SetPeerMaj23;
  }

  ghost predicate GoodVoteSet(vs: VoteSet, height: int, round: int, kind: VoteType, vals: ValidatorSet,
                              known: set<Vote>)
  {
    && vs.height == height && vs.round == round && vs.kind == kind && vs.vals == vals
    && ValidVoteSet(vs) && OnlyKnown(vs, known)
  }

  ghost predicate GoodHeightVotes(hvs: HeightVoteSet, height: int, vals: ValidatorSet, known: set<Vote>)
  {
    && hvs.height == height && hvs.vals == vals
    && forall r :: r in hvs.sets ==>
         && GoodVoteSet(hvs.sets[r].prevotes, height, r, Prevote, vals, known)
         && GoodVoteSet(hvs.sets[r].precommits, height, r, Precommit, vals, known)
  }

  /** Recorded majorities of `a` are still recorded in `b`. */
  ghost predicate MajoritiesKept(a: HeightVoteSet, b: HeightVoteSet)
  {
    forall r, k :: TwoThirdsMajority(a, r, k).Some? ==> TwoThirdsMajority(b, r, k) == TwoThirdsMajority(a, r, k)
  }

  lemma NewRoundGood(height: int, round: int, vals: ValidatorSet, known: set<Vote>)
    ensures GoodVoteSet(NewRound(height, round, vals).prevotes, height, round, Prevote, vals, known)
    ensures GoodVoteSet(NewRound(height, round, vals).precommits, height, round, Precommit, vals, known)
  {
    NewVoteSetValid(height, round, Prevote, vals);
    NewVoteSetValid(height, round, Precommit, vals);
  }

  lemma NewHeightVotesGood(height: int, vals: ValidatorSet, known: set<Vote>)
    ensures GoodHeightVotes(NewHeightVoteSet(height, vals), height, vals, known)
  {
    NewRoundGood(height, 0, vals, known);
  }

  lemma SetRoundGood(hvs: HeightVoteSet, round: int, height: int, vals: ValidatorSet, known: set<Vote>)
    requires GoodHeightVotes(hvs, height, vals, known)
    ensures GoodHeightVotes(SetRound(hvs, round), height, vals, known)
  {
    forall r | r in SetRound(hvs, round).sets && r !in hvs.sets
      ensures GoodVoteSet(SetRound(hvs, round).sets[r].prevotes, height, r, Prevote, vals, known)
      ensures GoodVoteSet(SetRound(hvs, round).sets[r].precommits, height, r, Precommit, vals, known)
    {
      NewRoundGood(height, r, vals, known);
    }
  }

  /** Replacing one vote set by a good one that keeps its majority keeps the height good. */
  lemma PutVoteSetGood(hvs: HeightVoteSet, round: int, kind: VoteType, vs: VoteSet, height: int, vals: ValidatorSet,
                       known: set<Vote>)
    requires GoodHeightVotes(hvs, height, vals, known) && round in hvs.sets
    requires GoodVoteSet(vs, height, round, kind, vals, known)
    requires var m := TwoThirdsMajority(hvs, round, kind); m.Some? ==> vs.maj23 == m
    ensures GoodHeightVotes(PutVoteSet(hvs, round, kind, vs), height, vals, known)
    ensures MajoritiesKept(hvs, PutVoteSet(hvs, round, kind, vs))
  {
  }

  lemma OpenCatchupRoundGood(hvs: HeightVoteSet, round: int, height: int, vals: ValidatorSet, known: set<Vote>,
                             catchup: map<Peer, seq<int>>)
    requires GoodHeightVotes(hvs, height, vals, known) && round !in hvs.sets
    ensures var hvs1 := hvs.(sets := hvs.sets[round := NewRound(hvs.height, round, hvs.vals)], catchup := catchup);
            GoodHeightVotes(hvs1, height, vals, known) && MajoritiesKept(hvs, hvs1)
  {
    NewRoundGood(height, round, vals, known);
  }

  /** Adding a vote to a height keeps all tallies exact and made of known votes, and keeps recorded majorities. */
  lemma AddHeightVoteGood(hvs: HeightVoteSet, vote: Vote, peer: Peer, sigOk: bool, height: int, vals: ValidatorSet,
                          known: set<Vote>)
    requires GoodHeightVotes(hvs, height, vals, known)
    requires sigOk ==> vote in known
    ensures GoodHeightVotes(AddHeightVote(hvs, vote, peer, sigOk).votes, height, vals, known)
    ensures MajoritiesKept(hvs, AddHeightVote(hvs, vote, peer, sigOk).votes)
  {
    var rounds := if peer in hvs.catchup then hvs.catchup[peer] else [];
    if vote.round in hvs.sets || |rounds| < 2 {
      var hvs1 := OpenCatchupRound(hvs, vote.round, peer, rounds);
      if vote.round !in hvs.sets {
        OpenCatchupRoundGood(hvs, vote.round, height, vals, known, hvs.catchup[peer := rounds + [vote.round]]);
      }
      var vs := GetVoteSet(hvs1, vote.round, vote.kind).value;
      AddVoteValid(vs, vote, sigOk);
      AddVoteKnown(vs, vote, sigOk, known);
      PutVoteSetGood(hvs1, vote.round, vote.kind, AddVote(vs, vote, sigOk).votes, height, vals, known);
    }
  }

  lemma SetHeightPeerMaj23Good(hvs: HeightVoteSet, round: int, kind: VoteType, peer: Peer, b: BlockID, height: int,
                               vals: ValidatorSet, known: set<Vote>)
    requires GoodHeightVotes(hvs, height, vals, known)
    ensures GoodHeightVotes(SetHeightPeerMaj23(hvs, round, kind, peer, b), height, vals, known)
    ensures MajoritiesKept(hvs, SetHeightPeerMaj23(hvs, round, kind, peer, b))
  {
    var vs := GetVoteSet(hvs, round, kind);
    if vs.Some? {
      SetPeerMaj23Valid(vs.value, peer, b, known);
      PutVoteSetGood(hvs, round, kind, SetPeerMaj23(vs.value, peer, b), height, vals, known);
    }
  }

  /** The round reported by the majority search is the highest one with a prevote majority. */
  lemma {:induction false} PolRoundIsHighest(hvs: HeightVoteSet, from: int, round: int)
    requires 0 <= round <= from && TwoThirdsMajority(hvs, round, Prevote).Some?
    ensures round <= PolRound(hvs, from) <= from
    ensures TwoThirdsMajority(hvs, PolRound(hvs, from), Prevote).Some?
    decreases from
  {
    if TwoThirdsMajority(hvs, from, Prevote).None? {
      PolRoundIsHighest(hvs, from - 1, round);
    }
  }

  /** It is -1 exactly if there is none. */
  lemma {:induction false} PolRoundIsNone(hvs: HeightVoteSet, from: int)
    requires -1 <= from
    ensures PolRound(hvs, from) == -1 <==> forall r :: 0 <= r <= from ==> TwoThirdsMajority(hvs, r, Prevote).None?
    decreases from
  {
    if from >= 0 {
      PolRoundIsNone(hvs, from - 1);
      if TwoThirdsMajority(hvs, from, Prevote).Some? {
        assert PolRound(hvs, from) == from;
      }
    }
  }
}
