/**
 The evidence pool: misbehaviour waits as pending until a block commits it, and is committed at most once.

 The hash of duplicate-vote evidence covers all of it. The hash of evidence of an attack on a light
 client does not cover the list of validators found guilty, here `detail`. Verification against stored
 blocks is a parameter.
 */
module Evidence {
  import opened Wrappers

  type Hash = nat

  datatype Kind = DuplicateVote | LightClientAttack

  datatype Evidence = Evidence(kind: Kind, height: int, hash: Hash, time: int, detail: nat)

  datatype Key = Key(height: int, hash: Hash)

  function KeyOf(e: Evidence): Key { Key(e.height, e.hash) }

  datatype VotePair = VotePair(height: int, votes: nat)

  /** What the pool asks of the chain: block times, the hash of evidence formed from two votes, and verification. */
  datatype Chain = Chain(
    blockTime: int -> Option<int>,
    voteHash: (VotePair, int) -> Hash,
    heightOf: Hash -> int,
    valid: (Evidence, State) -> bool)

  datatype State = State(height: int, time: int, maxAgeBlocks: int, maxAgeDuration: int)

  const U32 := 0x1_0000_0000

  predicate Expired(s: State, e: Evidence)
  {
    s.height - e.height > s.maxAgeBlocks && s.time - e.time > s.maxAgeDuration
  }

  /** The evidence two conflicting votes give, if their height is not above the state's and its block is known. */
  function Formed(c: Chain, s: State, v: VotePair): Option<Evidence>
  {
    if v.height == s.height then Some(Evidence(DuplicateVote, v.height, c.voteHash(v, s.time), s.time, 0))
    else if v.height < s.height && c.blockTime(v.height).Some? then
      var t := c.blockTime(v.height).value;
      Some(Evidence(DuplicateVote, v.height, c.voteHash(v, t), t, 0))
    else None
  }

  /** Evidence has expired once more blocks and more time have passed since its block than the limits allow. */
  lemma ExpiresAfter(s: State, e: Evidence)
    ensures Expired(s, e) <==> e.height + s.maxAgeBlocks < s.height && e.time + s.maxAgeDuration < s.time
  {
  }

  /** The evidence formed has the time of the votes' block: the state's for the last block, else that of the store. */
  lemma FormedIs(c: Chain, s: State, v: VotePair)
    ensures Formed(c, s, v).Some? <==> v.height == s.height || (v.height < s.height && c.blockTime(v.height).Some?)
    ensures Formed(c, s, v).Some? ==>
              var e, t := Formed(c, s, v).value, if v.height == s.height then s.time else c.blockTime(v.height).value;
              e.kind.DuplicateVote? && e.height == v.height && e.time == t && e.hash == c.voteHash(v, t)
  {
  }

  /** Already verified: for an attack, with the same guilty validators. */
  predicate FastOk(pending: map<Key, Evidence>, e: Evidence)
  {
    KeyOf(e) in pending && (e.kind.LightClientAttack? ==> pending[KeyOf(e)].detail == e.detail)
  }

  /** The hash covers the height. */
  predicate Genuine(c: Chain, e: Evidence) { e.height == c.heightOf(e.hash) }

  ghost predicate ChainOk(c: Chain) { forall v, t :: c.heightOf(c.voteHash(v, t)) == v.height }

  /** An entry would be stored over another: evidence of an attack that is pending with other guilty validators. */
  predicate Overwrites(pending: map<Key, Evidence>, e: Evidence)
  {
    KeyOf(e) in pending && !FastOk(pending, e)
  }

  /** How many pieces of evidence would be stored over entries pending before. */
  ghost function Overwritten(pending: map<Key, Evidence>, evs: seq<Evidence>): nat
  {
    if evs == [] then 0
    else Overwritten(pending, evs[..|evs| - 1]) + if Overwrites(pending, evs[|evs| - 1]) then 1 else 0
  }

  lemma OverwrittenStep(pending: map<Key, Evidence>, evs: seq<Evidence>, idx: nat)
    requires idx < |evs|
    ensures Overwritten(pending, evs[..idx + 1]) ==
            Overwritten(pending, evs[..idx]) + if Overwrites(pending, evs[idx]) then 1 else 0
  {
    assert evs[..idx + 1][..idx] == evs[..idx];
  }

  ghost predicate AllVotes(evs: seq<Evidence>) { forall i :: 0 <= i < |evs| ==> evs[i].kind.DuplicateVote? }

  lemma VotesOverwriteNothing(pending: map<Key, Evidence>, evs: seq<Evidence>, idx: nat)
    requires AllVotes(evs) && idx < |evs|
    ensures !Overwrites(pending, evs[idx])
  {
  }

  ghost predicate Stored(c: Chain, pending: map<Key, Evidence>)
  {
    forall k :: k in pending ==> KeyOf(pending[k]) == k && Genuine(c, pending[k])
  }

  function Keys(evs: seq<Evidence>): set<Key>
  {
    set i | 0 <= i < |evs| :: KeyOf(evs[i])
  }

  function Hashes(evs: seq<Evidence>): set<Hash>
  {
    set i | 0 <= i < |evs| :: evs[i].hash
  }

  ghost predicate DistinctHashes(evs: seq<Evidence>)
  {
    forall i, j :: 0 <= i < j < |evs| ==> evs[i].hash != evs[j].hash
  }

  /** What it takes for the evidence of a block to pass. */
  ghost predicate Acceptable(c: Chain, s: State, pending: map<Key, Evidence>, committed: set<Key>, evs: seq<Evidence>)
  {
    && DistinctHashes(evs)
    && forall i :: 0 <= i < |evs| ==> FastOk(pending, evs[i]) || (KeyOf(evs[i]) !in committed && c.valid(evs[i], s))
  }

  predicate Counts(size: nat, pending: map<Key, Evidence>, overwritten: nat) { size == (|pending| + overwritten) % U32 }

  /** Nothing is both pending and committed. */
  ghost predicate Apart(pending: map<Key, Evidence>, committed: set<Key>) { pending.Keys !! committed }

  /** Everything gossiped is pending. */
  ghost predicate Listed(list: seq<Evidence>, pending: map<Key, Evidence>) { Keys(list) <= pending.Keys }

  /** Committed keys move out of the pending ones. */
  ghost predicate Marked(pending: map<Key, Evidence>, committed: set<Key>, keys: set<Key>, pending': map<Key, Evidence>,
                         committed': set<Key>)
  {
    pending' == pending - keys && committed' == committed + keys
  }

  ghost predicate Extends(before: map<Key, Evidence>, after: map<Key, Evidence>)
  {
    forall k :: k in before ==> k in after && after[k] == before[k]
  }

  /** The evidence formed from the votes is pending or was committed before. */
  ghost predicate Handled(c: Chain, s: State, buffer: seq<VotePair>, pending: map<Key, Evidence>, committed: set<Key>)
  {
    forall v :: v in buffer && Formed(c, s, v).Some? ==>
        var k := KeyOf(Formed(c, s, v).value);
        k in pending || k in committed
  }

  /** What was added is the evidence formed from the votes that was neither pending nor committed; it is listed too. */
  ghost predicate FormedOnly(c: Chain, s: State, buffer: seq<VotePair>, committed: set<Key>, before: map<Key, Evidence>,
                             after: map<Key, Evidence>, list: seq<Evidence>, list': seq<Evidence>)
  {
    && Extends(before, after) && Handled(c, s, buffer, after, committed)
    && (forall k :: k in after && k !in before ==>
          k !in committed && exists v :: v in buffer && Formed(c, s, v) == Some(after[k]) && KeyOf(after[k]) == k)
    && list <= list' && Keys(list'[|list|..]) == after.Keys - before.Keys
  }

  datatype Event =
    | Received(e: Evidence)
    | Conflict(v: VotePair)
    | Proposed(evs: seq<Evidence>)
    | Committed(s: State, evs: seq<Evidence>)

  ghost predicate AllGenuine(c: Chain, event: Event)
  {
    match event
    case Received(e) => Genuine(c, e)
    case Conflict(_) => true
    case Proposed(evs) => forall i :: 0 <= i < |evs| ==> Genuine(c, evs[i])
    case Committed(_, evs) => forall i :: 0 <= i < |evs| ==> Genuine(c, evs[i])
  }

  /** No evidence of attacks on light clients. */
  ghost predicate OnlyVotes(event: Event)
  {
    match event
    case Received(e) => e.kind.DuplicateVote?
    case Conflict(_) => true
    case Proposed(evs) => AllVotes(evs)
    case Committed(_, evs) => AllVotes(evs)
  }

  /** What blocks committed, in order: each key once. */
  ghost predicate Once(log: seq<Key>, committed: set<Key>)
  {
    && (forall k :: k in log <==> k in committed)
    && forall i, j :: 0 <= i < j < |log| ==> log[i] != log[j]
  }

  lemma LogBlock(log: seq<Key>, was: set<Key>, committed: set<Key>, evs: seq<Evidence>) returns (log': seq<Key>)
    requires Once(log, was) && DistinctHashes(evs) && Keys(evs) !! was
    requires forall k :: k in committed <==> k in was || k in Keys(evs)
    ensures log' == log + seq(|evs|, i requires 0 <= i < |evs| => KeyOf(evs[i]))
    ensures Once(log', committed)
  {
    log' := log + seq(|evs|, i requires 0 <= i < |evs| => KeyOf(evs[i]));
    assert forall i :: |log| <= i < |log'| ==> log'[i] == KeyOf(evs[i - |log|]) && log'[i] in Keys(evs);
    forall k ensures k in log' <==> k in committed {
      if k in Keys(evs) {
        var i :| 0 <= i < |evs| && KeyOf(evs[i]) == k;
        assert log'[|log| + i] == k;
      }
    }
    forall i, j | 0 <= i < j < |log'| ensures log'[i] != log'[j] {
      if i < |log| <= j {
        assert log'[i] in was;
      } else if |log| <= i {
        assert evs[i - |log|].hash != evs[j - |log|].hash;
      }
    }
  }

  lemma CountsExact(size: nat, pending: map<Key, Evidence>, overwritten: nat)
    requires Counts(size, pending, overwritten)
    ensures size == |pending| % U32 <==> overwritten % U32 == 0
  {
    var p, q, r, t := |pending| / U32, |pending| % U32, overwritten / U32, overwritten % U32;
    assert |pending| + overwritten == (p + r) * U32 + (q + t);
  }

  class Pool {
    const chain: Chain
    var pending: map<Key, Evidence>
    var committed: set<Key>
    var list: seq<Evidence>
    var size: nat
    var buffer: seq<VotePair>
    var state: State
    var pruningHeight: int
    var pruningTime: int
    ghost var overwritten: nat

    /**
     Pending and committed are disjoint, everything gossiped is pending, and the counter, which wraps
     around, is ahead of the number of pending entries by the number of times an entry was stored over another.
     */
    ghost predicate Valid()
      reads this
    {
      && ChainOk(chain) && Stored(chain, pending)
      && Apart(pending, committed) && Listed(list, pending)
      && Counts(size, pending, overwritten)
    }

    constructor (chain: Chain, state: State)
      requires ChainOk(chain)
      ensures Valid() && pending == map[] && committed == {} && overwritten == 0 && this.chain == chain
    {
      this.chain, this.state := chain, state;
      pending, committed, list, size, buffer := map[], {}, [], 0, [];
      pruningHeight, pruningTime, overwritten := state.height, state.time, 0;
    }

    method AddPending(e: Evidence)
      requires Valid() && KeyOf(e) !in committed && Genuine(chain, e)
      modifies this`pending, this`size, this`overwritten
      ensures Valid() && pending == old(pending)[KeyOf(e) := e]
      ensures overwritten == old(overwritten) + (if KeyOf(e) in old(pending) then 1 else 0)
    {
      AddCount(pending, e);
      ModNext(|pending| + overwritten);
      pending := pending[KeyOf(e) := e];
      size := (size + 1) % U32;
      overwritten := overwritten + if KeyOf(e) in old(pending) then 1 else 0;
    }

    /** New valid evidence becomes pending and is gossiped; known evidence is ignored; the rest is refused. */
    method AddEvidence(e: Evidence) returns (ok: bool)
      requires Valid() && Genuine(chain, e)
      modifies this`pending, this`size, this`list, this`overwritten
      ensures Valid() && overwritten == old(overwritten)
      ensures var known := KeyOf(e) in old(pending) || KeyOf(e) in committed;
        && (ok <==> known || chain.valid(e, state))
        && (if known || !ok then pending == old(pending) && list == old(list)
            else pending == old(pending)[KeyOf(e) := e] && list == old(list) + [e])
    {
      if KeyOf(e) in pending || KeyOf(e) in committed {
        return true;
      }
      if !chain.valid(e, state) {
        return false;
      }
      AddPending(e);
      KeysAppend(list, e);
      list := list + [e];
      return true;
    }

    method ReportConflictingVotes(v: VotePair)
      requires Valid()
      modifies this`buffer
      ensures Valid() && buffer == old(buffer) + [v]
    {
      buffer := buffer + [v];
    }

    /**
     The evidence of a block passes exactly when no two pieces are the same and each is either verified
     already or neither committed nor invalid.
     */
    method CheckEvidence(evs: seq<Evidence>) returns (ok: bool)
      requires Valid() && forall i :: 0 <= i < |evs| ==> Genuine(chain, evs[i])
      modifies this`pending, this`size, this`overwritten
      ensures Valid()
      ensures ok <==> Acceptable(chain, state, old(pending), committed, evs)
      ensures ok ==> DistinctHashes(evs) && Keys(evs) !! committed && Grown(old(pending), pending, evs)
      ensures !ok ==> StoppedAt(old(pending), pending, evs)
      ensures AllVotes(evs) ==> overwritten == old(overwritten)
      ensures ok ==> overwritten == old(overwritten) + Overwritten(old(pending), evs)
    {
      ghost var before := pending;
      assert evs[..0] == [] && Grown(before, pending, evs[..0]) && Overwritten(before, evs[..0]) == 0;
      hide AllVotes, Grown, FastOk, Overwrites, Overwritten, ChainOk, Stored, Apart, Listed, Counts, DistinctHashes;
      for idx := 0 to |evs|
        invariant Valid() && Acceptable(chain, state, before, committed, evs[..idx])
        invariant Grown(before, pending, evs[..idx]) && Keys(evs[..idx]) !! committed
        invariant AllVotes(evs) ==> overwritten == old(overwritten)
        invariant overwritten == old(overwritten) + Overwritten(before, evs[..idx])
      {
        var e := evs[idx];
        if AllVotes(evs) { VotesOverwriteNothing(pending, evs, idx); }
        assert evs[..idx + 1] == evs[..idx] + [e];
        AcceptableStep(chain, state, before, committed, evs, idx);
        FastStep(before, pending, evs[..idx], e);
        OverwrittenStep(before, evs, idx);
        hide Acceptable;
        ghost var mid := pending;
        var fine := CheckPiece(evs, idx);
        if !fine {
          Stops(before, mid, pending, evs, idx);
          return false;
        }
      }
      assert evs[..|evs|] == evs;
      return true;
    }

    /** One piece of a block's evidence: fine by itself, and not the same as one before. */
    method CheckPiece(evs: seq<Evidence>, idx: nat) returns (fine: bool)
      requires Valid() && idx < |evs| && Genuine(chain, evs[idx])
      modifies this`pending, this`size, this`overwritten
      ensures Valid()
      ensures fine <==>
                && evs[idx].hash !in Hashes(evs[..idx])
                && (FastOk(old(pending), evs[idx])
                    || (KeyOf(evs[idx]) !in committed && chain.valid(evs[idx], state)))
      ensures pending == old(pending) || pending == old(pending)[KeyOf(evs[idx]) := evs[idx]]
      ensures !Overwrites(old(pending), evs[idx]) ==> overwritten == old(overwritten)
      ensures fine ==>
                && KeyOf(evs[idx]) !in committed
                && pending == (if FastOk(old(pending), evs[idx]) then old(pending)
                               else old(pending)[KeyOf(evs[idx]) := evs[idx]])
                && overwritten == old(overwritten) + if Overwrites(old(pending), evs[idx]) then 1 else 0
    {
      fine := CheckOne(evs[idx]);
      if fine {
        var repeated := Repeats(evs, idx);
        fine := !repeated;
      }
    }

    /** Verified already, or verified now and added. */
    method CheckOne(e: Evidence) returns (ok: bool)
      requires Valid() && Genuine(chain, e)
      modifies this`pending, this`size, this`overwritten
      ensures Valid() && (ok <==> FastOk(old(pending), e) || (KeyOf(e) !in committed && chain.valid(e, state)))
      ensures pending == (if !ok || FastOk(old(pending), e) then old(pending) else old(pending)[KeyOf(e) := e])
      ensures ok ==> KeyOf(e) !in committed
      ensures overwritten == old(overwritten) + if ok && Overwrites(old(pending), e) then 1 else 0
    {
      if FastOk(pending, e) {
        return true;
      }
      if KeyOf(e) in committed || !chain.valid(e, state) {
        return false;
      }
      AddPending(e);
      return true;
    }

    /** Form evidence from the votes reported since the last block, and add what is new. */
    method ProcessConsensusBuffer(s: State)
      requires Valid()
      modifies this`pending, this`size, this`list, this`buffer, this`overwritten
      ensures Valid() && buffer == [] && overwritten == old(overwritten)
      ensures FormedOnly(chain, s, old(buffer), committed, old(pending), pending, old(list), list)
    {
      ghost var before, listed := pending, list;
      NoneFormed(chain, s, committed, before, listed);
      assert buffer[..0] == [];
      for i := 0 to |buffer|
        invariant Valid() && buffer == old(buffer) && overwritten == old(overwritten)
        invariant FormedOnly(chain, s, buffer[..i], committed, before, pending, listed, list)
      {
        var formed := Formed(chain, s, buffer[i]);
        assert buffer[..i + 1] == buffer[..i] + [buffer[i]];
        FormedStep(chain, s, buffer[..i], buffer[i], committed, before, pending, listed, list);
        FormedGenuine(chain, s, buffer[i]);
        hide FormedOnly, ChainOk, Stored, Apart, Listed, Counts, Formed, Genuine;
        if formed.Some? {
          AddFormed(formed.value);
        }
      }
      assert buffer[..|buffer|] == buffer;
      buffer := [];
    }

    method AddFormed(e: Evidence)
      requires Valid() && Genuine(chain, e)
      modifies this`pending, this`size, this`list, this`overwritten
      ensures Valid() && overwritten == old(overwritten)
      ensures if KeyOf(e) in old(pending) || KeyOf(e) in committed then pending == old(pending) && list == old(list)
              else pending == old(pending)[KeyOf(e) := e] && list == old(list) + [e]
    {
      if KeyOf(e) !in pending && KeyOf(e) !in committed {
        AddPending(e);
        KeysAppend(list, e);
        list := list + [e];
      }
    }

    /** Take keys out of the pending ones, their evidence out of the list, and their number off the counter. */
    method Remove(keys: set<Key>, hashes: set<Hash>)
      requires Valid() && keys <= pending.Keys && Matched(keys, hashes)
      modifies this`pending, this`size, this`list
      ensures Valid() && pending == old(pending) - keys && list == Kept(old(list), keys)
    {
      FilterKeeps(chain, pending, list, keys, hashes);
      RemoveOk(chain, pending, committed, list, keys, hashes);
      RemovedCount(size, pending, keys, overwritten);
      hide Counts, Keys, Genuine, Filter, Kept, ChainOk, Apart, Listed, Stored, Matched;
      pending := pending - keys;
      RemoveFromList(hashes);
      size := (size + U32 - |hashes| % U32) % U32;
    }

    method RemoveFromList(hashes: set<Hash>)
      modifies this`list
      ensures list == Filter(old(list), hashes)
    {
      var kept := [];
      for i := 0 to |list|
        invariant list == old(list) && kept == Filter(list[..i], hashes)
      {
        assert list[..i + 1][..i] == list[..i];
        if list[i].hash !in hashes {
          kept := kept + [list[i]];
        }
      }
      assert list[..|list|] == list;
      list := kept;
    }

    /** The evidence of a block becomes committed, and is no longer pending. */
    method MarkEvidenceAsCommitted(evs: seq<Evidence>)
      requires Valid() && forall i :: 0 <= i < |evs| ==> Genuine(chain, evs[i])
      modifies this`pending, this`size, this`list, this`committed
      ensures Valid() && Marked(old(pending), old(committed), Keys(evs), pending, committed)
      ensures list == Kept(old(list), Keys(evs))
    {
      var keys, hashes := PendingOf(evs);
      ghost var all := Keys(evs);
      hide Keys, Stored, ChainOk, Counts, Genuine;
      MinusPending(pending, all, keys, committed);
      KeptPending(pending, list, keys, all);
      ghost var was := committed;
      Remove(keys, hashes);
      committed := committed + Keys(evs);
      assert committed == was + all;
    }

    /** The keys of the evidence that is pending, and their hashes. */
    method PendingOf(evs: seq<Evidence>) returns (keys: set<Key>, hashes: set<Hash>)
      requires Valid() && forall i :: 0 <= i < |evs| ==> Genuine(chain, evs[i])
      ensures keys == Keys(evs) * pending.Keys && Matched(keys, hashes)
    {
      keys, hashes := {}, {};
      assert evs[..0] == [];
      for i := 0 to |evs|
        invariant Gathered(pending, evs[..i], keys, hashes)
      {
        hide *;
        GatherStep(chain, pending, evs, i, keys, hashes);
        if KeyOf(evs[i]) in pending {
          keys, hashes := keys + {KeyOf(evs[i])}, hashes + {evs[i].hash};
        }
      }
      assert evs[..|evs|] == evs;
    }

    /** The least key of a set, by height and then hash. */
    method First(keys: set<Key>) returns (k: Key)
      requires keys != {}
      ensures k in keys && forall l :: l in keys ==> AtMost(k, l)
    {
      k :| k in keys;
      var left := keys - {k};
      while left != {}
        invariant left <= keys && k in keys
        invariant forall l :: l in keys - left ==> AtMost(k, l)
        decreases left
      {
        var l :| l in left;
        if !AtMost(k, l) {
          forall x | x in keys - left && AtMost(k, x) ensures AtMost(l, x) {
          }
          k := l;
        }
        left := left - {l};
      }
    }

    /** Go through pending evidence from the oldest, up to the first that has not expired. */
    method ExpiredPending() returns (keys: set<Key>, hashes: set<Hash>, height: int, time: int)
      requires Valid()
      ensures keys <= pending.Keys && Matched(keys, hashes)
      ensures forall k :: k in keys ==> Expired(state, pending[k])
      ensures keys == pending.Keys ==> height == state.height && time == state.time
      ensures keys != pending.Keys ==>
                exists k :: OldestKept(state, pending, keys, k)
                         && height == k.height + state.maxAgeBlocks + 1
                         && time == pending[k].time + state.maxAgeDuration + 1
    {
      keys, hashes := {}, {};
      var left := pending.Keys;
      hide Stored, Apart, Listed, Counts, ChainOk, Sweeping, Matched, Expired, OldestKept, Genuine, KeyOf, AtMost;
      StartSweep(state, pending);
      while left != {}
        invariant Sweeping(state, pending, keys, hashes, left)
        decreases left
      {
        var k := First(left);
        LeftIsPending(state, pending, keys, hashes, left, k);
        StoredAt(chain, pending, k);
        var e := pending[k];
        SweepStep(chain, state, pending, keys, hashes, left, k);
        if !Expired(state, e) {
          assert OldestKept(state, pending, keys, k) && e.height == k.height;
          return keys, hashes, e.height + state.maxAgeBlocks + 1, e.time + state.maxAgeDuration + 1;
        }
        keys, hashes, left := keys + {k}, hashes + {e.hash}, left - {k};
      }
      SweepDone(state, pending, keys, hashes, left);
      height, time := state.height, state.time;
    }

    method SetPruning(height: int, time: int)
      requires Valid()
      modifies this`pruningHeight, this`pruningTime
      ensures Valid() && pruningHeight == height && pruningTime == time
    {
      pruningHeight, pruningTime := height, time;
    }

    /** Drop the oldest evidence as long as it has expired, and note when to look again. */
    method RemoveExpiredPendingEvidence()
      requires Valid()
      modifies this`pending, this`size, this`list, this`pruningHeight, this`pruningTime
      ensures Valid() && Swept(state, old(pending), pending)
      ensures list == Kept(old(list), old(pending).Keys - pending.Keys)
      ensures NextPruning(state, old(pending), pending, pruningHeight, pruningTime)
    {
      hide *;
      var keys, hashes, height, time := ExpiredPending();
      SweptBy(state, pending, keys);
      PruneNext(state, pending, keys, height, time);
      Remove(keys, hashes);
      SetPruning(height, time);
    }

    /** A new block: form evidence, move the state, mark what was committed, sweep out what expired. */
    method Update(s: State, evs: seq<Evidence>) returns (ok: bool)
      requires Valid() && forall i :: 0 <= i < |evs| ==> Genuine(chain, evs[i])
      modifies this
      ensures Valid() && (ok <==> s.height > old(state).height)
      ensures !ok ==>
                pending == old(pending) && committed == old(committed) && state == old(state)
                    && overwritten == old(overwritten)
      ensures ok ==> state == s && overwritten == old(overwritten)
      ensures ok ==> forall k :: k in committed <==> k in old(committed) || k in Keys(evs)
      ensures ok ==> Survives(s, old(pending), Keys(evs), pending)
      ensures ok ==> buffer == []
      ensures ok ==> Updated(chain, s, Keys(evs), old(buffer), old(committed), overwritten,
                             old(pending), old(list), old(pruningHeight), old(pruningTime),
                             pending, list, pruningHeight, pruningTime)
    {
      hide *;
      if s.height <= state.height {
        return false;
      }
      ghost var before, was := pending, committed;
      ghost var votes, listedBefore, h, t := buffer, list, pruningHeight, pruningTime;
      ProcessConsensusBuffer(s);
      UpdateState(s);
      ghost var formed, listed := pending, list;
      FormedExtends(chain, s, votes, was, before, formed, listedBefore, listed);
      MarkAndSweep(evs);
      SurvivesForming(s, before, formed, Keys(evs), pending);
      UpdatedBy(chain, s, Keys(evs), votes, was, overwritten, before, listedBefore, h, t, formed, listed,
                pending, list, pruningHeight, pruningTime);
      return true;
    }

    /** Mark what a block committed, then sweep out what expired. */
    method MarkAndSweep(evs: seq<Evidence>)
      requires Valid() && forall i :: 0 <= i < |evs| ==> Genuine(chain, evs[i])
      modifies this`pending, this`size, this`list, this`committed, this`pruningHeight, this`pruningTime
      ensures Valid() && (forall k :: k in committed <==> k in old(committed) || k in Keys(evs))
      ensures Survives(state, old(pending), Keys(evs), pending)
      ensures Pruned(state, old(pending) - Keys(evs), Kept(old(list), Keys(evs)), overwritten,
                     old(pruningHeight), old(pruningTime), pending, list, pruningHeight, pruningTime)
    {
      hide *;
      ghost var formed, was := pending, committed;
      MarkEvidenceAsCommitted(evs);
      ghost var marked := pending;
      MarkedIs(formed, was, Keys(evs), marked, committed);
      Sweep();
      SurvivesMarking(state, formed, was, Keys(evs), marked, committed, pending);
    }

    /**
     In every run where only checked evidence is committed no evidence is committed twice. The counter is
     exact exactly when the number of entries stored over another is a multiple of its range.
     */
    method Run(events: seq<Event>) returns (ghost log: seq<Key>)
      requires Valid() && committed == {}
      requires forall i :: 0 <= i < |events| ==> AllGenuine(chain, events[i])
      modifies this
      ensures Valid() && (forall k :: k in log <==> k in committed)
      ensures forall i, j :: 0 <= i < j < |log| ==> log[i] != log[j]
      ensures size == |pending| % U32 <==> overwritten % U32 == 0
      ensures (forall i :: 0 <= i < |events| ==> OnlyVotes(events[i])) ==> overwritten == old(overwritten)
    {
      hide Stored, Apart, Listed, ChainOk, Counts, Keys, Survives;
      log := [];
      for i := 0 to |events|
        invariant Valid() && Once(log, committed)
        invariant (forall j :: 0 <= j < i ==> OnlyVotes(events[j])) ==> overwritten == old(overwritten)
      {
        assert AllGenuine(chain, events[i]);
        assert (forall j :: 0 <= j < i + 1 ==> OnlyVotes(events[j])) ==> OnlyVotes(events[i]);
        ghost var stored := overwritten;
        match events[i] {
          case Received(e) =>
            var _ := AddEvidence(e);
          case Conflict(v) =>
            ReportConflictingVotes(v);
          case Proposed(evs) =>
            var _ := CheckEvidence(evs);
          case Committed(s, evs) =>
            var ok := CheckEvidence(evs);
            if ok {
              ghost var was := committed;
              ok := Update(s, evs);
              if ok {
                log := LogBlock(log, was, committed, evs);
              }
            }
        }
        assert OnlyVotes(events[i]) ==> overwritten == stored;
      }
      CountsExact(size, pending, overwritten);
    }

    method UpdateState(s: State)
      requires Valid()
      modifies this`state
      ensures Valid() && state == s
    {
      state := s;
    }

    method Sweep()
      requires Valid()
      modifies this`pending, this`size, this`list, this`pruningHeight, this`pruningTime
      ensures Valid() && Survives(state, old(pending), {}, pending)
      ensures Pruned(state, old(pending), old(list), overwritten, old(pruningHeight), old(pruningTime),
                     pending, list, pruningHeight, pruningTime)
    {
      SizeIs();
      hide *;
      NothingSwept(state, pending);
      if size > 0 && state.height > pruningHeight && state.time > pruningTime {
        ghost var was, listed, h, t := pending, list, pruningHeight, pruningTime;
        RemoveExpiredPendingEvidence();
        SweptSurvives(state, was, pending);
        PrunedDue(state, was, listed, overwritten, h, t, pending, list, pruningHeight, pruningTime);
      } else {
        PrunedNot(state, pending, list, overwritten, pruningHeight, pruningTime);
      }
    }

    lemma SizeIs()
      requires Valid()
      ensures size == (|pending| + overwritten) % U32
    {
    }
  }

  /**
   The sweep: due when something is pending by the counter and both the height and the time noted have
   passed. Otherwise nothing changes.
   */
  ghost predicate Pruned(s: State, before: map<Key, Evidence>, listed: seq<Evidence>, overwritten: nat,
                         pruningHeight: int, pruningTime: int, after: map<Key, Evidence>, list: seq<Evidence>,
                         nextHeight: int, nextTime: int)
  {
    if (|before| + overwritten) % U32 > 0 && s.height > pruningHeight && s.time > pruningTime then
      && Swept(s, before, after) && list == Kept(listed, before.Keys - after.Keys)
      && NextPruning(s, before, after, nextHeight, nextTime)
    else
      after == before && list == listed && nextHeight == pruningHeight && nextTime == pruningTime
  }

  /** A block forms evidence from the votes reported, takes out what it committed, and sweeps. */
  ghost predicate Updated(c: Chain, s: State, keys: set<Key>, buffer: seq<VotePair>, committed: set<Key>,
                          overwritten: nat, before: map<Key, Evidence>, list: seq<Evidence>, h: int, t: int,
                          after: map<Key, Evidence>, list': seq<Evidence>, h': int, t': int)
  {
    exists formed, listed ::
      && FormedOnly(c, s, buffer, committed, before, formed, list, listed)
      && Pruned(s, formed - keys, Kept(listed, keys), overwritten, h, t, after, list', h', t')
  }

  lemma UpdatedBy(c: Chain, s: State, keys: set<Key>, buffer: seq<VotePair>, committed: set<Key>,
                  overwritten: nat, before: map<Key, Evidence>, list: seq<Evidence>, h: int, t: int,
                  formed: map<Key, Evidence>, listed: seq<Evidence>,
                  after: map<Key, Evidence>, list': seq<Evidence>, h': int, t': int)
    requires FormedOnly(c, s, buffer, committed, before, formed, list, listed)
    requires Pruned(s, formed - keys, Kept(listed, keys), overwritten, h, t, after, list', h', t')
    ensures Updated(c, s, keys, buffer, committed, overwritten, before, list, h, t, after, list', h', t')
  {
    hide FormedOnly, Pruned;
  }

  lemma PrunedDue(s: State, before: map<Key, Evidence>, listed: seq<Evidence>, overwritten: nat, h: int, t: int,
                  after: map<Key, Evidence>, list: seq<Evidence>, h': int, t': int)
    requires (|before| + overwritten) % U32 > 0 && s.height > h && s.time > t
    requires Swept(s, before, after) && list == Kept(listed, before.Keys - after.Keys)
    requires NextPruning(s, before, after, h', t')
    ensures Pruned(s, before, listed, overwritten, h, t, after, list, h', t')
  {
  }

  lemma PrunedNot(s: State, pending: map<Key, Evidence>, list: seq<Evidence>, overwritten: nat, h: int, t: int)
    requires !((|pending| + overwritten) % U32 > 0 && s.height > h && s.time > t)
    ensures Pruned(s, pending, list, overwritten, h, t, pending, list, h, t)
  {
  }

  /** Look again once the oldest evidence kept has expired, or at once if none is kept. */
  ghost predicate NextPruning(s: State, before: map<Key, Evidence>, after: map<Key, Evidence>, height: int, time: int)
  {
    if after == map[] then height == s.height && time == s.time
    else exists k :: OldestKept(s, before, before.Keys - after.Keys, k)
           && height == k.height + s.maxAgeBlocks + 1 && time == before[k].time + s.maxAgeDuration + 1
  }

  lemma PruneNext(s: State, pending: map<Key, Evidence>, keys: set<Key>, height: int, time: int)
    requires keys <= pending.Keys
    requires keys == pending.Keys ==> height == s.height && time == s.time
    requires keys != pending.Keys ==>
               exists k :: OldestKept(s, pending, keys, k)
                        && height == k.height + s.maxAgeBlocks + 1
                        && time == pending[k].time + s.maxAgeDuration + 1
    ensures NextPruning(s, pending, pending - keys, height, time)
    ensures pending.Keys - (pending - keys).Keys == keys
  {
    assert pending.Keys - (pending - keys).Keys == keys;
    if pending - keys == map[] {
      assert (pending - keys).Keys == {};
    } else {
      assert pending.Keys - keys == (pending - keys).Keys;
    }
  }

  lemma MarkedIs(formed: map<Key, Evidence>, was: set<Key>, keys: set<Key>, marked: map<Key, Evidence>,
                 committed: set<Key>)
    requires Marked(formed, was, keys, marked, committed)
    ensures marked == formed - keys
  {
  }

  // ---- what forming and removing change ----

  lemma NoneFormed(c: Chain, s: State, committed: set<Key>, pending: map<Key, Evidence>, list: seq<Evidence>)
    ensures FormedOnly(c, s, [], committed, pending, pending, list, list)
  {
    assert list[|list|..] == [];
  }

  lemma FormedExtends(c: Chain, s: State, buffer: seq<VotePair>, committed: set<Key>, before: map<Key, Evidence>,
                      after: map<Key, Evidence>, list: seq<Evidence>, list': seq<Evidence>)
    requires FormedOnly(c, s, buffer, committed, before, after, list, list')
    ensures Extends(before, after)
  {
  }

  lemma FormedGenuine(c: Chain, s: State, v: VotePair)
    requires ChainOk(c)
    ensures Formed(c, s, v).Some? ==> Genuine(c, Formed(c, s, v).value)
  {
  }

  /** One more pair of votes: its evidence is added exactly if it is new. */
  lemma FormedStep(c: Chain, s: State, buffer: seq<VotePair>, v: VotePair, committed: set<Key>,
                   before: map<Key, Evidence>, pending: map<Key, Evidence>, list: seq<Evidence>, list': seq<Evidence>)
    requires FormedOnly(c, s, buffer, committed, before, pending, list, list')
    ensures Formed(c, s, v).None? ==> FormedOnly(c, s, buffer + [v], committed, before, pending, list, list')
    ensures Formed(c, s, v).Some? ==>
              var e := Formed(c, s, v).value;
              if KeyOf(e) in pending || KeyOf(e) in committed then
                FormedOnly(c, s, buffer + [v], committed, before, pending, list, list')
              else
                FormedOnly(c, s, buffer + [v], committed, before, pending[KeyOf(e) := e], list, list' + [e])
  {
    hide Formed;
    if Formed(c, s, v).Some? {
      var e := Formed(c, s, v).value;
      assert (list' + [e])[|list|..] == list'[|list|..] + [e];
      KeysAppend(list'[|list|..], e);
    }
    hide Keys;
  }

  /** What of a list is not under these keys. */
  function Kept(list: seq<Evidence>, keys: set<Key>): seq<Evidence>
  {
    if list == [] then []
    else
      var kept := Kept(list[..|list| - 1], keys);
      if KeyOf(list[|list| - 1]) in keys then kept else kept + [list[|list| - 1]]
  }

  /** The evidence kept is that under other keys, in order. */
  lemma {:induction false} KeptAre(list: seq<Evidence>, keys: set<Key>, e: Evidence)
    ensures e in Kept(list, keys) <==> e in list && KeyOf(e) !in keys
    ensures (forall f :: f in list ==> KeyOf(f) !in keys) ==> Kept(list, keys) == list
  {
    if list != [] {
      assert list == list[..|list| - 1] + [list[|list| - 1]];
      KeptAre(list[..|list| - 1], keys, e);
    }
  }

  lemma {:induction false} FilterIsKept(list: seq<Evidence>, keys: set<Key>, hashes: set<Hash>)
    requires forall e :: e in list ==> (e.hash in hashes <==> KeyOf(e) in keys)
    ensures Filter(list, hashes) == Kept(list, keys)
  {
    if list != [] {
      FilterIsKept(list[..|list| - 1], keys, hashes);
    }
  }

  lemma FilterKeeps(c: Chain, pending: map<Key, Evidence>, list: seq<Evidence>, keys: set<Key>, hashes: set<Hash>)
    requires Stored(c, pending) && Listed(list, pending) && keys <= pending.Keys && Matched(keys, hashes)
    ensures Filter(list, hashes) == Kept(list, keys)
  {
    forall e | e in list ensures e.hash in hashes <==> KeyOf(e) in keys {
      var i :| 0 <= i < |list| && list[i] == e;
      assert KeyOf(e) in Keys(list) && KeyOf(e) in pending;
      if e.hash in hashes {
        var k :| k in keys && k.hash == e.hash;
        assert Genuine(c, pending[k]) && Genuine(c, pending[KeyOf(e)]);
      }
    }
    FilterIsKept(list, keys, hashes);
  }

  lemma KeptPending(pending: map<Key, Evidence>, list: seq<Evidence>, keys: set<Key>, all: set<Key>)
    requires Listed(list, pending) && keys == all * pending.Keys
    ensures Kept(list, keys) == Kept(list, all)
  {
    forall e | e in list ensures KeyOf(e) in pending {
      var i :| 0 <= i < |list| && list[i] == e;
      assert KeyOf(e) in Keys(list);
    }
    SameKept(list, keys, all);
  }

  lemma {:induction false} SameKept(list: seq<Evidence>, keys: set<Key>, all: set<Key>)
    requires forall e :: e in list ==> (KeyOf(e) in keys <==> KeyOf(e) in all)
    ensures Kept(list, keys) == Kept(list, all)
  {
    if list != [] {
      SameKept(list[..|list| - 1], keys, all);
    }
  }

  /** Of the pending evidence all is still pending but what was committed or has expired. */
  ghost predicate Survives(s: State, before: map<Key, Evidence>, committed: set<Key>, after: map<Key, Evidence>)
  {
    forall k :: k in before && k !in committed && !Expired(s, before[k]) ==> k in after
  }

  lemma SurvivesMarking(s: State, formed: map<Key, Evidence>, was: set<Key>, keys: set<Key>,
                        marked: map<Key, Evidence>, committed: set<Key>, after: map<Key, Evidence>)
    requires Marked(formed, was, keys, marked, committed) && Survives(s, marked, {}, after)
    ensures Survives(s, formed, keys, after) && forall k :: k in committed <==> k in was || k in keys
  {
    forall k | k in formed && k !in keys && !Expired(s, formed[k]) ensures k in after {
      assert k in marked && marked[k] == formed[k];
    }
  }

  lemma SurvivesForming(s: State, before: map<Key, Evidence>, formed: map<Key, Evidence>, keys: set<Key>,
                        after: map<Key, Evidence>)
    requires Extends(before, formed) && Survives(s, formed, keys, after)
    ensures Survives(s, before, keys, after)
  {
  }

  predicate AtMost(k: Key, l: Key) { k.height < l.height || (k.height == l.height && k.hash <= l.hash) }

  /** Keys are in order of height, and of hash at one height. */
  lemma KeyOrder(k: Key, l: Key)
    ensures k.height < l.height ==> AtMost(k, l) && !AtMost(l, k)
    ensures k.height == l.height ==> (AtMost(k, l) <==> k.hash <= l.hash)
  {
  }

  ghost predicate Sweeping(s: State, pending: map<Key, Evidence>, keys: set<Key>, hashes: set<Hash>, left: set<Key>)
  {
    && left <= pending.Keys && keys == pending.Keys - left && Matched(keys, hashes)
    && (forall k :: k in keys ==> Expired(s, pending[k]))
    && (forall k, l :: k in keys && l in left ==> AtMost(k, l))
  }

  lemma StartSweep(s: State, pending: map<Key, Evidence>)
    ensures Sweeping(s, pending, {}, {}, pending.Keys)
  {
  }

  lemma LeftIsPending(s: State, pending: map<Key, Evidence>, keys: set<Key>, hashes: set<Hash>, left: set<Key>, k: Key)
    requires Sweeping(s, pending, keys, hashes, left) && k in left
    ensures k in pending
  {
  }

  /** At the least key left the sweep goes on if it has expired, and is complete if not. */
  lemma SweepStep(c: Chain, s: State, pending: map<Key, Evidence>, keys: set<Key>, hashes: set<Hash>, left: set<Key>,
                  k: Key)
    requires Stored(c, pending) && Sweeping(s, pending, keys, hashes, left) && k in left && k in pending
    requires forall l :: l in left ==> AtMost(k, l)
    ensures keys <= pending.Keys && keys != pending.Keys && Matched(keys, hashes)
    ensures forall l :: l in keys ==> Expired(s, pending[l])
    ensures KeyOf(pending[k]) == k && pending[k].height == k.height
    ensures if Expired(s, pending[k]) then Sweeping(s, pending, keys + {k}, hashes + {pending[k].hash}, left - {k})
            else OldestKept(s, pending, keys, k)
  {
    StoredAt(c, pending, k);
    assert k !in keys;
    if Expired(s, pending[k]) {
      NewKey(c, pending, keys, hashes, pending[k]);
      SweepOn(s, pending, keys, hashes, left, k);
    } else {
      hide Matched, Expired, AtMost, Stored, Genuine;
    }
  }

  lemma SweepOn(s: State, pending: map<Key, Evidence>, keys: set<Key>, hashes: set<Hash>, left: set<Key>, k: Key)
    requires Sweeping(s, pending, keys, hashes, left) && k in left && k in pending && Expired(s, pending[k])
    requires Matched(keys + {k}, hashes + {pending[k].hash}) && forall l :: l in left ==> AtMost(k, l)
    ensures Sweeping(s, pending, keys + {k}, hashes + {pending[k].hash}, left - {k})
  {
    hide Matched, Expired, AtMost;
    assert keys + {k} == pending.Keys - (left - {k});
  }

  lemma SweepDone(s: State, pending: map<Key, Evidence>, keys: set<Key>, hashes: set<Hash>, left: set<Key>)
    requires Sweeping(s, pending, keys, hashes, left) && left == {}
    ensures keys == pending.Keys && Matched(keys, hashes) && forall k :: k in keys ==> Expired(s, pending[k])
  {
  }

  lemma StoredAt(c: Chain, pending: map<Key, Evidence>, k: Key)
    requires Stored(c, pending) && k in pending
    ensures KeyOf(pending[k]) == k && Genuine(c, pending[k])
  {
  }

  /** `k` is the oldest key kept, it has not expired, and all that was dropped is older. */
  ghost predicate OldestKept(s: State, pending: map<Key, Evidence>, dropped: set<Key>, k: Key)
  {
    && k in pending && k !in dropped && !Expired(s, pending[k])
    && (forall l :: l in pending && l !in dropped ==> AtMost(k, l))
    && (forall l :: l in dropped ==> AtMost(l, k))
  }

  /** Only expired evidence was dropped, oldest first, and the oldest kept has not expired. */
  ghost predicate Swept(s: State, pending: map<Key, Evidence>, kept: map<Key, Evidence>)
  {
    && (forall k :: k in kept ==> k in pending && kept[k] == pending[k])
    && (forall k :: k in pending && k !in kept ==> Expired(s, pending[k]))
    && (kept == map[] || exists k :: OldestKept(s, pending, pending.Keys - kept.Keys, k))
  }

  lemma SweptSurvives(s: State, pending: map<Key, Evidence>, kept: map<Key, Evidence>)
    requires Swept(s, pending, kept)
    ensures Survives(s, pending, {}, kept)
  {
  }

  lemma NothingSwept(s: State, pending: map<Key, Evidence>)
    ensures Survives(s, pending, {}, pending)
  {
  }

  lemma SweptBy(s: State, pending: map<Key, Evidence>, keys: set<Key>)
    requires keys <= pending.Keys && forall k :: k in keys ==> Expired(s, pending[k])
    requires keys == pending.Keys || exists k :: OldestKept(s, pending, keys, k)
    ensures Swept(s, pending, pending - keys)
  {
    hide OldestKept;
    assert pending.Keys - (pending - keys).Keys == keys;
    if keys == pending.Keys {
      assert (pending - keys).Keys == {};
    }
  }

  /** When later blocks have later times, sweeping drops exactly the expired evidence. */
  lemma SweptIsExact(s: State, pending: map<Key, Evidence>, kept: map<Key, Evidence>, k: Key)
    requires Swept(s, pending, kept) && k in pending
    requires forall l :: l in pending ==> KeyOf(pending[l]) == l
    requires forall l, m :: l in pending && m in pending && l.height <= m.height ==> pending[l].time <= pending[m].time
    ensures k in kept <==> !Expired(s, pending[k])
  {
    if k in kept {
      var o :| OldestKept(s, pending, pending.Keys - kept.Keys, o);
      assert AtMost(o, k) && pending[o].time <= pending[k].time;
    }
  }

  ghost predicate Gathered(pending: map<Key, Evidence>, evs: seq<Evidence>, keys: set<Key>, hashes: set<Hash>)
  {
    keys == Keys(evs) * pending.Keys && Matched(keys, hashes)
  }

  lemma GatherStep(c: Chain, pending: map<Key, Evidence>, evs: seq<Evidence>, i: nat, keys: set<Key>, hashes: set<Hash>)
    requires Stored(c, pending) && i < |evs| && Genuine(c, evs[i]) && Gathered(pending, evs[..i], keys, hashes)
    ensures if KeyOf(evs[i]) in pending
        then Gathered(pending, evs[..i + 1], keys + {KeyOf(evs[i])}, hashes + {evs[i].hash})
            else Gathered(pending, evs[..i + 1], keys, hashes)
  {
    KeysPrefix(evs, i);
    hide Keys, Matched;
    if KeyOf(evs[i]) in pending {
      NewKey(c, pending, keys, hashes, evs[i]);
    }
  }

  /** The hashes of the keys, one for each. */
  ghost predicate Matched(keys: set<Key>, hashes: set<Hash>)
  {
    |keys| == |hashes| && forall h :: h in hashes <==> exists k :: k in keys && k.hash == h
  }

  lemma NewKey(c: Chain, pending: map<Key, Evidence>, keys: set<Key>, hashes: set<Hash>, e: Evidence)
    requires Stored(c, pending) && Genuine(c, e) && keys <= pending.Keys && Matched(keys, hashes)
    ensures Matched(keys + {KeyOf(e)}, hashes + {e.hash})
  {
    SameHashSameKey(c, pending, keys, e);
    hide Stored, Genuine;
    var keys' := keys + {KeyOf(e)};
    forall h ensures h in hashes + {e.hash} <==> exists k :: k in keys' && k.hash == h {
      assert KeyOf(e) in keys' && KeyOf(e).hash == e.hash;
      if h in hashes {
        var k :| k in keys && k.hash == h;
        assert k in keys';
      }
    }
    if KeyOf(e) in keys {
      assert keys' == keys && hashes + {e.hash} == hashes;
    }
  }

  function Filter(list: seq<Evidence>, hashes: set<Hash>): seq<Evidence>
  {
    if list == [] then []
    else
      var kept := Filter(list[..|list| - 1], hashes);
      if list[|list| - 1].hash in hashes then kept else kept + [list[|list| - 1]]
  }

  lemma {:induction false} FilterKeys(list: seq<Evidence>, hashes: set<Hash>)
    ensures forall k :: k in Keys(Filter(list, hashes)) <==> k in Keys(list) && k.hash !in hashes
  {
    if list != [] {
      var front, last := list[..|list| - 1], list[|list| - 1];
      FilterKeys(front, hashes);
      KeysAppend(front, last);
      assert front + [last] == list;
      if last.hash !in hashes {
        KeysAppend(Filter(front, hashes), last);
      }
    }
  }

  lemma RemoveOk(c: Chain, pending: map<Key, Evidence>, committed: set<Key>, list: seq<Evidence>, keys: set<Key>,
                 hashes: set<Hash>)
    requires Stored(c, pending) && Apart(pending, committed) && Listed(list, pending) && keys <= pending.Keys
    requires Matched(keys, hashes)
    ensures Stored(c, pending - keys) && Apart(pending - keys, committed)
    ensures Listed(Filter(list, hashes), pending - keys)
    ensures |keys| == |hashes|
  {
    FilterKeys(list, hashes);
    hide Keys;
    forall k | k in Keys(Filter(list, hashes)) ensures k in pending - keys {
      assert k in keys ==> k.hash in hashes;
    }
  }

  lemma RemovedCount(size: nat, pending: map<Key, Evidence>, keys: set<Key>, more: nat)
    requires keys <= pending.Keys && Counts(size, pending, more)
    ensures Counts((size + U32 - |keys| % U32) % U32, pending - keys, more)
  {
    MapMinusSize(pending, keys);
    CountDown(size, |pending|, |keys|, more);
  }

  lemma CountDown(size: nat, p: nat, n: nat, more: nat)
    requires size == (p + more) % U32 && n <= p
    ensures (size + U32 - n % U32) % U32 == (p - n + more) % U32
  {
    ModDifference(p + more, n);
  }

  lemma MinusPending(pending: map<Key, Evidence>, all: set<Key>, keys: set<Key>, committed: set<Key>)
    requires keys == all * pending.Keys && pending.Keys !! committed
    ensures pending - keys == pending - all && keys <= pending.Keys && (pending - keys).Keys !! committed + all
  {
  }

  lemma MapMinusSize(pending: map<Key, Evidence>, keys: set<Key>)
    requires keys <= pending.Keys
    ensures |pending - keys| == |pending| - |keys|
  {
    var left := pending - keys;
    assert left.Keys == pending.Keys - keys && pending.Keys == left.Keys + keys;
    assert |left.Keys| == |left| && |pending.Keys| == |pending|;
  }

  lemma ModNext(a: nat)
    ensures (a % U32 + 1) % U32 == (a + 1) % U32
  {
  }

  lemma ModDifference(a: nat, b: nat)
    requires b <= a
    ensures (a % U32 + U32 - b % U32) % U32 == (a - b) % U32
  {
    var q, r, u, v := a / U32, a % U32, b / U32, b % U32;
    assert a - b == (q - u) * U32 + (r - v);
  }

  lemma KeysPrefix(evs: seq<Evidence>, i: nat)
    requires i < |evs|
    ensures Keys(evs[..i + 1]) == Keys(evs[..i]) + {KeyOf(evs[i])}
  {
    assert evs[..i + 1] == evs[..i] + [evs[i]];
    KeysAppend(evs[..i], evs[i]);
  }

  lemma SameHashSameKey(c: Chain, pending: map<Key, Evidence>, keys: set<Key>, e: Evidence)
    requires Stored(c, pending) && Genuine(c, e) && keys <= pending.Keys
    ensures (exists k :: k in keys && k.hash == e.hash) <==> KeyOf(e) in keys
  {
    forall k | k in keys && k.hash == e.hash ensures k == KeyOf(e) {
      assert Genuine(c, pending[k]) && KeyOf(pending[k]) == k;
    }
  }

  /** Look back for the same hash. */
  method Repeats(evs: seq<Evidence>, idx: nat) returns (r: bool)
    requires idx < |evs|
    ensures r <==> evs[idx].hash in Hashes(evs[..idx])
  {
    var i := idx - 1;
    while i >= 0
      invariant -1 <= i < idx
      invariant forall j :: i < j < idx ==> evs[j].hash != evs[idx].hash
    {
      if evs[i].hash == evs[idx].hash {
        assert evs[..idx][i].hash == evs[idx].hash;
        return true;
      }
      i := i - 1;
    }
    return false;
  }

  /** The checked evidence has become pending, and nothing else has changed. */
  ghost predicate Grown(before: map<Key, Evidence>, pending: map<Key, Evidence>, evs: seq<Evidence>)
  {
    && (forall k :: k in pending <==> k in before || k in Keys(evs))
    && (forall k :: k in before && k !in Keys(evs) ==> pending[k] == before[k])
    && (forall i :: 0 <= i < |evs| ==>
          KeyOf(evs[i]) in pending
          && pending[KeyOf(evs[i])] == if FastOk(before, evs[i]) then before[KeyOf(evs[i])] else evs[i])
  }

  /** Checking stopped at some piece, before it was added or after. */
  ghost predicate StoppedAt(before: map<Key, Evidence>, pending: map<Key, Evidence>, evs: seq<Evidence>)
  {
    exists n, mid :: 0 <= n < |evs| && Grown(before, mid, evs[..n])
                     && (pending == mid || pending == mid[KeyOf(evs[n]) := evs[n]])
  }

  lemma Stops(before: map<Key, Evidence>, mid: map<Key, Evidence>, pending: map<Key, Evidence>, evs: seq<Evidence>,
              n: nat)
    requires n < |evs| && Grown(before, mid, evs[..n])
    requires pending == mid || pending == mid[KeyOf(evs[n]) := evs[n]]
    ensures StoppedAt(before, pending, evs)
  {
  }

  lemma AcceptableStep(c: Chain, s: State, before: map<Key, Evidence>, committed: set<Key>, evs: seq<Evidence>,
                       idx: nat)
    requires idx < |evs|
    ensures Acceptable(c, s, before, committed, evs[..idx + 1]) <==>
              && Acceptable(c, s, before, committed, evs[..idx])
              && evs[idx].hash !in Hashes(evs[..idx])
              && (FastOk(before, evs[idx]) || (KeyOf(evs[idx]) !in committed && c.valid(evs[idx], s)))
    ensures Acceptable(c, s, before, committed, evs) ==> Acceptable(c, s, before, committed, evs[..idx + 1])
  {
    hide FastOk;
    var up, e := evs[..idx + 1], evs[idx];
    assert up[..idx] == evs[..idx] && up[idx] == e;
    assert forall i :: 0 <= i < idx ==> up[i] == evs[..idx][i];
    assert forall i :: 0 <= i <= idx ==> up[i] == evs[i];
  }

  lemma FastStep(before: map<Key, Evidence>, pending: map<Key, Evidence>, evs: seq<Evidence>, e: Evidence)
    requires Grown(before, pending, evs)
    ensures e.hash !in Hashes(evs) ==> (FastOk(pending, e) <==> FastOk(before, e))
    ensures e.hash !in Hashes(evs) ==> (Overwrites(pending, e) <==> Overwrites(before, e))
    ensures e.hash !in Hashes(evs) && !FastOk(pending, e) ==> Grown(before, pending[KeyOf(e) := e], evs + [e])
    ensures e.hash !in Hashes(evs) && FastOk(pending, e) ==> Grown(before, pending, evs + [e])
    ensures Keys(evs + [e]) == Keys(evs) + {KeyOf(e)}
  {
    KeysAppend(evs, e);
    if KeyOf(e) in Keys(evs) {
      var i :| 0 <= i < |evs| && KeyOf(evs[i]) == KeyOf(e);
      assert evs[i].hash == e.hash;
    }
  }

  lemma AddCount(pending: map<Key, Evidence>, e: Evidence)
    ensures |pending[KeyOf(e) := e]| == |pending| + if KeyOf(e) in pending then 0 else 1
  {
    var more := pending[KeyOf(e) := e];
    assert more.Keys == pending.Keys + {KeyOf(e)};
    assert |more.Keys| == |more| && |pending.Keys| == |pending|;
  }

  lemma KeysAppend(list: seq<Evidence>, e: Evidence)
    ensures Keys(list + [e]) == Keys(list) + {KeyOf(e)}
  {
    forall k ensures k in Keys(list + [e]) <==> k in Keys(list) + {KeyOf(e)} {
      if k in Keys(list) {
        var i :| 0 <= i < |list| && KeyOf(list[i]) == k;
        assert (list + [e])[i] == list[i];
      }
      assert (list + [e])[|list|] == e;
    }
  }
}
