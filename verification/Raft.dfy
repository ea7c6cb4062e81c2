/**
 The application loop around the Raft library: committed entries are applied to a key-value map exactly
 once, across overlapping batches and restored snapshots.

 The library's side is an assumption: one log for the cluster, and batches and snapshots that agree with
 it. Indices are 64-bit and wrap around in the subtractions below.
 */
module Raft {
  import opened Wrappers

  const U64 := 0x1_0000_0000_0000_0000
  const SNAP_COUNT := 100
  const COMPACT_DELAY := 100

  datatype Kind = Normal | ConfChange(removesSelf: bool)

  datatype Entry = Entry(index: nat, kind: Kind, data: string)

  type Store = map<string, string>

  datatype Snapshot = Snapshot(index: nat, kv: Store)

  datatype Ready = Ready(snapshot: Option<Snapshot>, entries: seq<Entry>)

  /** The cluster's log, and the decoding of an entry into a key and a value. */
  datatype Cluster = Cluster(log: nat -> Entry, decode: string -> Option<(string, string)>)

  function Subtract64(a: nat, b: nat): (r: nat)
    requires a < U64 && b < U64
    ensures r == if a >= b then a - b else a + U64 - b
  {
    (a + U64 - b) % U64
  }

  function Add64(a: nat, b: nat): nat { (a + b) % U64 }

  /** What one entry does to the map. */
  function Applied(c: Cluster, kv: Store, e: Entry): Store
  {
    if e.kind != Normal || e.data == "" then kv
    else
      match c.decode(e.data)
      case None => kv
      case Some((k, v)) => kv[k := v]
  }

  /** The map after the first `n` entries of the log, each applied once. */
  function KvAt(c: Cluster, n: nat): Store
  {
    if n == 0 then map[] else Applied(c, KvAt(c, n - 1), c.log(n))
  }

  /** The value that entry `i` of the log gives to a key, if it gives one. */
  function Given(c: Cluster, i: nat, k: string): Option<string>
  {
    var e := c.log(i);
    if e.kind.Normal? && |e.data| > 0 && c.decode(e.data).Some? && c.decode(e.data).value.0 == k then
      Some(c.decode(e.data).value.1)
    else None
  }

  /** The map holds, for every key, the value of the last entry that gives it one. */
  lemma {:induction false} LastWriteWins(c: Cluster, n: nat, k: string)
    ensures k in KvAt(c, n) <==> exists i :: 1 <= i <= n && Given(c, i, k).Some?
    ensures forall i :: 1 <= i <= n && Given(c, i, k).Some? && (forall j :: i < j <= n ==> Given(c, j, k).None?) ==>
              k in KvAt(c, n) && KvAt(c, n)[k] == Given(c, i, k).value
  {
    if n > 0 {
      LastWriteWins(c, n - 1, k);
      hide KvAt;
      AppliedGives(c, n, k);
      if Given(c, n, k).None? {
        assert forall i :: 1 <= i <= n && Given(c, i, k).Some? ==> i <= n - 1;
      }
    }
  }

  lemma AppliedGives(c: Cluster, n: nat, k: string)
    requires n > 0
    ensures var kv, was := KvAt(c, n), KvAt(c, n - 1);
            match Given(c, n, k)
            case Some(v) => k in kv && kv[k] == v
            case None => (k in kv <==> k in was) && (k in was ==> kv[k] == was[k])
  {
  }

  predicate Removes(e: Entry) { e.kind.ConfChange? && e.kind.removesSelf }

  /** A contiguous part of the log. */
  predicate FromLog(c: Cluster, entries: seq<Entry>)
  {
    forall i :: 0 <= i < |entries| ==>
        entries[i].index == entries[0].index + i && 0 < entries[i].index < U64 && entries[i] == c.log(entries[i].index)
  }

  /** A batch that starts no later than the next entry and does not end before the last one applied. */
  predicate BatchOk(c: Cluster, commit: nat, entries: seq<Entry>)
  {
    FromLog(c, entries) && (entries != [] ==> entries[0].index <= commit + 1 && entries[|entries| - 1].index >= commit)
  }

  predicate ReadyOk(c: Cluster, commit: nat, rd: Ready)
  {
    && (rd.snapshot.Some? ==>
          commit <= rd.snapshot.value.index < U64 && rd.snapshot.value.kv == KvAt(c, rd.snapshot.value.index))
    && BatchOk(c, if rd.snapshot.Some? then rd.snapshot.value.index else commit, rd.entries)
  }

  /** The offset at which a batch is cut is in range exactly when the batch does not end before the commit index. */
  lemma OffsetInRange(c: Cluster, commit: nat, entries: seq<Entry>)
    requires FromLog(c, entries) && entries != [] && commit < U64 - 1 && entries[0].index <= commit + 1
    ensures var offset := Add64(Subtract64(commit, entries[0].index), 1);
      && offset == commit + 1 - entries[0].index
      && (offset <= |entries| <==> entries[|entries| - 1].index >= commit)
  {
    assert entries[|entries| - 1].index == entries[0].index + |entries| - 1;
  }

  /**
   Applying a batch from index `first` on goes to its end, unless an entry removes this node: then it
   stops right behind the first such entry.
   */
  ghost predicate StoppedAt(entries: seq<Entry>, first: nat, commit: nat, running: bool)
  {
    && entries != []
    && (forall i :: 0 <= i < |entries| && first <= entries[i].index && Removes(entries[i]) ==>
          entries[i].index >= commit && !running)
    && if running then commit == entries[|entries| - 1].index
       else exists i :: 0 <= i < |entries| && first <= entries[i].index == commit && Removes(entries[i])
  }

  class Node {
    const cluster: Cluster
    var kv: Store
    var commitIndex: nat
    var snapshotIndex: nat
    var offset: nat
    var storedSnapshot: nat
    var lastIndex: nat
    var running: bool
    ghost var compactions: seq<nat>

    /**
     The map is the log up to the commit index; the last snapshot, the compacted part and the storage are
     in step with it; compactions strictly increase.
     */
    ghost predicate Valid()
      reads this
    {
      && kv == KvAt(cluster, commitIndex)
      && snapshotIndex <= commitIndex <= lastIndex && commitIndex < U64 - 1
      && storedSnapshot == snapshotIndex && offset <= snapshotIndex
      && (forall i, j :: 0 <= i < j < |compactions| ==> compactions[i] < compactions[j])
      && (forall i :: 0 <= i < |compactions| ==> compactions[i] <= offset)
    }

    constructor (cluster: Cluster)
      ensures Valid() && commitIndex == 0 && this.cluster == cluster
    {
      this.cluster := cluster;
      kv, commitIndex, snapshotIndex, offset, storedSnapshot, lastIndex, running, compactions :=
          map[], 0, 0, 0, 0, 0, true, [];
    }

    /** The storage keeps the entries it has not compacted; a gap would be fatal. */
    method Append(entries: seq<Entry>) returns (ok: bool)
      requires FromLog(cluster, entries)
      modifies this`lastIndex
      ensures ok <==> entries == [] || entries[|entries| - 1].index <= offset || entries[0].index <= old(lastIndex) + 1
      ensures lastIndex ==
          if ok && entries != [] && entries[|entries| - 1].index > offset then entries[|entries| - 1].index
          else old(lastIndex)
    {
      ok := true;
      if entries != [] && entries[|entries| - 1].index > offset {
        if entries[0].index > lastIndex + 1 {
          return false;
        }
        lastIndex := entries[|entries| - 1].index;
      }
    }

    /**
     Apply the entries not applied before. It fails only on a batch that leaves a gap or ends too early;
     removal of this node stops it in the middle, at an entry boundary.
     */
    method ApplyEntries(entries: seq<Entry>) returns (ok: bool)
      requires Valid() && FromLog(cluster, entries) && (entries != [] ==> entries[|entries| - 1].index < U64 - 1)
      modifies this`kv, this`commitIndex, this`lastIndex, this`running
      ensures BatchOk(cluster, old(commitIndex), entries) ==> ok && Valid() && old(commitIndex) <= commitIndex
      ensures BatchOk(cluster, old(commitIndex), entries) && entries != [] && running ==>
                commitIndex == entries[|entries| - 1].index
      ensures !BatchOk(cluster, old(commitIndex), entries) ==> !ok && kv == old(kv) && commitIndex == old(commitIndex)
      ensures BatchOk(cluster, old(commitIndex), entries) && entries != [] && old(running) ==>
                StoppedAt(entries, old(commitIndex) + 1, commitIndex, running)
      ensures BatchOk(cluster, old(commitIndex), entries) && entries == [] ==>
                commitIndex == old(commitIndex) && running == old(running)
      ensures ok ==>
                lastIndex ==
                if entries != [] && entries[|entries| - 1].index > offset then entries[|entries| - 1].index
                else old(lastIndex)
    {
      var stored := Append(entries);
      if !stored {
        return false;
      }
      if entries == [] {
        return true;
      }
      if entries[0].index > commitIndex + 1 {
        return false;
      }
      OffsetInRange(cluster, commitIndex, entries);
      var from := Add64(Subtract64(commitIndex, entries[0].index), 1);
      if from > |entries| {
        return false;
      }
      hide KvAt;
      ApplyFrom(entries, from);
      return true;
    }

    method ApplyFrom(entries: seq<Entry>, from: nat)
      requires FromLog(cluster, entries) && entries != [] && from <= |entries|
      requires commitIndex + 1 == entries[0].index + from
      requires kv == KvAt(cluster, commitIndex) && entries[|entries| - 1].index < U64 - 1
      modifies this`kv, this`commitIndex, this`running
      ensures kv == KvAt(cluster, commitIndex) && old(commitIndex) <= commitIndex <= entries[|entries| - 1].index
      ensures running ==> commitIndex == entries[|entries| - 1].index
      ensures old(running) ==> StoppedAt(entries, old(commitIndex) + 1, commitIndex, running)
    {
      assert entries[|entries| - 1].index == entries[0].index + |entries| - 1;
      for i := from to |entries|
        invariant commitIndex + 1 == entries[0].index + i && kv == KvAt(cluster, commitIndex)
        invariant old(commitIndex) <= commitIndex && running == old(running)
        invariant forall j :: from <= j < i ==> !Removes(entries[j])
      {
        var e := entries[i];
        assert e.index == commitIndex + 1 && e == cluster.log(e.index);
        commitIndex := e.index;
        match e.kind {
          case Normal =>
            if e.data != "" {
              Set(e.data);
            }
          case ConfChange(removesSelf) =>
            if removesSelf {
              running := false;
              return;
            }
        }
      }
    }

    /** Data that does not decode is ignored. */
    method Set(data: string)
      modifies this`kv
      ensures kv == match cluster.decode(data) case None => old(kv) case Some((k, v)) => old(kv)[k := v]
    {
      var pair := cluster.decode(data);
      if pair.Some? {
        kv := kv[pair.value.0 := pair.value.1];
      }
    }

    /** The storage takes a snapshot that is newer than its own, and refuses another; the refusal is ignored. */
    method ApplySnapshot(index: nat)
      modifies this`offset, this`storedSnapshot, this`lastIndex
      ensures if index > old(storedSnapshot) then offset == storedSnapshot == lastIndex == index
              else offset == old(offset) && storedSnapshot == old(storedSnapshot) && lastIndex == old(lastIndex)
    {
      if storedSnapshot < index {
        offset, storedSnapshot, lastIndex := index, index, index;
      }
    }

    /** Replace the map by a snapshot that is not behind. */
    method RestoreSnapshot(s: Snapshot) returns (ok: bool)
      requires Valid() && s.index < U64 - 1
      modifies this`kv, this`commitIndex, this`snapshotIndex, this`offset, this`storedSnapshot, this`lastIndex
      ensures ok <==> s.index >= old(commitIndex)
      ensures ok ==> commitIndex == snapshotIndex == s.index && kv == s.kv
      ensures !ok ==> commitIndex == old(commitIndex) && snapshotIndex == old(snapshotIndex) && kv == old(kv)
      ensures if s.index > old(storedSnapshot) then offset == storedSnapshot == lastIndex == s.index
              else offset == old(offset) && storedSnapshot == old(storedSnapshot) && lastIndex == old(lastIndex)
      ensures ok && s.kv == KvAt(cluster, s.index) ==> Valid()
    {
      ApplySnapshot(s.index);
      if s.index < commitIndex {
        return false;
      }
      kv, snapshotIndex, commitIndex := s.kv, s.index, s.index;
      return true;
    }

    /**
     A snapshot of the map at the commit index, once enough has been applied; the storage can always make and
     compact it.
     */
    method TakeSnapshot() returns (s: Option<Snapshot>)
      requires Valid()
      modifies this`snapshotIndex, this`storedSnapshot, this`offset, this`compactions
      ensures Valid()
      ensures s.Some? <==> commitIndex - old(snapshotIndex) > SNAP_COUNT
      ensures s.Some? ==> s.value == Snapshot(commitIndex, KvAt(cluster, commitIndex)) && snapshotIndex == commitIndex
      ensures s.Some? ==> compactions == old(compactions) + [offset] && old(offset) < offset <= lastIndex
      ensures s.Some? ==> storedSnapshot == commitIndex && offset == if commitIndex > 100 then commitIndex - 100 else 1
      ensures s.None? ==> snapshotIndex == old(snapshotIndex) && compactions == old(compactions)
      ensures s.None? ==> storedSnapshot == old(storedSnapshot) && offset == old(offset)
    {
      if Subtract64(commitIndex, snapshotIndex) <= SNAP_COUNT {
        return None;
      }
      assert commitIndex > storedSnapshot && commitIndex <= lastIndex;
      storedSnapshot := commitIndex;
      var compactIndex := 1;
      if commitIndex > COMPACT_DELAY {
        compactIndex := commitIndex - COMPACT_DELAY;
      }
      assert offset < compactIndex <= lastIndex;
      offset := compactIndex;
      compactions := compactions + [compactIndex];
      snapshotIndex := commitIndex;
      return Some(Snapshot(commitIndex, kv));
    }

    /** One round of the loop. */
    method Handle(rd: Ready) returns (s: Option<Snapshot>)
      requires Valid() && ReadyOk(cluster, commitIndex, rd)
      requires (rd.snapshot.Some? ==> rd.snapshot.value.index < U64 - 1)
      requires (rd.entries != [] ==> rd.entries[|rd.entries| - 1].index < U64 - 1)
      modifies this
      ensures Valid() && old(commitIndex) <= commitIndex
      ensures s.Some? ==> s.value == Snapshot(commitIndex, KvAt(cluster, commitIndex))
      ensures var restored := if rd.snapshot.Some? then rd.snapshot.value.index else old(commitIndex);
              && (rd.entries == [] ==> commitIndex == restored && running == old(running))
              && (rd.entries != [] && old(running) ==> StoppedAt(rd.entries, restored + 1, commitIndex, running))
      ensures var since := if rd.snapshot.Some? then rd.snapshot.value.index else old(snapshotIndex);
              s.Some? <==> commitIndex - since > SNAP_COUNT
    {
      hide KvAt;
      if rd.snapshot.Some? {
        var restored := RestoreSnapshot(rd.snapshot.value);
      }
      var applied := ApplyEntries(rd.entries);
      s := TakeSnapshot();
    }

    /** In every run the map is the fold of the log up to the commit index, which never goes back. */
    method Run(readies: seq<Ready>) returns (handled: nat)
      requires Valid()
      modifies this
      ensures Valid() && handled <= |readies| && old(commitIndex) <= commitIndex && kv == KvAt(cluster, commitIndex)
      ensures handled < |readies| ==> !Acceptable(readies[handled])
    {
      hide KvAt;
      handled := 0;
      while handled < |readies| && Acceptable(readies[handled])
        invariant Valid() && handled <= |readies| && old(commitIndex) <= commitIndex
      {
        var _ := Handle(readies[handled]);
        handled := handled + 1;
      }
    }

    predicate Acceptable(rd: Ready)
      reads this
    {
      && ReadyOk(cluster, commitIndex, rd)
      && (rd.snapshot.Some? ==> rd.snapshot.value.index < U64 - 1)
      && (rd.entries != [] ==> rd.entries[|rd.entries| - 1].index < U64 - 1)
    }
  }
}
