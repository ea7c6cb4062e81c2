/**
 The transaction pool: a first-in first-out list with its index, its byte count and its limits, the
 recheck after a block, reaping for a proposal, and the cache of transactions already seen.

 The key of a transaction is its hash, which is injective, so a transaction is its own key. List elements
 carry an identity, as the index holds elements and not transactions.
 */
module Mempool {
  import opened Wrappers

  type Tx = seq<nat>

  datatype Entry = Entry(id: nat, tx: Tx)

  // ---- the cache ----

  /** The least recently seen transaction comes first. */
  function LruPush(seen: seq<Tx>, tx: Tx, size: nat): seq<Tx>
  {
    if tx in seen then Drop(seen, tx) + [tx]
    else if |seen| >= size && |seen| > 0 then seen[1..] + [tx]
    else seen + [tx]
  }

  function Drop(seen: seq<Tx>, tx: Tx): seq<Tx>
  {
    if seen == [] then []
    else if seen[0] == tx then Drop(seen[1..], tx)
    else [seen[0]] + Drop(seen[1..], tx)
  }

  ghost predicate NoRepeats(seen: seq<Tx>)
  {
    forall i, j :: 0 <= i < j < |seen| ==> seen[i] != seen[j]
  }

  lemma {:induction false} DropFacts(seen: seq<Tx>, tx: Tx)
    ensures forall x :: x in Drop(seen, tx) <==> x in seen && x != tx
    ensures |Drop(seen, tx)| <= |seen| && (tx in seen ==> |Drop(seen, tx)| < |seen|)
    ensures NoRepeats(seen) ==> NoRepeats(Drop(seen, tx))
  {
    if seen != [] {
      DropFacts(seen[1..], tx);
      assert forall x :: x in seen <==> x == seen[0] || x in seen[1..];
      assert NoRepeats(seen) ==> NoRepeats(seen[1..]) && seen[0] !in seen[1..];
    }
  }

  /**
   Pushing keeps the cache within its size and free of repeats, forgets at most the least recent one, and puts
   the new one last.
   */
  lemma LruPushFacts(seen: seq<Tx>, tx: Tx, size: nat)
    requires NoRepeats(seen) && |seen| <= size && size > 0
    ensures var r := LruPush(seen, tx, size);
      && NoRepeats(r) && |r| <= size && r[|r| - 1] == tx
      && (forall x :: x in r ==> x in seen || x == tx)
      && (forall x :: x in seen && x !in r ==> |seen| == size && tx !in seen && x == seen[0])
  {
    DropFacts(seen, tx);
  }

  /** Where a push leaves everything: a transaction seen before moves to the back; else the first goes if it is full. */
  lemma LruPushIs(seen: seq<Tx>, tx: Tx, size: nat, i: nat)
    requires NoRepeats(seen) && |seen| <= size && size > 0
    ensures i < |seen| && seen[i] == tx ==> LruPush(seen, tx, size) == seen[..i] + seen[i + 1..] + [tx]
    ensures tx !in seen ==> LruPush(seen, tx, size) == (if |seen| == size then seen[1..] else seen) + [tx]
  {
    if i < |seen| && seen[i] == tx {
      DropAt(seen, i);
    }
  }

  lemma {:induction false} DropAt(seen: seq<Tx>, i: nat)
    requires i < |seen| && NoRepeats(seen)
    ensures Drop(seen, seen[i]) == seen[..i] + seen[i + 1..]
  {
    if i == 0 {
      DropAbsent(seen[1..], seen[0]);
    } else {
      DropAt(seen[1..], i - 1);
      assert seen[..i] == [seen[0]] + seen[1..][..i - 1] && seen[i + 1..] == seen[1..][i..];
    }
  }

  lemma {:induction false} DropAbsent(seen: seq<Tx>, tx: Tx)
    requires tx !in seen
    ensures Drop(seen, tx) == seen
  {
    if seen != [] {
      DropAbsent(seen[1..], tx);
    }
  }

  function Txs(list: seq<Entry>): (r: seq<Tx>)
    ensures |r| == |list| && forall i :: 0 <= i < |list| ==> r[i] == list[i].tx
  {
    seq(|list|, i requires 0 <= i < |list| => list[i].tx)
  }

  /** The index names every listed transaction's element and nothing else; identities and transactions are distinct. */
  ghost predicate Indexed(list: seq<Entry>, index: map<Tx, nat>, next: nat)
  {
    && (forall i :: 0 <= i < |list| ==> list[i].id < next && list[i].tx in index && index[list[i].tx] == list[i].id)
    && (forall i, j :: 0 <= i < j < |list| ==> list[i].id != list[j].id && list[i].tx != list[j].tx)
    && (forall tx :: tx in index ==> Listed(list, tx))
  }

  ghost predicate Listed(list: seq<Entry>, tx: Tx)
  {
    exists i :: 0 <= i < |list| && list[i].tx == tx
  }

  function Without(list: seq<Entry>, i: nat): (r: seq<Entry>)
    requires i < |list|
    ensures |r| == |list| - 1
    ensures forall k :: 0 <= k < |r| ==> r[k] == if k < i then list[k] else list[k + 1]
  {
    list[..i] + list[i + 1..]
  }

  lemma IndexedWithout(list: seq<Entry>, index: map<Tx, nat>, next: nat, i: nat)
    requires Indexed(list, index, next) && i < |list|
    ensures Indexed(Without(list, i), index - {list[i].tx}, next)
    ensures Txs(Without(list, i)) == Txs(list)[..i] + Txs(list)[i + 1..]
  {
    hide Indexed;
    var r, index' := Without(list, i), index - {list[i].tx};
    forall k | 0 <= k < |r| ensures r[k].id < next && r[k].tx in index' && index'[r[k].tx] == r[k].id {
      EntryAt(list, index, next, if k < i then k else k + 1, i);
    }
    forall j, k | 0 <= j < k < |r| ensures r[j].id != r[k].id && r[j].tx != r[k].tx {
      EntryAt(list, index, next, if j < i then j else j + 1, if k < i then k else k + 1);
    }
    forall tx | tx in index' ensures Listed(r, tx) {
      var k := PlaceOf(list, index, next, tx);
      assert r[if k < i then k else k - 1] == list[k];
    }
    assert Indexed(r, index', next) by { IndexedIs(r, index', next); }
    assert Txs(r) == Txs(list)[..i] + Txs(list)[i + 1..];
  }

  lemma IndexedIs(list: seq<Entry>, index: map<Tx, nat>, next: nat)
    requires forall i :: 0 <= i < |list| ==> list[i].id < next && list[i].tx in index && index[list[i].tx] == list[i].id
    requires forall i, j :: 0 <= i < j < |list| ==> list[i].id != list[j].id && list[i].tx != list[j].tx
    requires forall tx :: tx in index ==> Listed(list, tx)
    ensures Indexed(list, index, next)
  {
  }

  lemma EntryAt(list: seq<Entry>, index: map<Tx, nat>, next: nat, i: nat, j: nat)
    requires Indexed(list, index, next) && i < |list| && j < |list|
    ensures list[i].id < next && list[i].tx in index && index[list[i].tx] == list[i].id
    ensures i != j ==> list[i].id != list[j].id && list[i].tx != list[j].tx
  {
  }

  lemma PlaceOf(list: seq<Entry>, index: map<Tx, nat>, next: nat, tx: Tx) returns (i: nat)
    requires Indexed(list, index, next) && tx in index
    ensures i < |list| && list[i].tx == tx && index[tx] == list[i].id
  {
    assert Listed(list, tx);
    i :| 0 <= i < |list| && list[i].tx == tx;
  }

  lemma IndexedPush(list: seq<Entry>, index: map<Tx, nat>, next: nat, e: Entry)
    requires Indexed(list, index, next) && e.tx !in index && e.id < next
    requires forall i :: 0 <= i < |list| ==> list[i].id != e.id
    ensures Indexed(list + [e], index[e.tx := e.id], next) && Txs(list + [e]) == Txs(list) + [e.tx]
  {
    var r, index' := list + [e], index[e.tx := e.id];
    forall k | 0 <= k < |r| ensures r[k].id < next && r[k].tx in index' && index'[r[k].tx] == r[k].id {
      assert k < |list| ==> r[k] == list[k];
    }
    forall j, k | 0 <= j < k < |r| ensures r[j].id != r[k].id && r[j].tx != r[k].tx {
      assert r[j] == list[j] && (k < |list| ==> r[k] == list[k]);
    }
    forall tx | tx in index' ensures Listed(r, tx) {
      if tx == e.tx {
        assert r[|list|].tx == tx;
      } else {
        assert Listed(list, tx);
        var k :| 0 <= k < |list| && list[k].tx == tx;
        assert r[k] == list[k];
      }
    }
  }

  lemma IndexedMore(list: seq<Entry>, index: map<Tx, nat>, next: nat)
    requires Indexed(list, index, next)
    ensures Indexed(list, index, next + 1) && forall i :: 0 <= i < |list| ==> list[i].id != next
  {
  }

  lemma IndexedFacts(list: seq<Entry>, index: map<Tx, nat>, next: nat)
    requires Indexed(list, index, next)
    ensures NoRepeats(Txs(list)) && forall tx :: tx in index <==> tx in Txs(list)
    ensures forall tx :: tx in index ==> exists i :: 0 <= i < |list| && list[i].id == index[tx] && list[i].tx == tx
  {
    forall tx | tx in index
        ensures tx in Txs(list) && exists i :: 0 <= i < |list| && list[i].id == index[tx] && list[i].tx == tx {
      assert Listed(list, tx);
      var i :| 0 <= i < |list| && list[i].tx == tx;
      assert Txs(list)[i] == tx;
    }
  }

  function Position(list: seq<Entry>, id: nat): (i: nat)
    requires exists i :: 0 <= i < |list| && list[i].id == id
    ensures i < |list| && list[i].id == id
  {
    if list[0].id == id then 0
    else
      assert exists i :: 0 <= i < |list[1..]| && list[1..][i].id == id by {
        var i :| 0 <= i < |list| && list[i].id == id;
        assert list[1..][i - 1].id == id;
      }
      1 + Position(list[1..], id)
  }

  class MapTxCache {
    const size: nat
    var cacheMap: map<Tx, nat>
    var list: seq<Entry>
    var nextId: nat

    /** The map and the list hold the same transactions, each once. */
    ghost predicate Valid()
      reads this
    {
      size > 0 && |list| <= size && Indexed(list, cacheMap, nextId)
    }

    function Seen(): seq<Tx>
      reads this
    {
      Txs(list)
    }

    constructor (size: nat)
      requires size > 0
      ensures Valid() && Seen() == [] && this.size == size
    {
      this.size, cacheMap, list, nextId := size, map[], [], 0;
    }

    /** New unless seen; either way it becomes the most recent. */
    method Push(tx: Tx) returns (isNew: bool)
      requires Valid()
      modifies this
      ensures Valid() && Seen() == LruPush(old(Seen()), tx, size) && (isNew <==> tx !in old(Seen()))
    {
      IndexedFacts(list, cacheMap, nextId);
      hide Indexed;
      if tx in cacheMap {
        var i := Place(tx);
        DropAt(Seen(), i);
        MoveToBack(i);
        return false;
      }
      if |list| >= size {
        PopFront();
      }
      PushBack(tx);
      return true;
    }

    method Place(tx: Tx) returns (i: nat)
      requires Valid() && tx in cacheMap
      ensures i < |list| && list[i].tx == tx
    {
      hide Indexed;
      ghost var k := PlaceOf(list, cacheMap, nextId, tx);
      i := Position(list, cacheMap[tx]);
      EntryAt(list, cacheMap, nextId, i, k);
    }

    method MoveToBack(i: nat)
      requires Valid() && i < |list|
      modifies this`list
      ensures Valid() && Seen() == old(Seen())[..i] + old(Seen())[i + 1..] + [old(Seen())[i]]
    {
      var moved := list[i];
      MovedIsFree(i);
      IndexedWithout(list, cacheMap, nextId, i);
      hide Indexed;
      IndexedPush(Without(list, i), cacheMap - {moved.tx}, nextId, moved);
      assert (cacheMap - {moved.tx})[moved.tx := moved.id] == cacheMap;
      list := Without(list, i) + [moved];
    }

    lemma MovedIsFree(i: nat)
      requires Valid() && i < |list|
      ensures list[i].id < nextId && list[i].tx in cacheMap && cacheMap[list[i].tx] == list[i].id
      ensures forall k :: 0 <= k < |list| - 1 ==> Without(list, i)[k].id != list[i].id
    {
      forall k | 0 <= k < |list| - 1 ensures Without(list, i)[k].id != list[i].id {
        assert Without(list, i)[k] == list[if k < i then k else k + 1];
      }
    }

    method PopFront()
      requires Valid() && |list| > 0
      modifies this`list, this`cacheMap
      ensures Valid() && |list| == |old(list)| - 1 && Seen() == old(Seen())[1..]
      ensures cacheMap == old(cacheMap) - {old(list)[0].tx}
    {
      IndexedWithout(list, cacheMap, nextId, 0);
      hide Indexed;
      assert list[0..0] + list[1..] == list[1..];
      cacheMap := cacheMap - {list[0].tx};
      list := list[1..];
    }

    method PushBack(tx: Tx)
      requires Valid() && tx !in cacheMap && |list| < size
      modifies this
      ensures Valid() && Seen() == old(Seen()) + [tx]
    {
      IndexedMore(list, cacheMap, nextId);
      IndexedPush(list, cacheMap, nextId + 1, Entry(nextId, tx));
      hide Indexed;
      list := list + [Entry(nextId, tx)];
      cacheMap := cacheMap[tx := nextId];
      nextId := nextId + 1;
    }

    method Remove(tx: Tx)
      requires Valid()
      modifies this
      ensures Valid() && Seen() == Drop(old(Seen()), tx)
    {
      hide Indexed, Drop, NoRepeats;
      IndexedFacts(list, cacheMap, nextId);
      if tx !in cacheMap {
        DropAbsent(Seen(), tx);
        return;
      }
      var i := Place(tx);
      DropAt(Seen(), i);
      IndexedWithout(list, cacheMap, nextId, i);
      cacheMap := cacheMap - {tx};
      list := Without(list, i);
    }
  }

  // ---- the pool ----

  datatype Config = Config(size: nat, maxTxsBytes: nat, maxTxBytes: nat, recheck: bool, keepInvalidTxsInCache: bool)

  datatype Elem = Elem(id: nat, tx: Tx, gas: int, height: int)

  function Bytes(list: seq<Elem>): nat
  {
    if list == [] then 0 else Bytes(list[..|list| - 1]) + |list[|list| - 1].tx|
  }

  lemma {:induction false} BytesSplit(a: seq<Elem>, b: seq<Elem>)
    ensures Bytes(a + b) == Bytes(a) + Bytes(b)
  {
    if b == [] {
      assert a + b == a;
    } else {
      BytesSplit(a, b[..|b| - 1]);
      assert (a + b)[..|a + b| - 1] == a + b[..|b| - 1];
    }
  }

  /** Bytes, gas and wire size of one element; with those of a list put together they give any list's. */
  lemma SizesOfOne(e: Elem)
    ensures Bytes([e]) == |e.tx| && Gas([e]) == e.gas && ProtoSize([e]) == 1 + VarintSize(|e.tx|) + |e.tx|
    ensures Bytes([]) == 0 && Gas([]) == 0 && ProtoSize([]) == 0
  {
    assert [e][..0] == [];
  }

  lemma {:induction false} SizesSplit(a: seq<Elem>, b: seq<Elem>)
    ensures Gas(a + b) == Gas(a) + Gas(b) && ProtoSize(a + b) == ProtoSize(a) + ProtoSize(b)
  {
    if b == [] {
      assert a + b == a;
    } else {
      SizesSplit(a, b[..|b| - 1]);
      assert (a + b)[..|a + b| - 1] == a + b[..|b| - 1];
    }
  }

  function Power128(k: nat): nat { if k == 0 then 1 else 128 * Power128(k - 1) }

  /** A length takes as many bytes as it has digits to the base of 128. */
  lemma {:induction false} VarintDigits(n: nat)
    ensures VarintSize(n) >= 1 && n < Power128(VarintSize(n))
    ensures n > 0 ==> Power128(VarintSize(n) - 1) <= n
  {
    if n >= 128 {
      VarintDigits(n / 128);
    } else {
      assert Power128(1) == 128 * Power128(0);
    }
  }

  /** The list without the element at a position. */
  function Cut(list: seq<Elem>, i: nat): (r: seq<Elem>)
    requires i < |list|
    ensures |r| == |list| - 1 && forall k :: 0 <= k < |r| ==> r[k] == if k < i then list[k] else list[k + 1]
  {
    list[..i] + list[i + 1..]
  }

  lemma BytesCut(list: seq<Elem>, i: nat)
    requires i < |list|
    ensures Bytes(Cut(list, i)) == Bytes(list) - |list[i].tx|
  {
    assert list == list[..i] + ([list[i]] + list[i + 1..]);
    BytesSplit(list[..i], [list[i]] + list[i + 1..]);
    BytesSplit([list[i]], list[i + 1..]);
    BytesSplit(list[..i], list[i + 1..]);
    assert [list[i]][..0] == [];
  }

  /** Identities are distinct, and the index holds only listed elements, under their own transaction. */
  ghost predicate Linked(list: seq<Elem>, index: map<Tx, nat>, next: nat)
  {
    && (forall i :: 0 <= i < |list| ==> list[i].id < next)
    && (forall i, j :: 0 <= i < j < |list| ==> list[i].id != list[j].id)
    && (forall tx :: tx in index ==> InList(list, index[tx], tx))
  }

  ghost predicate InList(list: seq<Elem>, id: nat, tx: Tx)
  {
    exists i :: 0 <= i < |list| && list[i].id == id && list[i].tx == tx
  }

  predicate HasId(list: seq<Elem>, id: nat)
  {
    exists i :: 0 <= i < |list| && list[i].id == id
  }

  function Find(list: seq<Elem>, id: nat): (i: nat)
    requires HasId(list, id)
    ensures i < |list| && list[i].id == id
  {
    if list[0].id == id then 0
    else
      assert HasId(list[1..], id) by {
        var i :| 0 <= i < |list| && list[i].id == id;
        assert list[1..][i - 1].id == id;
      }
      1 + Find(list[1..], id)
  }

  lemma LinkedCut(list: seq<Elem>, index: map<Tx, nat>, next: nat, i: nat)
    requires Linked(list, index, next) && i < |list|
    ensures Linked(Cut(list, i), index - {list[i].tx}, next)
  {
    var r, index' := Cut(list, i), index - {list[i].tx};
    assert forall k :: 0 <= k < |r| ==> r[k] == list[if k < i then k else k + 1];
    forall tx | tx in index' ensures InList(r, index'[tx], tx) {
      assert InList(list, index[tx], tx);
      var k :| 0 <= k < |list| && list[k].id == index[tx] && list[k].tx == tx;
      assert r[if k < i then k else k - 1] == list[k];
    }
  }

  lemma LinkedPush(list: seq<Elem>, index: map<Tx, nat>, next: nat, e: Elem)
    requires Linked(list, index, next) && e.id == next
    ensures Linked(list + [e], index[e.tx := e.id], next + 1)
  {
    var r, index' := list + [e], index[e.tx := e.id];
    assert forall k :: 0 <= k < |list| ==> r[k] == list[k];
    forall tx | tx in index' ensures InList(r, index'[tx], tx) {
      if tx == e.tx {
        assert r[|list|] == e;
      } else {
        assert InList(list, index[tx], tx);
        var k :| 0 <= k < |list| && list[k].id == index[tx] && list[k].tx == tx;
        assert r[k] == list[k];
      }
    }
  }

  // ---- reaping ----

  /** Bytes of a number in the wire encoding: seven bits to a byte. */
  function VarintSize(n: nat): nat { if n < 128 then 1 else 1 + VarintSize(n / 128) }

  /** Size of a block's data with the transactions of a list: each with a tag byte and its length. */
  function ProtoSize(list: seq<Elem>): nat
  {
    if list == [] then 0
    else
      var last := list[|list| - 1].tx;
      ProtoSize(list[..|list| - 1]) + 1 + VarintSize(|last|) + |last|
  }

  function Gas(list: seq<Elem>): int
  {
    if list == [] then 0 else Gas(list[..|list| - 1]) + list[|list| - 1].gas
  }

  predicate Fits(list: seq<Elem>, maxBytes: int, maxGas: int)
  {
    (maxBytes > -1 ==> ProtoSize(list) <= maxBytes) && (maxGas > -1 ==> Gas(list) <= maxGas)
  }

  /** The longest run from the front all of whose own prefixes fit. */
  ghost predicate LongestFit(list: seq<Elem>, n: nat, maxBytes: int, maxGas: int)
  {
    && n <= |list|
    && (forall k :: 0 < k <= n ==> Fits(list[..k], maxBytes, maxGas))
    && (n < |list| ==> !Fits(list[..n + 1], maxBytes, maxGas))
  }

  lemma LongestFitUnique(list: seq<Elem>, n: nat, m: nat, maxBytes: int, maxGas: int)
    requires LongestFit(list, n, maxBytes, maxGas) && LongestFit(list, m, maxBytes, maxGas)
    ensures n == m
  {
  }

  datatype Event =
    | Submitted(tx: Tx, preCheckOk: bool)
    | Answered(tx: Tx, good: bool, gas: int)
    | Block(height: int, block: seq<(Tx, bool)>, stillGood: Tx -> bool)

  class Mempool {
    const config: Config
    const cache: MapTxCache
    var txs: seq<Elem>
    var txsMap: map<Tx, nat>
    var txsBytes: int
    var nextId: nat
    var height: int
    var recheckCursor: Option<nat>
    var recheckEnd: Option<nat>

    /** The byte count is the sum of the listed sizes, both limits hold, and the index points into the list. */
    ghost predicate Sound()
      reads this, cache
    {
      && cache.Valid()
      && txsBytes == Bytes(txs)
      && |txs| <= config.size && txsBytes <= config.maxTxsBytes
      && Linked(txs, txsMap, nextId)
    }

    /** And so does the cursor of a recheck. */
    ghost predicate Valid()
      reads this, cache
    {
      Sound() && (recheckCursor.Some? ==> HasId(txs, recheckCursor.value))
    }

    constructor (config: Config, cache: MapTxCache)
      requires cache.Valid()
      ensures Valid() && txs == [] && this.config == config && this.cache == cache && recheckCursor.None?
    {
      this.config, this.cache := config, cache;
      txs, txsMap, txsBytes, nextId, height, recheckCursor, recheckEnd := [], map[], 0, 0, 0, None, None;
    }

    /** There is no room for one more transaction of this size. */
    predicate IsFull(txSize: nat)
      reads this
    {
      |txs| >= config.size || txSize + txsBytes > config.maxTxsBytes
    }

    /** A transaction goes to the application unless it is too much, too long, refused, or seen already. */
    method CheckTx(tx: Tx, preCheckOk: bool) returns (sent: bool)
      requires Valid()
      modifies cache
      ensures Valid()
      ensures var wanted := |txs| + 1 <= config.size && Bytes(txs) + |tx| <= config.maxTxsBytes
                            && |tx| <= config.maxTxBytes && preCheckOk;
              && (sent <==> wanted && tx !in old(cache.Seen()))
              && cache.Seen() == if wanted then LruPush(old(cache.Seen()), tx, cache.size) else old(cache.Seen())
    {
      if IsFull(|tx|) || |tx| > config.maxTxBytes || !preCheckOk {
        return false;
      }
      sent := cache.Push(tx);
    }

    method AddTx(tx: Tx, gas: int)
      requires Valid() && !IsFull(|tx|)
      modifies this`txs, this`txsMap, this`txsBytes, this`nextId
      ensures Valid() && txs == old(txs) + [Elem(old(nextId), tx, gas, height)]
      ensures txsMap == old(txsMap)[tx := old(nextId)]
    {
      var e := Elem(nextId, tx, gas, height);
      BytesSplit(txs, [e]);
      assert [e][..0] == [];
      LinkedPush(txs, txsMap, nextId, e);
      StillThere(txs, e, recheckCursor);
      hide Linked, HasId, Bytes, Indexed;
      txs := txs + [e];
      txsMap := txsMap[tx := nextId];
      txsBytes := txsBytes + |tx|;
      nextId := nextId + 1;
    }

    /** The application's first answer: a good transaction is listed if there is still room. */
    method ResCbFirstTime(tx: Tx, good: bool, gas: int)
      requires Valid()
      modifies this, cache
      ensures Valid() && recheckCursor == old(recheckCursor)
      ensures var room := |old(txs)| + 1 <= config.size && Bytes(old(txs)) + |tx| <= config.maxTxsBytes;
              && txs == (if good && room then old(txs) + [Elem(old(nextId), tx, gas, height)] else old(txs))
              && txsMap == (if good && room then old(txsMap)[tx := old(nextId)] else old(txsMap))
              && cache.Seen() ==
                   if (good && !room) || (!good && !config.keepInvalidTxsInCache) then Drop(old(cache.Seen()), tx)
                   else old(cache.Seen())
      ensures height == old(height)
    {
      hide Linked, Drop, Indexed;
      if good {
        if IsFull(|tx|) {
          cache.Remove(tx);
          return;
        }
        AddTx(tx, gas);
      } else if !config.keepInvalidTxsInCache {
        cache.Remove(tx);
      }
    }

    /** Take out a listed element. */
    method RemoveTx(i: nat, removeFromCache: bool)
      requires Sound() && i < |txs|
      modifies this`txs, this`txsMap, this`txsBytes, cache
      ensures Sound() && txs == Cut(old(txs), i) && txsMap == old(txsMap) - {old(txs)[i].tx}
      ensures cache.Seen() == if removeFromCache then Drop(old(cache.Seen()), old(txs)[i].tx) else old(cache.Seen())
    {
      hide Drop, Indexed;
      var tx := txs[i].tx;
      BytesCut(txs, i);
      LinkedCut(txs, txsMap, nextId, i);
      hide Linked;
      txs := Cut(txs, i);
      txsMap := txsMap - {tx};
      txsBytes := txsBytes - |tx|;
      if removeFromCache {
        cache.Remove(tx);
      }
    }

    /** One transaction of a block: remember or forget it, and take it out of the pool. */
    method Commit(tx: Tx, good: bool)
      requires Valid() && recheckCursor.None?
      modifies this`txs, this`txsMap, this`txsBytes, cache
      ensures Valid() && (forall e :: e in txs ==> e in old(txs))
      ensures tx in old(txsMap) ==> !HasId(txs, old(txsMap)[tx])
      ensures Complete(old(txs), old(txsMap)) ==> Complete(txs, txsMap) && txs == Filter(old(txs), {tx})
      ensures (txs, txsMap) == TakeOut(old(txs), old(txsMap), tx)
      ensures cache.Seen() == Remember(old(cache.Seen()), tx, good, cache.size, config.keepInvalidTxsInCache)
    {
      hide LruPush, Drop, Indexed, Filter;
      if good {
        var _ := cache.Push(tx);
      } else if !config.keepInvalidTxsInCache {
        cache.Remove(tx);
      }
      CommitFacts(txs, txsMap, nextId, tx);
      hide Linked, HasId, Complete;
      if tx in txsMap {
        var at := Find(txs, txsMap[tx]);
        RemoveTx(at, false);
      }
    }

    /** A block: take its transactions out, and start rechecking what is left. */
    method Update(newHeight: int, block: seq<(Tx, bool)>)
      requires Valid() && recheckCursor.None?
      modifies this, cache
      ensures Valid() && height == newHeight
      ensures forall e :: e in txs ==> e in old(txs)
      ensures Complete(old(txs), old(txsMap)) ==> Complete(txs, txsMap) && txs == Filter(old(txs), Members(block))
      ensures (txs, txsMap) == TakeBlock(old(txs), old(txsMap), block)
      ensures cache.Seen() == RememberBlock(old(cache.Seen()), block, cache.size, config.keepInvalidTxsInCache)
      ensures if config.recheck && |txs| > 0
          then recheckCursor == Some(txs[0].id) && recheckEnd == Some(txs[|txs| - 1].id)
          else recheckCursor.None?
    {
      hide HasId, Filter, Complete, Remember, TakeOut, Linked, Indexed, Bytes;
      height := newHeight;
      assert block[..0] == [];
      FilterNothing(txs);
      assert Members(block[..0]) == {};
      for i := 0 to |block|
        invariant Valid() && recheckCursor.None? && height == newHeight
        invariant forall e :: e in txs ==> e in old(txs)
        invariant (txs, txsMap) == TakeBlock(old(txs), old(txsMap), block[..i])
        invariant cache.Seen() ==
                    RememberBlock(old(cache.Seen()), block[..i], cache.size, config.keepInvalidTxsInCache)
        invariant Complete(old(txs), old(txsMap)) ==>
                    Complete(txs, txsMap) && txs == Filter(old(txs), Members(block[..i]))
      {
        assert block[..i + 1][..i] == block[..i];
        Commit(block[i].0, block[i].1);
        MembersStep(block, i);
        FilterMore(old(txs), Members(block[..i]), block[i].0);
      }
      assert block[..|block|] == block;
      if |txs| > 0 && config.recheck {
        FirstHasId(txs);
        recheckCursor, recheckEnd := Some(txs[0].id), Some(txs[|txs| - 1].id);
      }
    }

    /** An answer to a recheck: a transaction no longer good goes, and the cursor moves on. */
    method ResCbRecheck(tx: Tx, good: bool) returns (expected: bool)
      requires Valid() && recheckCursor.Some?
      modifies this`txs, this`txsMap, this`txsBytes, this`recheckCursor, cache
      ensures var i := Find(old(txs), old(recheckCursor).value);
        && (expected <==> tx == old(txs)[i].tx)
        && (expected ==> Valid() && txs == if good then old(txs) else Cut(old(txs), i))
        && (expected ==>
              recheckCursor ==
              if old(recheckCursor) == recheckEnd || i + 1 == |old(txs)| then None
              else Some(old(txs)[i + 1].id))
        && (!expected ==> txs == old(txs) && recheckCursor == old(recheckCursor))
        && txsMap == (if expected && !good then old(txsMap) - {tx} else old(txsMap))
        && cache.Seen() ==
             if expected && !good && !config.keepInvalidTxsInCache then Drop(old(cache.Seen()), tx)
             else old(cache.Seen())
    {
      hide Linked, Bytes, Indexed, LruPush, Drop;
      var i := Find(txs, recheckCursor.value);
      if tx != txs[i].tx {
        return false;
      }
      var next := if recheckCursor == recheckEnd || i + 1 == |txs| then None else Some(txs[i + 1].id);
      NextHasId(txs, i);
      hide HasId;
      if !good {
        RemoveTx(i, !config.keepInvalidTxsInCache);
      }
      recheckCursor := next;
      return true;
    }

    /** Answers for all, in order: exactly the transactions still good are kept, in order. */
    method RecheckAll(answers: seq<bool>)
      requires Valid() && |answers| == |txs| > 0
      requires recheckCursor == Some(txs[0].id) && recheckEnd == Some(txs[|txs| - 1].id)
      modifies this`txs, this`txsMap, this`txsBytes, this`recheckCursor, cache
      ensures Valid() && recheckCursor.None? && txs == Good(old(txs), answers)
    {
      ghost var all := txs;
      StartRecheck(all, answers, nextId, txsMap);
      hide Sound, HasId, Distinct, Rechecked;
      for k := 0 to |answers|
        invariant Valid() && |all| == |answers| && Distinct(all) && recheckEnd == Some(all[|all| - 1].id)
        invariant Rechecked(all, answers, k, txs, recheckCursor)
      {
        RecheckStep(all, answers, k);
      }
      EndRecheck(all, answers, txs, recheckCursor);
    }

    method RecheckStep(ghost all: seq<Elem>, answers: seq<bool>, k: nat)
      requires Valid() && |all| == |answers| && k < |answers| && Distinct(all) && recheckEnd == Some(all[|all| - 1].id)
      requires Rechecked(all, answers, k, txs, recheckCursor)
      modifies this`txs, this`txsMap, this`txsBytes, this`recheckCursor, cache
      ensures Valid() && Rechecked(all, answers, k + 1, txs, recheckCursor)
    {
      hide Sound;
      StepRecheck(all, answers, k, txs, recheckCursor);
      hide Distinct, Good, Rechecked;
      var at := Find(txs, recheckCursor.value);
      var expected := ResCbRecheck(txs[at].tx, answers[k]);
    }

    /** Every run keeps the byte count exact and both limits. */
    method Run(events: seq<Event>)
      requires Valid() && recheckCursor.None?
      modifies this, cache
      ensures Valid() && recheckCursor.None?
      ensures txsBytes == Bytes(txs) && |txs| <= config.size && txsBytes <= config.maxTxsBytes
    {
      hide Linked, HasId, Indexed, LruPush, Drop, Filter, Complete, Good;
      for i := 0 to |events|
        invariant Valid() && recheckCursor.None?
      {
        match events[i] {
          case Submitted(tx, preCheckOk) =>
            var _ := CheckTx(tx, preCheckOk);
          case Answered(tx, good, gas) =>
            ResCbFirstTime(tx, good, gas);
          case Block(newHeight, block, stillGood) =>
            Update(newHeight, block);
            if recheckCursor.Some? {
              RecheckAll(seq(|txs|, k requires 0 <= k < |txs| reads this => stillGood(txs[k].tx)));
            }
        }
      }
    }

    /** The longest prefix of the list within the limits. */
    method ReapMaxBytesMaxGas(maxBytes: int, maxGas: int) returns (n: nat, reaped: seq<Tx>)
      ensures LongestFit(txs, n, maxBytes, maxGas)
      ensures |reaped| == n && forall i :: 0 <= i < n ==> reaped[i] == txs[i].tx
    {
      n, reaped := 0, [];
      var totalGas := 0;
      while n < |txs|
        invariant n <= |txs| && totalGas == Gas(txs[..n])
        invariant forall k :: 0 < k <= n ==> Fits(txs[..k], maxBytes, maxGas)
        invariant |reaped| == n && forall i :: 0 <= i < n ==> reaped[i] == txs[i].tx
      {
        assert txs[..n + 1][..n] == txs[..n];
        if maxBytes > -1 && ProtoSize(txs[..n + 1]) > maxBytes {
          return;
        }
        var newTotalGas := totalGas + txs[n].gas;
        if maxGas > -1 && newTotalGas > maxGas {
          return;
        }
        totalGas := newTotalGas;
        reaped := reaped + [txs[n].tx];
        n := n + 1;
      }
    }
  }

  /** Take the indexed element of a transaction out of the list and the index. */
  function TakeOut(list: seq<Elem>, index: map<Tx, nat>, tx: Tx): (seq<Elem>, map<Tx, nat>)
  {
    if tx in index && HasId(list, index[tx]) then (Cut(list, Find(list, index[tx])), index - {tx}) else (list, index)
  }

  /** Take out the transactions of a block, one after the other. */
  function TakeBlock(list: seq<Elem>, index: map<Tx, nat>, block: seq<(Tx, bool)>): (seq<Elem>, map<Tx, nat>)
  {
    if block == [] then (list, index)
    else
      var r := TakeBlock(list, index, block[..|block| - 1]);
      TakeOut(r.0, r.1, block[|block| - 1].0)
  }

  /** The cache remembers a good transaction of a block, and forgets an invalid one unless told to keep it. */
  function Remember(seen: seq<Tx>, tx: Tx, good: bool, size: nat, keepInvalid: bool): seq<Tx>
  {
    if good then LruPush(seen, tx, size) else if keepInvalid then seen else Drop(seen, tx)
  }

  function RememberBlock(seen: seq<Tx>, block: seq<(Tx, bool)>, size: nat, keepInvalid: bool): seq<Tx>
  {
    if block == [] then seen
    else
      var (tx, good) := block[|block| - 1];
      Remember(RememberBlock(seen, block[..|block| - 1], size, keepInvalid), tx, good, size, keepInvalid)
  }

  /** After a block each of its transactions is last known by its last result there. */
  lemma {:induction false} BlockRemembered(seen: seq<Tx>, block: seq<(Tx, bool)>, size: nat, keepInvalid: bool, tx: Tx)
    requires NoRepeats(seen) && |seen| <= size && size > 0
    ensures var r := RememberBlock(seen, block, size, keepInvalid);
            && NoRepeats(r) && |r| <= size
            && (block != [] && block[|block| - 1] == (tx, true) ==> tx in r)
            && (block != [] && block[|block| - 1] == (tx, false) && !keepInvalid ==> tx !in r)
            && (tx in r ==> tx in seen || (tx, true) in block)
  {
    if block != [] {
      var front := block[..|block| - 1];
      BlockRemembered(seen, front, size, keepInvalid, tx);
      var r := RememberBlock(seen, front, size, keepInvalid);
      var (last, good) := block[|block| - 1];
      DropFacts(r, last);
      LruPushFacts(r, last, size);
      assert block == front + [(last, good)];
      hide LruPush, Drop;
    }
  }

  /** Every listed transaction is indexed, so none is listed twice. */
  ghost predicate Complete(list: seq<Elem>, index: map<Tx, nat>)
  {
    forall i :: 0 <= i < |list| ==> list[i].tx in index && index[list[i].tx] == list[i].id
  }

  /** The list without the given transactions. */
  function Filter(list: seq<Elem>, gone: set<Tx>): seq<Elem>
  {
    if list == [] then []
    else if list[0].tx in gone then Filter(list[1..], gone)
    else [list[0]] + Filter(list[1..], gone)
  }

  function Members(block: seq<(Tx, bool)>): set<Tx>
  {
    set i | 0 <= i < |block| :: block[i].0
  }

  lemma MembersStep(block: seq<(Tx, bool)>, i: nat)
    requires i < |block|
    ensures Members(block[..i + 1]) == Members(block[..i]) + {block[i].0}
  {
    var up, low := block[..i + 1], block[..i];
    forall tx ensures tx in Members(up) <==> tx in Members(low) + {block[i].0} {
      if tx in Members(low) {
        var k :| 0 <= k < i && low[k].0 == tx;
        assert up[k].0 == tx;
      }
      if tx in Members(up) {
        var k :| 0 <= k < i + 1 && up[k].0 == tx;
        assert k < i ==> low[k].0 == tx;
      }
      assert up[i].0 == block[i].0;
    }
  }

  lemma {:induction false} FilterNothing(list: seq<Elem>)
    ensures Filter(list, {}) == list
  {
    if list != [] {
      FilterNothing(list[1..]);
    }
  }

  lemma {:induction false} FilterMore(list: seq<Elem>, gone: set<Tx>, tx: Tx)
    ensures Filter(Filter(list, gone), {tx}) == Filter(list, gone + {tx})
  {
    if list != [] {
      FilterMore(list[1..], gone, tx);
      var rest := Filter(list[1..], gone);
      assert list[0].tx !in gone ==> ([list[0]] + rest)[1..] == rest;
    }
  }

  lemma {:induction false} FilterAbsent(list: seq<Elem>, tx: Tx)
    requires forall i :: 0 <= i < |list| ==> list[i].tx != tx
    ensures Filter(list, {tx}) == list
  {
    if list != [] {
      FilterAbsent(list[1..], tx);
    }
  }

  lemma {:induction false} FilterOne(list: seq<Elem>, i: nat)
    requires i < |list| && forall j :: 0 <= j < |list| && j != i ==> list[j].tx != list[i].tx
    ensures Filter(list, {list[i].tx}) == Cut(list, i)
  {
    if i == 0 {
      FilterAbsent(list[1..], list[0].tx);
      assert Cut(list, 0) == list[1..];
    } else {
      assert list[1..][i - 1] == list[i];
      FilterOne(list[1..], i - 1);
      assert Cut(list, i) == [list[0]] + Cut(list[1..], i - 1);
    }
  }

  /** What taking out the indexed element of a transaction amounts to. */
  lemma CommitFacts(list: seq<Elem>, index: map<Tx, nat>, next: nat, tx: Tx)
    requires Linked(list, index, next)
    ensures tx in index ==> HasId(list, index[tx]) && list[Find(list, index[tx])].tx == tx
    ensures tx in index ==> var i := Find(list, index[tx]);
      && (forall e :: e in Cut(list, i) ==> e in list)
      && !HasId(Cut(list, i), index[tx])
      && (Complete(list, index) ==> Complete(Cut(list, i), index - {tx}) && Cut(list, i) == Filter(list, {tx}))
    ensures tx !in index && Complete(list, index) ==> Filter(list, {tx}) == list
  {
    if tx in index {
      IndexedIsListed(list, index, next, tx);
      CutFacts(list, index, next, Find(list, index[tx]));
    } else if Complete(list, index) {
      FilterAbsent(list, tx);
    }
  }

  lemma IndexedIsListed(list: seq<Elem>, index: map<Tx, nat>, next: nat, tx: Tx)
    requires Linked(list, index, next) && tx in index
    ensures HasId(list, index[tx]) && list[Find(list, index[tx])].tx == tx
  {
    assert InList(list, index[tx], tx);
    var k :| 0 <= k < |list| && list[k].id == index[tx] && list[k].tx == tx;
    assert HasId(list, index[tx]);
    assert Find(list, index[tx]) == k;
  }

  lemma CutFacts(list: seq<Elem>, index: map<Tx, nat>, next: nat, i: nat)
    requires Linked(list, index, next) && i < |list|
    ensures (forall e :: e in Cut(list, i) ==> e in list) && !HasId(Cut(list, i), list[i].id)
    ensures Complete(list, index) ==>
              Complete(Cut(list, i), index - {list[i].tx}) && Cut(list, i) == Filter(list, {list[i].tx})
  {
    hide Linked, Complete, Filter;
    var r := Cut(list, i);
    forall k | 0 <= k < |r| ensures r[k] in list && r[k].id != list[i].id {
      var j := if k < i then k else k + 1;
      assert r[k] == list[j];
      IdsDiffer(list, index, next, j, i);
    }
    if Complete(list, index) {
      CutComplete(list, index, next, i);
    }
  }

  lemma IdsDiffer(list: seq<Elem>, index: map<Tx, nat>, next: nat, j: nat, i: nat)
    requires Linked(list, index, next) && i < |list| && j < |list| && i != j
    ensures list[j].id != list[i].id
  {
  }

  lemma CutComplete(list: seq<Elem>, index: map<Tx, nat>, next: nat, i: nat)
    requires Linked(list, index, next) && i < |list| && Complete(list, index)
    ensures Complete(Cut(list, i), index - {list[i].tx}) && Cut(list, i) == Filter(list, {list[i].tx})
  {
    hide Linked, Filter, Complete;
    forall j | 0 <= j < |list| && j != i ensures list[j].tx != list[i].tx {
      CompleteAt(list, index, next, j, i);
    }
    FilterOne(list, i);
    var r, index' := Cut(list, i), index - {list[i].tx};
    forall k | 0 <= k < |r| ensures r[k].tx in index' && index'[r[k].tx] == r[k].id {
      CompleteAt(list, index, next, if k < i then k else k + 1, i);
    }
    CompleteIs(r, index');
  }

  lemma CompleteAt(list: seq<Elem>, index: map<Tx, nat>, next: nat, j: nat, i: nat)
    requires Linked(list, index, next) && Complete(list, index) && i < |list| && j < |list|
    ensures list[j].tx in index && index[list[j].tx] == list[j].id && (i != j ==> list[j].tx != list[i].tx)
  {
  }

  lemma CompleteIs(list: seq<Elem>, index: map<Tx, nat>)
    requires forall k :: 0 <= k < |list| ==> list[k].tx in index && index[list[k].tx] == list[k].id
    ensures Complete(list, index)
  {
  }

  lemma FirstHasId(list: seq<Elem>)
    requires |list| > 0
    ensures HasId(list, list[0].id)
  {
  }

  ghost predicate Distinct(list: seq<Elem>)
  {
    forall i, j :: 0 <= i < j < |list| ==> list[i].id != list[j].id
  }

  /** The elements whose answer is good. */
  function Good(list: seq<Elem>, answers: seq<bool>): seq<Elem>
    requires |list| == |answers|
  {
    if list == [] then []
    else
      var kept := Good(list[..|list| - 1], answers[..|list| - 1]);
      if answers[|list| - 1] then kept + [list[|list| - 1]] else kept
  }

  lemma {:induction false} GoodAreListed(list: seq<Elem>, answers: seq<bool>)
    requires |list| == |answers|
    ensures |Good(list, answers)| <= |list| && forall e :: e in Good(list, answers) ==> e in list
  {
    if list != [] {
      GoodAreListed(list[..|list| - 1], answers[..|list| - 1]);
    }
  }

  /** The elements kept by a recheck are those answered well, in order: one answer more keeps its element or not. */
  lemma GoodIs(list: seq<Elem>, answers: seq<bool>, e: Elem, good: bool)
    requires |list| == |answers|
    ensures Good([], []) == []
    ensures Good(list + [e], answers + [good]) == Good(list, answers) + if good then [e] else []
  {
    assert (list + [e])[..|list|] == list && (answers + [good])[..|list|] == answers;
  }

  lemma GoodStep(all: seq<Elem>, answers: seq<bool>, k: nat)
    requires |all| == |answers| && k < |all|
    ensures var kept := Good(all[..k], answers[..k]);
      && Good(all[..k + 1], answers[..k + 1]) == (if answers[k] then kept + [all[k]] else kept)
      && kept + all[k..] == kept + [all[k]] + all[k + 1..]
  {
    assert all[..k + 1][..k] == all[..k] && answers[..k + 1][..k] == answers[..k];
    assert all[k..] == [all[k]] + all[k + 1..];
  }

  /** Behind the elements kept so far stands the one the cursor is at. */
  lemma CursorAt(all: seq<Elem>, kept: seq<Elem>, k: nat, list: seq<Elem>)
    requires k < |all| && list == kept + all[k..] && Distinct(all)
    requires forall e :: e in kept ==> e in all[..k]
    ensures HasId(list, all[k].id) && Find(list, all[k].id) == |kept| && list[|kept|] == all[k]
    ensures Cut(list, |kept|) == kept + all[k + 1..] && (k + 1 < |all| ==> list[|kept| + 1] == all[k + 1])
    ensures |kept| + 1 == |list| <==> k + 1 == |all|
  {
    assert list[|kept|] == all[k];
    assert HasId(list, all[k].id);
    forall i | 0 <= i < |list| && i != |kept| ensures list[i].id != all[k].id {
      if i < |kept| {
        assert list[i] == kept[i] && kept[i] in all[..k];
        var j :| 0 <= j < k && all[..k][j] == kept[i];
        assert all[j].id != all[k].id;
      } else {
        assert list[i] == all[k + (i - |kept|)];
      }
    }
    assert all[k..][1..] == all[k + 1..];
  }

  /** After `k` answers: those kept, then those not asked about yet, with the cursor at the first of them. */
  ghost predicate Rechecked(all: seq<Elem>, answers: seq<bool>, k: nat, list: seq<Elem>, cursor: Option<nat>)
  {
    && |all| == |answers| && k <= |all|
    && list == Good(all[..k], answers[..k]) + all[k..]
    && cursor == if k == |all| then None else Some(all[k].id)
  }

  lemma StartRecheck(all: seq<Elem>, answers: seq<bool>, next: nat, index: map<Tx, nat>)
    requires |all| == |answers| > 0 && Linked(all, index, next)
    ensures Distinct(all) && Rechecked(all, answers, 0, all, Some(all[0].id))
  {
    assert all[..0] == [] && all[0..] == all;
  }

  lemma EndRecheck(all: seq<Elem>, answers: seq<bool>, list: seq<Elem>, cursor: Option<nat>)
    requires Rechecked(all, answers, |answers|, list, cursor)
    ensures cursor.None? && |all| == |answers| && list == Good(all, answers)
  {
    assert all[..|all|] == all && all[|all|..] == [] && answers[..|all|] == answers;
  }

  lemma StepRecheck(all: seq<Elem>, answers: seq<bool>, k: nat, list: seq<Elem>, cursor: Option<nat>)
    requires Rechecked(all, answers, k, list, cursor) && k < |all| && Distinct(all)
    ensures cursor.Some? && HasId(list, cursor.value)
    ensures var i := Find(list, cursor.value);
      var next := if cursor == Some(all[|all| - 1].id) || i + 1 == |list| then None else Some(list[i + 1].id);
      Rechecked(all, answers, k + 1, if answers[k] then list else Cut(list, i), next)
  {
    var kept := Good(all[..k], answers[..k]);
    GoodStep(all, answers, k);
    GoodAreListed(all[..k], answers[..k]);
    CursorAt(all, kept, k, list);
    assert k + 1 < |all| ==> all[k].id != all[|all| - 1].id;
    assert kept + [all[k]] + all[k + 1..] == list;
  }

  lemma NextHasId(list: seq<Elem>, i: nat)
    requires i < |list|
    ensures i + 1 < |list| ==> HasId(list, list[i + 1].id) && HasId(Cut(list, i), list[i + 1].id)
  {
    if i + 1 < |list| {
      assert Cut(list, i)[i] == list[i + 1];
    }
  }

  lemma StillThere(list: seq<Elem>, e: Elem, cursor: Option<nat>)
    requires cursor.Some? ==> HasId(list, cursor.value)
    ensures cursor.Some? ==> HasId(list + [e], cursor.value)
  {
    if cursor.Some? {
      var i :| 0 <= i < |list| && list[i].id == cursor.value;
      assert (list + [e])[i].id == cursor.value;
    }
  }
}
