/**
 The lifecycle of peers: who is being dialled, connected, ready, or on the way out.

 Whether an address may be dialled again yet depends on the clock and is a parameter of `TryDialNext`.
 */
module PeerManager {
  import opened Wrappers
  import opened Peers

  datatype Options = Options(
    maxPeers: nat,
    maxConnected: nat,
    maxConnectedUpgrade: nat,
    persistent: set<NodeID>,
    scores: map<NodeID, nat>
  )

  datatype Life = Life(
    dialing: set<NodeID>,
    upgrading: map<NodeID, NodeID>,
    connected: set<NodeID>,
    ready: set<NodeID>,
    evict: set<NodeID>,
    evicting: set<NodeID>)

  ghost predicate LifeOk(o: Options, self: NodeID, known: set<NodeID>, l: Life)
  {
    && l.ready <= l.connected && l.evict <= l.connected && l.evicting <= l.connected
    && l.upgrading.Keys <= l.connected
    && (forall from :: from in l.upgrading ==> l.upgrading[from] in l.dialing)
    && (forall f, g :: f in l.upgrading && g in l.upgrading && f != g ==> l.upgrading[f] != l.upgrading[g])
    && l.connected <= known && self !in l.connected
    && (o.maxConnected > 0 ==> |l.connected| <= o.maxConnected + o.maxConnectedUpgrade)
  }

  /** Every slot for ordinary connections is taken. */
  predicate Full(o: Options, l: Life) { o.maxConnected > 0 && |l.connected| >= o.maxConnected }

  /** Not even a connection for an upgrade is left. */
  predicate Exhausted(o: Options,
                      l: Life) { o.maxConnected > 0 && |l.connected| >= o.maxConnected + o.maxConnectedUpgrade }

  /** A connected peer that nobody else has claimed and that is not on its way out. */
  predicate Free(l: Life, id: NodeID)
  {
    id in l.connected && id !in l.evict && id !in l.evicting && id !in l.upgrading
  }

  /** `from` is already claimed for `id`, or is a free peer of the lowest score, below `score`. */
  ghost predicate Candidate(l: Life, contents: map<NodeID, Info>, id: NodeID, score: nat, from: NodeID)
  {
    if id in l.upgrading.Values then from in l.upgrading && l.upgrading[from] == id
    else
      && Free(l, from) && from in contents && contents[from].Score() < score
      && forall other :: other in contents && Free(l, other) ==> contents[from].Score() <= contents[other].Score()
  }

  ghost predicate NoCandidate(l: Life, contents: map<NodeID, Info>, id: NodeID, score: nat)
  {
    id !in l.upgrading.Values && forall other :: other in contents && Free(l, other) ==>
        contents[other].Score() >= score
  }

  /** The limits, by what one more connection or dial would do. */
  lemma LimitsMean(o: Options, l: Life, id: NodeID)
    requires id !in l.connected && id !in l.dialing
    ensures Full(o, l) <==> o.maxConnected > 0 && |l.connected + {id}| > o.maxConnected
    ensures Exhausted(o, l) <==> o.maxConnected > 0 && |l.connected + {id}| > o.maxConnected + o.maxConnectedUpgrade
    ensures DialSlotsTaken(o, l) <==>
            o.maxConnected > 0 && |l.connected| + |l.dialing + {id}| > o.maxConnected + o.maxConnectedUpgrade
  {
  }

  /** Who can be replaced, who can be dialled, and who may be forgotten, as sets. */
  lemma RolesMean(l: Life, contents: map<NodeID, Info>, eligible: Address -> bool)
    ensures (set id | id in l.connected && Free(l, id)) == l.connected - l.evict - l.evicting - l.upgrading.Keys
    ensures (set id | id in contents && Unused(l, id)) == contents.Keys - l.dialing - l.connected
    ensures forall id :: Diallable(l, contents, eligible, id) <==>
              && id in contents.Keys - l.dialing - l.connected
              && (set a | a in contents[id].addresses && eligible(a)) != {}
  {
    forall id ensures Diallable(l, contents, eligible, id) <==>
                id in contents.Keys - l.dialing - l.connected
                && (set a | a in contents[id].addresses && eligible(a)) != {} {
      if id in contents {
        var some := set a | a in contents[id].addresses && eligible(a);
        if a :| a in contents[id].addresses && eligible(a) {
          assert a in some;
        }
        if some != {} {
          var a :| a in some;
        }
      }
    }
  }

  /** After a dial has ended nobody is dialled or claimed for it; nothing else changes. */
  lemma UndialledFields(l: Life, id: NodeID)
    ensures var l' := Undialled(l, id);
            && l'.dialing == l.dialing - {id} && id !in l'.upgrading.Values
            && (forall from :: from in l'.upgrading <==> from in l.upgrading && l.upgrading[from] != id)
            && (forall from :: from in l'.upgrading ==> l'.upgrading[from] == l.upgrading[from])
            && l'.connected == l.connected && l'.ready == l.ready && l'.evict == l.evict && l'.evicting == l.evicting
  {
  }

  /** An address that is known keeps its failures; a new one has none; the other addresses stay. */
  lemma AddressesKept(p: Info, a: Address, now: int)
    ensures var p' := WithAddress(p, a);
            && p' == p.(addresses := p'.addresses) && p'.addresses.Keys == p.addresses.Keys + {a}
            && (forall b :: b in p.addresses ==> p'.addresses[b] == p.addresses[b])
            && (a !in p.addresses ==> p'.addresses[a].dialFailures == 0)
    ensures var p' := Reached(p, a, now);
            && p' == p.(addresses := p'.addresses, lastConnected := now) && p'.addresses.Keys == p.addresses.Keys
            && (a in p.addresses ==> p'.addresses[a].dialFailures == 0)
            && (forall b :: b in p.addresses && b != a ==> p'.addresses[b] == p.addresses[b])
    ensures a in p.addresses ==>
              var p' := Failed(p, a);
              && p' == p.(addresses := p'.addresses) && p'.addresses.Keys == p.addresses.Keys
              && p'.addresses[a].dialFailures == p.addresses[a].dialFailures + 1
              && forall b :: b in p.addresses && b != a ==> p'.addresses[b] == p.addresses[b]
  {
  }

  function Without(upgrading: map<NodeID, NodeID>, to: NodeID): map<NodeID, NodeID>
  {
    map from | from in upgrading && upgrading[from] != to :: upgrading[from]
  }

  // ---- orders to evict ----

  datatype Entry = Out(id: NodeID) | Gone(id: NodeID)

  /** The peer was ordered out and has not gone since. */
  ghost predicate Pending(log: seq<Entry>, id: NodeID)
  {
    exists i :: 0 <= i < |log| && log[i] == Out(id) && forall k :: i < k < |log| ==> log[k] != Gone(id)
  }

  ghost predicate NoneTwice(log: seq<Entry>)
  {
    forall i, j :: 0 <= i < j < |log| && log[i].Out? && log[i] == log[j] ==>
        exists k :: i < k < j && log[k] == Gone(log[i].id)
  }

  ghost predicate LogOk(log: seq<Entry>, evicting: set<NodeID>)
  {
    NoneTwice(log) && forall id :: id in evicting <==> Pending(log, id)
  }

  lemma LogOut(log: seq<Entry>, evicting: set<NodeID>, id: NodeID)
    requires LogOk(log, evicting) && id !in evicting
    ensures LogOk(log + [Out(id)], evicting + {id})
  {
    var log' := log + [Out(id)];
    forall i, j | 0 <= i < j < |log'| && log'[i].Out? && log'[i] == log'[j]
      ensures exists k :: i < k < j && log'[k] == Gone(log'[i].id)
    {
      if j == |log| {
        assert !Pending(log, id);
        var k :| i < k < |log| && log[k] == Gone(id);
        assert log'[k] == Gone(id);
      } else {
        var k :| i < k < j && log[k] == Gone(log[i].id);
        assert log'[k] == Gone(log'[i].id);
      }
    }
    forall other ensures other in evicting + {id} <==> Pending(log', other) {
      if Pending(log, other) {
        var i :| 0 <= i < |log| && log[i] == Out(other) && forall k :: i < k < |log| ==> log[k] != Gone(other);
        assert log'[i] == Out(other);
      }
      if Pending(log', other) && other != id {
        var i :| 0 <= i < |log'| && log'[i] == Out(other) && forall k :: i < k < |log'| ==> log'[k] != Gone(other);
        assert log[i] == Out(other) && forall k :: i < k < |log| ==> log[k] == log'[k];
      }
      assert log'[|log|] == Out(id);
    }
  }

  lemma LogGone(log: seq<Entry>, evicting: set<NodeID>, id: NodeID)
    requires LogOk(log, evicting)
    ensures LogOk(log + [Gone(id)], evicting - {id})
  {
    var log' := log + [Gone(id)];
    forall i, j | 0 <= i < j < |log'| && log'[i].Out? && log'[i] == log'[j]
      ensures exists k :: i < k < j && log'[k] == Gone(log'[i].id)
    {
      var k :| i < k < j && log[k] == Gone(log[i].id);
      assert log'[k] == Gone(log'[i].id);
    }
    forall other ensures other in evicting - {id} <==> Pending(log', other) {
      if Pending(log, other) && other != id {
        var i :| 0 <= i < |log| && log[i] == Out(other) && forall k :: i < k < |log| ==> log[k] != Gone(other);
        assert log'[i] == Out(other);
      }
      if Pending(log', other) {
        var i :| 0 <= i < |log'| && log'[i] == Out(other) && forall k :: i < k < |log'| ==> log'[k] != Gone(other);
        assert log'[|log|] == Gone(id);
        assert log[i] == Out(other) && forall k :: i < k < |log| ==> log[k] == log'[k];
      }
    }
  }

  /** Addresses are stored under the peer they name. */
  ghost predicate Owned(contents: map<NodeID, Info>)
  {
    forall id, a :: id in contents && a in contents[id].addresses ==> a.id == id
  }

  /** A known peer that is neither dialled nor connected and has an address that may be tried. */
  predicate Diallable(l: Life, contents: map<NodeID, Info>, eligible: Address -> bool, id: NodeID)
  {
    id in contents && id !in l.dialing && id !in l.connected && exists a :: a in contents[id].addresses && eligible(a)
  }

  ghost predicate NextToDial(l: Life, contents: map<NodeID, Info>, eligible: Address -> bool, id: NodeID)
  {
    && Diallable(l, contents, eligible, id)
    && forall other :: Diallable(l, contents, eligible, other) ==> contents[other].Score() <= contents[id].Score()
  }

  predicate DialSlotsTaken(o: Options, l: Life)
  {
    o.maxConnected > 0 && |l.connected| + |l.dialing| >= o.maxConnected + o.maxConnectedUpgrade
  }

  /** The address belongs to the best peer to dial; when full a lower-scored peer is claimed for it. */
  ghost predicate Dials(o: Options, l: Life, contents: map<NodeID, Info>,
                        eligible: Address -> bool, a: Address, l': Life)
  {
    && NextToDial(l, contents, eligible, a.id) && eligible(a) && !DialSlotsTaken(o, l)
    && l' == l.(dialing := l.dialing + {a.id}, upgrading := l'.upgrading)
    && if Full(o, l) then Claims(l, contents, a.id, l'.upgrading) else l'.upgrading == l.upgrading
  }

  ghost predicate Claims(l: Life, contents: map<NodeID, Info>, id: NodeID, upgrading: map<NodeID, NodeID>)
  {
    && id in contents
    && exists from ::
         Free(l, from) && upgrading == l.upgrading[from := id] && Candidate(l, contents, id, contents[id].Score(), from)
  }

  ghost predicate NothingToDial(o: Options, l: Life, contents: map<NodeID, Info>, eligible: Address -> bool)
  {
    || DialSlotsTaken(o, l)
    || (forall id :: !Diallable(l, contents, eligible, id))
    || (Full(o, l)
        && exists id :: NextToDial(l, contents, eligible, id) && NoCandidate(l, contents, id, contents[id].Score()))
  }

  lemma DialOk(o: Options, self: NodeID, known: set<NodeID>, contents: map<NodeID, Info>,
               eligible: Address -> bool, l: Life, a: Address, l': Life)
    requires LifeOk(o, self, known, l) && Dials(o, l, contents, eligible, a, l')
    ensures LifeOk(o, self, known, l')
    ensures o.maxConnected > 0 ==> |l'.connected| + |l'.dialing| <= o.maxConnected + o.maxConnectedUpgrade
  {
    assert |l.dialing + {a.id}| == |l.dialing| + 1;
    assert a.id !in l.upgrading.Values;
  }

  /** What `Dialed` and `Accepted` do to the evictions when full: the replaced peer is scheduled. */
  ghost predicate Replaces(l: Life, contents: map<NodeID, Info>, claimed: Option<NodeID>, id: NodeID, score: nat,
                           evict: set<NodeID>)
  {
    exists x :: x in l.connected && evict == l.evict + {x}
        && if NoCandidate(l, contents, id, score) then claimed == Some(x) else Candidate(l, contents, id, score, x)
  }

  /** The peer claimed for `id`, or one scored even lower, is scheduled. */
  ghost predicate ReplacesClaimed(upgrading: map<NodeID, NodeID>, l: Life, contents: map<NodeID, Info>, id: NodeID,
                                  evict: set<NodeID>)
  {
    exists from :: from in upgrading && upgrading[from] == id && from in contents
        && Replaces(l, contents, Some(from), from, contents[from].Score(), evict)
  }

  lemma ClaimedReplaced(upgrading: map<NodeID, NodeID>, l: Life, contents: map<NodeID, Info>, id: NodeID,
                        from: NodeID, evict: set<NodeID>)
    requires from in upgrading && upgrading[from] == id && from in contents
    requires Replaces(l, contents, Some(from), from, contents[from].Score(), evict)
    ensures ReplacesClaimed(upgrading, l, contents, id, evict)
  {
  }

  lemma UndialledRest(l': Life, l: Life, id: NodeID)
    requires l' == Undialled(l, id)
    ensures l'.connected == l.connected && l'.evict == l.evict
  {
  }

  /** The state once a dial has ended: no longer dialling, nobody claimed for it. */
  function Undialled(l: Life, id: NodeID): Life
  {
    l.(dialing := l.dialing - {id}, upgrading := Without(l.upgrading, id))
  }

  lemma UndialledOk(o: Options, self: NodeID, known: set<NodeID>, l: Life, id: NodeID)
    requires LifeOk(o, self, known, l)
    ensures LifeOk(o, self, known, Undialled(l, id))
  {
  }

  /** A known peer may be connected, one connected peer being scheduled for eviction with it. */
  lemma ConnectOk(o: Options, self: NodeID, known: set<NodeID>, l: Life, id: NodeID, evict: set<NodeID>)
    requires LifeOk(o, self, known, l) && id != self && id !in l.connected && !Exhausted(o, l) && evict <= l.connected
    ensures LifeOk(o, self, known + {id}, l.(connected := l.connected + {id}, evict := evict))
  {
    assert |l.connected + {id}| == |l.connected| + 1;
  }

  lemma CandidateConnected(o: Options, self: NodeID, known: set<NodeID>, l: Life, contents: map<NodeID, Info>,
                           id: NodeID, score: nat, from: NodeID)
    requires LifeOk(o, self, known, l) && Candidate(l, contents, id, score, from)
    ensures from in l.connected
  {
  }

  /** No peer from position `i` of the ranking on is free. */
  ghost predicate NoneFree(l: Life, order: seq<Info>, i: nat)
  {
    forall j :: i <= j < |order| ==> !Free(l, order[j].id)
  }

  lemma LowestFree(contents: map<NodeID, Info>, order: seq<Info>, i: nat, l: Life, id: NodeID, score: nat)
    requires Ranking(contents, order) && i < |order| && NoneFree(l, order, i + 1) && Free(l, order[i].id)
    requires order[i].Score() < score && id !in l.upgrading.Values
    ensures Candidate(l, contents, id, score, order[i].id)
  {
    forall other | other in contents && Free(l, other) ensures order[i].Score() <= contents[other].Score() {
      var j :| 0 <= j < |order| && order[j] == contents[other];
    }
  }

  lemma NoneLower(contents: map<NodeID, Info>, order: seq<Info>, i: nat, l: Life, id: NodeID, score: nat)
    requires Ranking(contents, order) && i < |order| && NoneFree(l, order, i + 1)
    requires order[i].Score() >= score && id !in l.upgrading.Values
    ensures NoCandidate(l, contents, id, score)
  {
    forall other | other in contents && Free(l, other) ensures contents[other].Score() >= score {
      var j :| 0 <= j < |order| && order[j] == contents[other];
    }
  }

  lemma NoneAtAll(contents: map<NodeID, Info>, order: seq<Info>, l: Life, id: NodeID, score: nat)
    requires Ranking(contents, order) && NoneFree(l, order, 0) && id !in l.upgrading.Values
    ensures NoCandidate(l, contents, id, score)
  {
    forall other ensures other in contents ==> !Free(l, other) {
      assert other in contents ==> contents[other] in order;
    }
  }

  datatype Event =
    | Known(a: Address)
    | DialNext(eligible: Address -> bool)
    | DialFailure(a: Address)
    | DialSuccess(a: Address, now: int)
    | Incoming(id: NodeID, now: int)
    | Routed(id: NodeID)
    | EvictNext
    | Left(id: NodeID)
    | Misbehaved(id: NodeID)
    | Height(id: NodeID, height: int)

  // ---- the manager ----

  class Manager {
    const self: NodeID
    const options: Options
    const store: PeerStore
    var dialing: set<NodeID>
    var upgrading: map<NodeID, NodeID>
    var connected: set<NodeID>
    var ready: set<NodeID>
    var evict: set<NodeID>
    var evicting: set<NodeID>
    ghost var log: seq<Entry>

    function View(): Life
      reads this
    {
      Life(dialing, upgrading, connected, ready, evict, evicting)
    }

    ghost predicate Valid()
      reads this, store, store.Repr
    {
      && store.Valid() && this !in store.Repr
      && LifeOk(options, self, store.contents.Keys, View())
      && Owned(store.contents)
      && LogOk(log, evicting)
    }

    constructor (self: NodeID, options: Options, store: PeerStore)
      requires store.Valid() && Owned(store.contents)
      ensures Valid() && this.self == self && this.options == options && this.store == store
      ensures View() == Life({}, map[], {}, {}, {}, {})
    {
      this.self, this.options, this.store := self, options, store;
      dialing, upgrading, connected, ready, evict, evicting, log := {}, map[], {}, {}, {}, {}, [];
    }

    /** A peer not heard of before: without addresses, persistent or with a fixed score as the options say. */
    function NewPeerInfo(id: NodeID): (p: Info)
      ensures p.id == id && p.addresses == map[] && p.height == 0 && p.lastConnected == 0
      ensures (p.persistent <==> id in options.persistent)
      ensures id !in options.scores ==> p.Score() == if id in options.persistent then 100 else 0
      ensures id in options.scores && options.scores[id] > 0 ==> p.Score() == options.scores[id]
    {
      Info(id, map[], 0, id in options.persistent, 0, if id in options.scores then options.scores[id] else 0)
    }

    /** A lower-scored peer that may be replaced by `id`, or the one already claimed for it. */
    method FindUpgradeCandidate(id: NodeID, score: nat) returns (r: Option<NodeID>)
      requires store.Valid() && this !in store.Repr
      modifies store`ranked
      ensures store.Valid()
      ensures r.Some? ==> Candidate(View(), store.contents, id, score, r.value)
      ensures r.None? ==> NoCandidate(View(), store.contents, id, score)
    {
      if from :| from in upgrading && upgrading[from] == id {
        return Some(from);
      }
      var ranked := store.RankedPeers();
      hide PeerStore.Valid, Ranking;
      ghost var l, contents := View(), store.contents;
      var i := |ranked|;
      while i > 0
        invariant 0 <= i <= |ranked|
        invariant NoneFree(l, ranked, i)
      {
        i := i - 1;
        var candidate := ranked[i];
        if candidate.Score() >= score {
          NoneLower(contents, ranked, i, l, id, score);
          return None;
        }
        if Free(View(), candidate.id) {
          LowestFree(contents, ranked, i, l, id, score);
          return Some(candidate.id);
        }
      }
      NoneAtAll(contents, ranked, l, id, score);
      return None;
    }

    /** Claim a lower-scored peer for one that is to be dialled while every slot is taken. */
    method Claim(peer: Info) returns (ok: bool)
      requires Valid() && peer.id in store.contents && store.contents[peer.id] == peer && peer.id !in dialing
      modifies this`upgrading, store`ranked
      ensures store.Valid() && old(peer.id !in upgrading.Values)
      ensures ok ==> Claims(old(View()), store.contents, peer.id, upgrading)
      ensures !ok ==> upgrading == old(upgrading) && NoCandidate(View(), store.contents, peer.id, peer.Score())
    {
      NotClaimed(options, self, store.contents.Keys, View(), peer.id);
      hide PeerStore.Valid, LifeOk, LogOk, Owned;
      var from := FindUpgradeCandidate(peer.id, peer.Score());
      if from.None? {
        return false;
      }
      CandidateIsFree(View(), store.contents, peer.id, peer.Score(), from.value);
      upgrading := upgrading[from.value := peer.id];
      return true;
    }

    /** Go down the ranking to the first peer that can be dialled. */
    method PickDial(ranked: seq<Info>, eligible: Address -> bool, ghost contents: map<NodeID, Info>)
      returns (r: Option<(Info, Address)>)
      requires Ranking(contents, ranked)
      ensures r.Some? ==> NextToDial(View(), contents, eligible, r.value.0.id) && contents[r.value.0.id] == r.value.0
      ensures r.Some? ==> r.value.1 in r.value.0.addresses && eligible(r.value.1)
      ensures r.None? ==> forall id :: !Diallable(View(), contents, eligible, id)
    {
      hide Ranking;
      for i := 0 to |ranked|
        invariant forall j :: 0 <= j < i ==> !Diallable(View(), contents, eligible, ranked[j].id)
      {
        var peer := ranked[i];
        RankedIsKnown(contents, ranked, i);
        if peer.id !in dialing && peer.id !in connected {
          if a :| a in peer.addresses && eligible(a) {
            assert Diallable(View(), contents, eligible, peer.id);
            BestByRank(contents, ranked, i, View(), eligible);
            return Some((peer, a));
          }
        }
      }
      NothingRanked(contents, ranked, View(), eligible);
      return None;
    }

    /** Dial the best peer that can be dialled; when full, only on claiming a lower-scored peer for it. */
    method TryDialNext(eligible: Address -> bool) returns (r: Option<Address>)
      requires Valid()
      modifies this`dialing, this`upgrading, store`ranked
      ensures Valid()
      ensures r.Some? ==> Dials(options, old(View()), store.contents, eligible, r.value, View())
      ensures r.None? ==> View() == old(View()) && NothingToDial(options, View(), store.contents, eligible)
    {
      if DialSlotsTaken(options, View()) {
        return None;
      }
      hide PeerStore.Valid, Ranking, LifeOk, LogOk, NoCandidate, Claims, Diallable;
      var ranked := store.RankedPeers();
      ghost var l, contents := View(), store.contents;
      var pick := PickDial(ranked, eligible, contents);
      if pick.None? {
        return None;
      }
      var (peer, a) := pick.value;
      NextIsNotDialing(l, contents, eligible, peer.id);
      assert a.id == peer.id;
      hide Owned, NextToDial;
      r := Dial(peer, a, eligible);
    }

    method Dial(peer: Info, a: Address, eligible: Address -> bool) returns (r: Option<Address>)
      requires Valid() && !DialSlotsTaken(options, View()) && a.id == peer.id && eligible(a) && peer.id !in dialing
      requires peer.id in store.contents && store.contents[peer.id] == peer
      requires NextToDial(View(), store.contents, eligible, peer.id)
      modifies this`dialing, this`upgrading, store`ranked
      ensures Valid()
      ensures r.Some? ==> Dials(options, old(View()), store.contents, eligible, r.value, View())
      ensures r.None? ==> View() == old(View()) && NothingToDial(options, View(), store.contents, eligible)
    {
      hide PeerStore.Valid, LifeOk, LogOk, NoCandidate, Claims, NextToDial, Owned;
      ghost var l, contents := View(), store.contents;
      if Full(options, View()) {
        var ok := Claim(peer);
        if !ok {
          return None;
        }
      }
      dialing := dialing + {peer.id};
      DialOk(options, self, contents.Keys, contents, eligible, l, a, View());
      return Some(a);
    }

    /** Forget that a peer is dialled, and the claim made for it; gives back the peer that was claimed. */
    method Undial(id: NodeID) returns (claimed: Option<NodeID>)
      requires Valid()
      modifies this`dialing, this`upgrading
      ensures Valid() && View() == Undialled(old(View()), id)
      ensures if claimed.Some? then claimed.value in old(upgrading) && old(upgrading)[claimed.value] == id
          else id !in old(upgrading).Values
    {
      hide PeerStore.Valid, LogOk, Owned;
      UndialledOk(options, self, store.contents.Keys, View(), id);
      claimed := None;
      if from :| from in upgrading && upgrading[from] == id {
        claimed := Some(from);
      }
      dialing := dialing - {id};
      upgrading := Without(upgrading, id);
    }

    /** A failed dial is counted against the address. */
    method DialFailed(a: Address)
      requires Valid()
      modifies this`dialing, this`upgrading, store.Repr
      ensures Valid() && fresh(store.Repr - old(store.Repr)) && View() == Undialled(old(View()), a.id)
      ensures store.contents ==
                if a.id in old(store.contents) && a in old(store.contents)[a.id].addresses
                then old(store.contents)[a.id := Failed(old(store.contents)[a.id], a)] else old(store.contents)
    {
      hide LifeOk, LogOk, Without;
      var _ := Undial(a.id);
      var peer := store.Get(a.id);
      if peer.None? || a !in peer.value.addresses {
        return;
      }
      assert old(store.contents)[a.id := Failed(peer.value, a)].Keys == old(store.contents).Keys;
      var _ := store.Set(Failed(peer.value, a));
    }

    /** A connected peer becomes ready. */
    method Ready(id: NodeID)
      requires Valid()
      modifies this`ready
      ensures Valid() && View() == old(View()).(ready := if id in connected then old(ready) + {id} else old(ready))
    {
      if id in connected {
        ready := ready + {id};
      }
    }

    /** A peer that misbehaves is scheduled for eviction. */
    method Errored(id: NodeID)
      requires Valid()
      modifies this`evict
      ensures Valid() && View() == old(View()).(evict := if id in connected then old(evict) + {id} else old(evict))
    {
      if id in connected {
        evict := evict + {id};
      }
    }

    method Disconnected(id: NodeID)
      requires Valid()
      modifies this`connected, this`upgrading, this`evict, this`evicting, this`ready, this`log
      ensures Valid() && log == old(log) + [Gone(id)]
      ensures View() == Life(dialing, old(upgrading) - {id}, old(connected) - {id}, old(ready) - {id},
          old(evict) - {id}, old(evicting) - {id})
    {
      hide PeerStore.Valid, LogOk, Owned;
      LogGone(log, evicting, id);
      DisconnectOk(options, self, store.contents.Keys, View(), id);
      hide LifeOk;
      connected := connected - {id};
      upgrading := upgrading - {id};
      evict := evict - {id};
      evicting := evicting - {id};
      ready := ready - {id};
      log := log + [Gone(id)];
    }

    /** Schedule the peer that makes room: the claimed one, or one scored even lower. */
    method ScheduleReplaced(claimed: NodeID)
      requires Valid() && claimed in connected
      modifies this`evict, store`ranked
      ensures Valid() && claimed in store.contents
      ensures Replaces(old(View()), store.contents, Some(claimed), claimed, store.contents[claimed].Score(), evict)
    {
      hide PeerStore.Valid, Candidate, NoCandidate, LogOk, Owned;
      var replaced := claimed;
      var p := store.Get(claimed);
      if p.Some? {
        var u := FindUpgradeCandidate(claimed, p.value.Score());
        if u.Some? {
          CandidateConnected(options, self, store.contents.Keys, View(), store.contents, claimed,
              p.value.Score(), u.value);
          CandidateRefutes(View(), store.contents, claimed, p.value.Score(), u.value);
          replaced := u.value;
        }
      }
      evict := evict + {replaced};
    }

    /** A dial succeeded; the connection is kept unless it is one too many. */
    method Dialed(a: Address, now: int) returns (ok: bool)
      requires Valid()
      modifies this, store.Repr
      ensures Valid() && fresh(store.Repr - old(store.Repr))
      ensures log == old(log)
      ensures var l := Undialled(old(View()), a.id);
        && (ok <==> a.id != self && a.id !in l.connected && a.id in old(store.contents)
                      && (Full(options, l) ==> a.id in old(upgrading).Values && !Exhausted(options, l)))
        && (!ok ==> View() == l && store.contents == old(store.contents))
        && (ok ==> View() == l.(connected := l.connected + {a.id}, evict := evict))
        && (ok && !Full(options, l) ==> evict == l.evict)
        && (ok && Full(options, l) ==> ReplacesClaimed(old(upgrading), l, store.contents, a.id, evict))
        && (ok ==> store.contents == old(store.contents)[a.id := Reached(old(store.contents)[a.id], a, now)])
    {
      assert forall from :: from in upgrading ==> from in connected;
      hide LifeOk, LogOk, Owned, Undialled, Replaces, ReplacesClaimed, Reached, PeerStore.Valid;
      ghost var claims := upgrading;
      var claimed := Undial(a.id);
      UndialledRest(View(), old(View()), a.id);
      ghost var l := View();
      ok := Reach(a, now, claimed);
      if ok && Full(options, l) {
        ClaimedReplaced(claims, l, store.contents, a.id, claimed.value, evict);
      }
    }

    /** The peer was reached; `claimed` is the one that was claimed for it. */
    method Reach(a: Address, now: int, claimed: Option<NodeID>) returns (ok: bool)
      requires Valid() && (claimed.Some? ==> claimed.value in connected)
      modifies this`connected, this`evict, store.Repr
      ensures Valid() && fresh(store.Repr - old(store.Repr))
      ensures var l := old(View());
        && (ok <==> a.id != self && a.id !in l.connected && a.id in old(store.contents)
                      && (Full(options, l) ==> claimed.Some? && !Exhausted(options, l)))
        && (!ok ==> View() == l && store.contents == old(store.contents))
        && (ok ==>
              && View() == l.(connected := l.connected + {a.id}, evict := evict)
              && store.contents == old(store.contents)[a.id := Reached(old(store.contents)[a.id], a, now)])
        && (ok && !Full(options, l) ==> evict == l.evict)
        && (ok && Full(options, l) ==>
              && claimed.value in store.contents
              && Replaces(l, store.contents, claimed, claimed.value, store.contents[claimed.value].Score(), evict))
    {
      hide LifeOk, LogOk, Owned, Replaces, Reached, PeerStore.Valid;
      if a.id == self || a.id in connected {
        return false;
      }
      if Full(options, View()) && (claimed.None? || Exhausted(options, View())) {
        return false;
      }
      var peer := store.Get(a.id);
      if peer.None? {
        return false;
      }
      ConnectDialed(peer.value, a, now, claimed);
      return true;
    }

    method ConnectDialed(peer: Info, a: Address, now: int, claimed: Option<NodeID>)
      requires Valid() && a.id != self && a.id !in connected && a.id in store.contents && store.contents[a.id] == peer
      requires !Exhausted(options, View())
      requires Full(options, View()) ==> claimed.Some? && claimed.value in connected
      modifies this`connected, this`evict, store.Repr
      ensures Valid() && fresh(store.Repr - old(store.Repr))
      ensures store.contents == old(store.contents)[a.id := Reached(peer, a, now)]
      ensures View() == old(View()).(connected := old(connected) + {a.id}, evict := evict)
      ensures !Full(options, old(View())) ==> evict == old(evict)
      ensures Full(options, old(View())) ==>
                claimed.value in store.contents
                    && Replaces(old(View()), store.contents, claimed, claimed.value,
                                store.contents[claimed.value].Score(), evict)
    {
      hide LifeOk, LogOk, Replaces;
      StorePeer(Reached(peer, a, now));
      Connect(a.id, claimed);
    }

    /** Count the peer as connected; when full, schedule the one it replaces. */
    method Connect(id: NodeID, claimed: Option<NodeID>)
      requires Valid() && id != self && id !in connected && id in store.contents && !Exhausted(options, View())
      requires Full(options, View()) ==> claimed.Some? && claimed.value in connected
      modifies this`connected, this`evict, store`ranked
      ensures Valid() && View() == old(View()).(connected := old(connected) + {id}, evict := evict)
      ensures !Full(options, old(View())) ==> evict == old(evict)
      ensures Full(options, old(View())) ==>
                claimed.value in store.contents
                    && Replaces(old(View()), store.contents, claimed, claimed.value,
                                store.contents[claimed.value].Score(), evict)
    {
      hide LogOk, Replaces, PeerStore.Valid, Owned, LifeOk;
      if claimed.Some? && Full(options, View()) {
        ScheduleReplaced(claimed.value);
      }
      AddConnection(id, None);
    }

    /** An incoming connection; when full it must be better than some free peer, which is then scheduled to go. */
    method Accepted(id: NodeID, now: int) returns (ok: bool)
      requires Valid()
      modifies this`connected, this`evict, store.Repr
      ensures Valid() && fresh(store.Repr - old(store.Repr))
      ensures var l, contents := old(View()), old(store.contents);
        var score := if id in contents then contents[id].Score() else NewPeerInfo(id).Score();
        && (ok <==>
              && id != self && id != NO_ID && id !in l.connected && !Exhausted(options, l)
              && (Full(options, l) ==> !NoCandidate(l, contents, id, score)))
        && (!ok ==> View() == l && store.contents == contents)
        && (ok ==>
              && View() == l.(connected := l.connected + {id}, evict := evict)
              && store.contents ==
                   contents[id := (if id in contents then contents[id] else NewPeerInfo(id)).(lastConnected := now)])
        && (ok && !Full(options, l) ==> evict == l.evict)
        && (ok && Full(options, l) ==> Replaces(l, contents, None, id, score, evict))
    {
      if id == self || id in connected || Exhausted(options, View()) {
        return false;
      }
      var known := store.Get(id);
      KnownAddresses(store.contents, id);
      hide PeerStore.Valid, LifeOk, LogOk, Owned, Candidate, NoCandidate, Full, Exhausted, Replaces;
      var peer := if known.Some? then known.value else NewPeerInfo(id);
      ghost var ids := store.contents.Keys;
      var room, replaced := MakeRoom(peer);
      if !room {
        return false;
      }
      ok := StoreNewPeer(peer.(lastConnected := now));
      if ok {
        assert store.contents.Keys == ids + {id};
        AddConnection(id, replaced);
      }
    }

    /** Room for one more: a free slot, or a peer to replace. */
    method MakeRoom(peer: Info) returns (room: bool, replaced: Option<NodeID>)
      requires Valid()
      modifies store`ranked
      ensures Valid()
      ensures room <==> (Full(options, View()) ==> !NoCandidate(View(), store.contents, peer.id, peer.Score()))
      ensures replaced.Some? <==> room && Full(options, View())
      ensures replaced.Some? ==>
                replaced.value in connected
                    && Replaces(View(), store.contents, None, peer.id, peer.Score(), evict + {replaced.value})
    {
      hide PeerStore.Valid, LifeOk, LogOk, Owned, Candidate, NoCandidate;
      room, replaced := true, None;
      if Full(options, View()) {
        replaced := RoomFor(peer);
        room := replaced.Some?;
      }
    }

    /** Count a connection, and schedule the peer it replaces. */
    method AddConnection(id: NodeID, replaced: Option<NodeID>)
      requires Valid() && id != self && id !in connected && id in store.contents && !Exhausted(options, View())
      requires replaced.Some? ==> replaced.value in connected
      modifies this`connected, this`evict
      ensures Valid() && View() == old(View()).(connected := old(connected) + {id}, evict := evict)
      ensures evict == if replaced.Some? then old(evict) + {replaced.value} else old(evict)
    {
      AcceptOk(options, self, store.contents.Keys, View(), id, replaced);
      assert store.contents.Keys + {id} == store.contents.Keys;
      hide LogOk, LifeOk, PeerStore.Valid, Owned, Exhausted;
      connected := connected + {id};
      if replaced.Some? {
        evict := evict + {replaced.value};
      }
    }

    /** The peer to replace for a better one, if there is one. */
    method RoomFor(peer: Info) returns (r: Option<NodeID>)
      requires Valid()
      modifies store`ranked
      ensures Valid()
      ensures r.Some? ==> r.value in connected && Candidate(View(), store.contents, peer.id, peer.Score(), r.value)
      ensures r.None? <==> NoCandidate(View(), store.contents, peer.id, peer.Score())
    {
      hide PeerStore.Valid, LogOk, Owned;
      r := FindUpgradeCandidate(peer.id, peer.Score());
      if r.Some? {
        CandidateConnected(options, self, store.contents.Keys, View(), store.contents, peer.id, peer.Score(), r.value);
        CandidateRefutes(View(), store.contents, peer.id, peer.Score(), r.value);
      }
    }

    /** Store a peer that may be new. */
    method StoreNewPeer(peer: Info) returns (ok: bool)
      requires Valid() && forall a :: a in peer.addresses ==> a.id == peer.id
      modifies store.Repr
      ensures Valid() && fresh(store.Repr - old(store.Repr)) && (ok <==> peer.id != NO_ID)
      ensures store.contents == if ok then old(store.contents)[peer.id := peer] else old(store.contents)
    {
      hide LogOk;
      KnowMore(options, self, store.contents.Keys, View(), peer.id);
      hide LifeOk;
      ok := store.Set(peer);
      assert ok ==> store.contents.Keys == old(store.contents).Keys + {peer.id};
    }

    /** Remember an address; only the manager's own identifier is refused. */
    method Add(a: Address) returns (ok: bool)
      requires Valid()
      modifies store.Repr
      ensures Valid() && fresh(store.Repr - old(store.Repr)) && (ok <==> a.id != self && a.id != NO_ID)
      ensures !ok ==> store.contents == old(store.contents)
      ensures ok ==> var known := if a.id in old(store.contents) then old(store.contents)[a.id] else NewPeerInfo(a.id);
                Pruned(options, View(), old(store.contents)[a.id := WithAddress(known, a)], store.contents)
    {
      if a.id == self {
        return false;
      }
      var known := store.Get(a.id);
      var peer := if known.Some? then known.value else NewPeerInfo(a.id);
      ok := StoreNewPeer(WithAddress(peer, a));
      if ok {
        hide LifeOk, LogOk, Owned;
        PrunePeers();
      }
    }

    /** A peer's height is kept even for a peer not heard of before. */
    method SetHeight(id: NodeID, height: int) returns (ok: bool)
      requires Valid()
      modifies store.Repr
      ensures Valid() && fresh(store.Repr - old(store.Repr)) && (ok <==> id != NO_ID)
      ensures store.contents ==
                if !ok then old(store.contents)
                else if id in old(store.contents)
                    then old(store.contents)[id := old(store.contents)[id].(height := height)]
                else old(store.contents)[id := NewPeerInfo(id).(height := height)]
    {
      hide LifeOk, LogOk;
      var known := store.Get(id);
      var peer := if known.Some? then known.value else NewPeerInfo(id);
      ok := StoreNewPeer(peer.(height := height));
    }

    method PruneAt(ghost contents: map<NodeID, Info>, ranked: seq<Info>, i: nat)
      requires Valid() && Ranking(contents, ranked) && i < |ranked|
      requires DroppedFrom(View(), contents, store.contents, ranked, i + 1)
      modifies store
      ensures Valid() && store.Repr == old(store.Repr) && DroppedFrom(View(), contents, store.contents, ranked, i)
      ensures |old(store.contents)| - 1 <= |store.contents|
    {
      hide LogOk, Ranking, PeerStore.Valid;
      var id := ranked[i].id;
      if Unused(View(), id) {
        DropOk(contents, store.contents, ranked, View(), i);
        StillKnown(options, self, store.contents.Keys, View(), id);
        hide LifeOk, DroppedFrom;
        store.Delete(id);
      }
    }

    /** Drop the lowest-scored peers that are neither dialled nor connected until the store is small enough. */
    method PrunePeers()
      requires Valid()
      modifies store
      ensures Valid() && store.Repr == old(store.Repr)
      ensures Pruned(options, View(), old(store.contents), store.contents)
    {
      hide LogOk, Ranking, LifeOk, Owned, PeerStore.Valid, DroppedFrom, Pruned;
      if options.maxPeers == 0 || store.Size() <= options.maxPeers {
        NothingPruned(options, View(), store.contents);
        return;
      }
      ghost var contents := store.contents;
      var ranked := store.RankedPeers();
      DroppedNone(View(), contents, ranked);
      var i := |ranked|;
      ghost var k := i;
      while i > 0
        invariant 0 <= i <= k <= |ranked| && (i < k ==> |store.contents| <= options.maxPeers)
        invariant |store.contents| >= options.maxPeers
        invariant Valid() && store.Repr == old(store.Repr) && Ranking(contents, ranked)
        invariant DroppedFrom(View(), contents, store.contents, ranked, k)
      {
        i := i - 1;
        if store.Size() > options.maxPeers {
          PruneAt(contents, ranked, i);
          k := i;
        }
      }
      DroppedIsPruned(options, contents, store.contents, ranked, View(), k);
    }

    /** Order a peer out: not on its way already. */
    method OrderOut(id: NodeID)
      requires Valid() && id in connected && id !in evicting
      modifies this`evicting, this`log
      ensures Valid() && evicting == old(evicting) + {id} && log == old(log) + [Out(id)]
    {
      hide PeerStore.Valid, Owned;
      LogOut(log, evicting, id);
      hide LogOk;
      evicting := evicting + {id};
      log := log + [Out(id)];
    }

    /** Take scheduled peers off the list until one that can be ordered out is found. */
    method TryEvictScheduled() returns (r: Option<NodeID>)
      requires Valid()
      modifies this`evict, this`evicting, this`log
      ensures Valid()
      ensures r.Some? ==>
                r.value in old(evict) && r.value !in old(evicting) && evict <= old(evict)
                    && old(evict) - evict <= evicting
      ensures r.Some? ==> evicting == old(evicting) + {r.value} && log == old(log) + [Out(r.value)]
      ensures r.None? ==> evict == {} && evicting == old(evicting) && log == old(log) && old(evict) <= evicting
    {
      assert evict <= connected;
      while evict != {}
        invariant Valid() && evict <= old(evict) <= connected && evicting == old(evicting) && log == old(log)
        invariant old(evict) - evict <= evicting
        decreases evict
      {
        hide PeerStore.Valid, Owned, LogOk;
        var id :| id in evict;
        evict := evict - {id};
        if id in connected && id !in evicting {
          OrderOut(id);
          return Some(id);
        }
      }
      return None;
    }

    /** Order out a scheduled peer, or the lowest-scored one while more are staying than there are slots. */
    method TryEvictNext() returns (r: Option<NodeID>)
      requires Valid()
      modifies this`evict, this`evicting, this`log, store`ranked
      ensures Valid() && evict <= old(evict) && old(evict) - evict <= evicting
      ensures r.Some? ==> r.value in connected && r.value !in old(evicting)
      ensures r.Some? ==> evicting == old(evicting) + {r.value} && log == old(log) + [Out(r.value)]
      ensures r.None? ==> evict == {} && old(evict) <= evicting && evicting == old(evicting) && log == old(log)
      ensures r.None? && options.maxConnected > 0 ==> |connected - evicting| <= options.maxConnected
      ensures !(old(evict) <= old(evicting)) ==> r.Some? && r.value in old(evict)
      ensures old(evict) <= old(evicting) && r.Some? ==>
                && options.maxConnected > 0 && |connected - old(evicting)| > options.maxConnected
                && LowestOf(store.contents, connected - old(evicting), r.value)
    {
      hide PeerStore.Valid, LogOk, Owned, LifeOk, LowestOf;
      r := TryEvictScheduled();
      if r.Some? {
        WasConnected(r.value);
        return;
      }
      r := EvictAboveCapacity();
    }

    lemma WasConnected(id: NodeID)
      requires Valid() && id in evicting
      ensures id in connected
    {
    }

    /** While more are staying than there are slots, order out the lowest-scored of them. */
    method EvictAboveCapacity() returns (r: Option<NodeID>)
      requires Valid()
      modifies this`evicting, this`log, store`ranked
      ensures Valid()
      ensures r.Some? ==>
                && options.maxConnected > 0 && |connected - old(evicting)| > options.maxConnected
                && r.value in connected && r.value !in old(evicting)
                && LowestOf(store.contents, connected - old(evicting), r.value)
                && evicting == old(evicting) + {r.value} && log == old(log) + [Out(r.value)]
      ensures r.None? ==> evicting == old(evicting) && log == old(log)
      ensures r.None? && options.maxConnected > 0 ==> |connected - evicting| <= options.maxConnected
    {
      assert evicting <= connected;
      hide PeerStore.Valid, LogOk, Owned, LifeOk, LowestOf;
      SubsetCounts(evicting, connected);
      if options.maxConnected == 0 || |connected| - |evicting| <= options.maxConnected {
        return None;
      }
      r := EvictLowest();
    }

    method EvictLowest() returns (r: Option<NodeID>)
      requires Valid()
      modifies this`evicting, this`log, store`ranked
      ensures Valid()
      ensures r.Some? ==> r.value in connected && r.value !in old(evicting)
      ensures r.Some? ==> evicting == old(evicting) + {r.value} && log == old(log) + [Out(r.value)]
      ensures r.Some? ==> LowestOf(store.contents, connected - old(evicting), r.value)
      ensures r.None? ==> connected - evicting == {} && evicting == old(evicting) && log == old(log)
    {
      assert connected <= store.contents.Keys;
      hide PeerStore.Valid, Ranking, LogOk, Owned, LifeOk;
      var ranked := store.RankedPeers();
      r := LowestStaying(ranked, store.contents);
      if r.Some? {
        OrderOut(r.value);
      }
    }

    /** The lowest-scored connected peer that is not on its way out. */
    method LowestStaying(ranked: seq<Info>, ghost contents: map<NodeID, Info>) returns (r: Option<NodeID>)
      requires Ranking(contents, ranked) && connected <= contents.Keys
      ensures r.Some? ==> LowestOf(contents, connected - evicting, r.value)
      ensures r.None? ==> connected - evicting == {}
    {
      var i := |ranked|;
      while i > 0
        invariant 0 <= i <= |ranked|
        invariant forall j :: i <= j < |ranked| ==> ranked[j].id !in connected - evicting
      {
        i := i - 1;
        if ranked[i].id in connected && ranked[i].id !in evicting {
          forall id | id in connected - evicting ensures contents[ranked[i].id].Score() <= contents[id].Score() {
            assert contents[id] in ranked;
          }
          return Some(ranked[i].id);
        }
      }
      forall id ensures id !in connected - evicting {
        assert id in connected ==> contents[id] in ranked;
      }
      return None;
    }

    /** Ordering out until there is nobody left to order out stops, with no more staying than there are slots. */
    method DrainEvictions()
      requires Valid()
      modifies this`evict, this`evicting, this`log, store`ranked
      ensures Valid() && evict == {} && old(evict) <= evicting && old(evicting) <= evicting
      ensures options.maxConnected > 0 ==> |connected - evicting| <= options.maxConnected
    {
      hide PeerStore.Valid, LifeOk, LogOk, Owned;
      ghost var scheduled := evict;
      while true
        invariant Valid() && old(evicting) <= evicting && evict <= scheduled
        invariant scheduled - evict <= evicting
        decreases connected - evicting
      {
        var r := TryEvictNext();
        if r.None? {
          break;
        }
      }
    }

    /**
     Every run keeps the sets nested and the connections within their limit, and never orders a peer out
     twice without a disconnection in between.
     */
    method Run(events: seq<Event>)
      requires Valid()
      modifies this, store.Repr
      ensures Valid() && LifeOk(options, self, store.contents.Keys, View()) && NoneTwice(log)
    {
      hide PeerStore.Valid, LifeOk, LogOk, Owned, Undialled, Without;
      for i := 0 to |events|
        invariant Valid() && fresh(store.Repr - old(store.Repr))
      {
        Handle(events[i]);
      }
      RunFacts(log, evicting);
    }

    method Handle(event: Event)
      requires Valid()
      modifies this, store.Repr
      ensures Valid() && fresh(store.Repr - old(store.Repr))
    {
      hide LifeOk, LogOk, Owned, Undialled, Without;
      match event
      case Known(a) => var _ := Add(a);
      case DialNext(eligible) => var _ := TryDialNext(eligible);
      case DialFailure(a) => DialFailed(a);
      case DialSuccess(a, now) => var _ := Dialed(a, now);
      case Incoming(id, now) => var _ := Accepted(id, now);
      case Routed(id) => Ready(id);
      case EvictNext => var _ := TryEvictNext();
      case Left(id) => Disconnected(id);
      case Misbehaved(id) => Errored(id);
      case Height(id, h) => var _ := SetHeight(id, h);
    }

    /** Overwrite a known peer. */
    method StorePeer(peer: Info)
      requires Valid() && peer.id in store.contents && forall a :: a in peer.addresses ==> a.id == peer.id
      modifies store.Repr
      ensures Valid() && fresh(store.Repr - old(store.Repr)) && store.contents == old(store.contents)[peer.id := peer]
    {
      hide LogOk, LifeOk;
      assert peer.id != NO_ID;
      assert store.contents[peer.id := peer].Keys == store.contents.Keys;
      var _ := store.Set(peer);
    }
  }

  /** A peer of the group that none of the group scores below. */
  ghost predicate LowestOf(contents: map<NodeID, Info>, group: set<NodeID>, id: NodeID)
  {
    && id in group && id in contents
    && forall other :: other in group ==> other in contents && contents[id].Score() <= contents[other].Score()
  }

  lemma KnownAddresses(contents: map<NodeID, Info>, id: NodeID)
    requires Owned(contents)
    ensures id in contents ==> forall a :: a in contents[id].addresses ==> a.id == id
  {
  }

  /** Of the peers from position `k` of the ranking on, exactly those in use are left. */
  ghost predicate DroppedFrom(l: Life, contents: map<NodeID, Info>, kept: map<NodeID, Info>, ranked: seq<Info>, k: nat)
  {
    && (forall id :: id in kept ==> id in contents && kept[id] == contents[id])
    && (forall j :: 0 <= j < |ranked| ==> (ranked[j].id in kept <==> j < k || !Unused(l, ranked[j].id)))
  }

  lemma NothingPruned(o: Options, l: Life, contents: map<NodeID, Info>)
    requires o.maxPeers == 0 || |contents| <= o.maxPeers
    ensures Pruned(o, l, contents, contents)
  {
  }

  lemma DroppedNone(l: Life, contents: map<NodeID, Info>, ranked: seq<Info>)
    requires Ranking(contents, ranked)
    ensures DroppedFrom(l, contents, contents, ranked, |ranked|)
  {
  }

  lemma DropOk(contents: map<NodeID, Info>, kept: map<NodeID, Info>, ranked: seq<Info>, l: Life, i: nat)
    requires Ranking(contents, ranked) && i < |ranked| && DroppedFrom(l, contents, kept, ranked, i + 1)
    requires Unused(l, ranked[i].id)
    ensures DroppedFrom(l, contents, kept - {ranked[i].id}, ranked, i) && |kept - {ranked[i].id}| == |kept| - 1
  {
    var id := ranked[i].id;
    assert (kept - {id}).Keys == kept.Keys - {id} && id in kept;
    assert |(kept - {id}).Keys| == |kept - {id}| && |kept.Keys| == |kept|;
  }

  lemma StillKnown(o: Options, self: NodeID, known: set<NodeID>, l: Life, id: NodeID)
    requires LifeOk(o, self, known, l) && id !in l.connected
    ensures LifeOk(o, self, known - {id}, l)
  {
  }

  lemma DroppedIsPruned(o: Options, contents: map<NodeID, Info>, kept: map<NodeID, Info>, ranked: seq<Info>, l: Life,
                        k: nat)
    requires Ranking(contents, ranked) && DroppedFrom(l, contents, kept, ranked, k)
    requires o.maxPeers > 0 && |kept| >= o.maxPeers && (k == 0 || |kept| <= o.maxPeers)
    ensures Pruned(o, l, contents, kept)
  {
    forall id | id in contents
        ensures exists j :: 0 <= j < |ranked| && ranked[j].id == id && ranked[j] == contents[id] {
      assert contents[id] in ranked;
    }
  }

  lemma AcceptOk(o: Options, self: NodeID, known: set<NodeID>, l: Life, id: NodeID, replaced: Option<NodeID>)
    requires LifeOk(o, self, known, l) && id != self && id !in l.connected && !Exhausted(o, l)
    requires replaced.Some? ==> replaced.value in l.connected
    ensures LifeOk(o, self, known + {id},
        l.(connected := l.connected + {id},
           evict := if replaced.Some? then l.evict + {replaced.value} else l.evict))
  {
    ConnectOk(o, self, known, l, id, if replaced.Some? then l.evict + {replaced.value} else l.evict);
  }

  lemma SubsetCounts(a: set<NodeID>, b: set<NodeID>)
    requires a <= b
    ensures |b - a| == |b| - |a|
  {
    assert b == a + (b - a);
  }

  lemma RunFacts(log: seq<Entry>, evicting: set<NodeID>)
    requires LogOk(log, evicting)
    ensures NoneTwice(log)
  {
  }

  lemma CandidateRefutes(l: Life, contents: map<NodeID, Info>, id: NodeID, score: nat, from: NodeID)
    requires Candidate(l, contents, id, score, from)
    ensures !NoCandidate(l, contents, id, score)
  {
  }

  lemma KnowMore(o: Options, self: NodeID, known: set<NodeID>, l: Life, id: NodeID)
    requires LifeOk(o, self, known, l)
    ensures LifeOk(o, self, known + {id}, l)
  {
  }

  function WithAddress(peer: Info, a: Address): Info
  {
    if a in peer.addresses then peer else peer.(addresses := peer.addresses[a := AddressInfo(0)])
  }

  /** Not in use, so it may be forgotten. */
  predicate Unused(l: Life, id: NodeID) { id !in l.dialing && id !in l.connected }

  /**
   What is kept is as it was; only unused peers go, and only for being too many; no unused peer is kept
   over a better one; and if there are still too many, every one is in use.
   */
  ghost predicate Pruned(o: Options, l: Life, contents: map<NodeID, Info>, kept: map<NodeID, Info>)
  {
    && (forall id :: id in kept ==> id in contents && kept[id] == contents[id])
    && (forall id :: id in contents && id !in kept ==> Unused(l, id))
    && (forall id, other :: id in contents && id !in kept && other in kept && Unused(l, other) ==>
          contents[id].Score() <= contents[other].Score())
    && (kept != contents ==> o.maxPeers > 0 && |kept| >= o.maxPeers)
    && (o.maxPeers > 0 && |kept| > o.maxPeers ==> forall id :: id in kept ==> !Unused(l, id))
  }

  /** A dial that reached the peer clears the failures of the address. */
  function Reached(peer: Info, a: Address, now: int): Info
  {
    peer.(lastConnected := now,
          addresses := if a in peer.addresses then peer.addresses[a := AddressInfo(0)] else peer.addresses)
  }

  function Failed(peer: Info, a: Address): Info
    requires a in peer.addresses
  {
    peer.(addresses := peer.addresses[a := AddressInfo(peer.addresses[a].dialFailures + 1)])
  }

  lemma DisconnectOk(o: Options, self: NodeID, known: set<NodeID>, l: Life, id: NodeID)
    requires LifeOk(o, self, known, l)
    ensures LifeOk(o, self, known,
        Life(l.dialing, l.upgrading - {id}, l.connected - {id}, l.ready - {id}, l.evict - {id}, l.evicting - {id}))
  {
    if id in l.connected {
      assert |l.connected - {id}| == |l.connected| - 1;
    } else {
      assert l.connected - {id} == l.connected;
    }
  }

  lemma NextIsNotDialing(l: Life, contents: map<NodeID, Info>, eligible: Address -> bool, id: NodeID)
    requires NextToDial(l, contents, eligible, id)
    ensures id in contents && id !in l.dialing
  {
  }

  lemma RankedIsKnown(contents: map<NodeID, Info>, order: seq<Info>, i: nat)
    requires Ranking(contents, order) && i < |order|
    ensures order[i].id in contents && contents[order[i].id] == order[i]
  {
  }

  lemma NotClaimed(o: Options, self: NodeID, known: set<NodeID>, l: Life, id: NodeID)
    requires LifeOk(o, self, known, l) && id !in l.dialing
    ensures id !in l.upgrading.Values
  {
  }

  lemma CandidateIsFree(l: Life, contents: map<NodeID, Info>, id: NodeID, score: nat, from: NodeID)
    requires Candidate(l, contents, id, score, from) && id !in l.upgrading.Values
    ensures Free(l, from)
  {
  }

  lemma NothingRanked(contents: map<NodeID, Info>, order: seq<Info>, l: Life, eligible: Address -> bool)
    requires Ranking(contents, order) && forall j :: 0 <= j < |order| ==> !Diallable(l, contents, eligible, order[j].id)
    ensures forall id :: !Diallable(l, contents, eligible, id)
  {
    forall id ensures !Diallable(l, contents, eligible, id) {
      assert id in contents ==> contents[id] in order;
    }
  }

  lemma BestByRank(contents: map<NodeID, Info>, order: seq<Info>, i: nat, l: Life, eligible: Address -> bool)
    requires Ranking(contents, order) && i < |order| && Diallable(l, contents, eligible, order[i].id)
    requires forall j :: 0 <= j < i ==> !Diallable(l, contents, eligible, order[j].id)
    ensures NextToDial(l, contents, eligible, order[i].id)
  {
    forall other | Diallable(l, contents, eligible, other) ensures contents[other].Score() <= order[i].Score() {
      var j :| 0 <= j < |order| && order[j] == contents[other];
    }
  }
}
