/**
 The store of known peers: one heap object per peer, and a cached ranking that holds the same objects.
 */
module Peers {
  import opened Wrappers

  type NodeID = nat

  /** The empty identifier. */
  const NO_ID: NodeID := 0
  const SCORE_PERSISTENT := 100

  datatype Address = Address(id: NodeID, endpoint: nat)
  datatype AddressInfo = AddressInfo(dialFailures: nat)

  datatype Info = Info(
    id: NodeID,
    addresses: map<Address, AddressInfo>,
    lastConnected: int,
    persistent: bool,
    height: int,
    fixedScore: nat
  )
  {
    function Score(): nat
    {
      if fixedScore > 0 then fixedScore else if persistent then SCORE_PERSISTENT else 0
    }
  }

  /** A fixed score counts alone; else a persistent peer scores 100 and any other nothing. */
  lemma Scores(p: Info)
    ensures p.fixedScore > 0 ==> p.Score() == p.fixedScore
    ensures p.fixedScore == 0 ==> p.Score() == if p.persistent then 100 else 0
  {
  }

  class Cell {
    var info: Info

    constructor (info: Info)
      ensures this.info == info
    {
      this.info := info;
    }
  }

  /** Every peer once, better scores first. */
  ghost predicate Ranking(contents: map<NodeID, Info>, ranked: seq<Info>)
  {
    && (forall i, j :: 0 <= i < j < |ranked| ==> ranked[i].id != ranked[j].id)
    && (forall i :: 0 <= i < |ranked| ==> ranked[i].id in contents && contents[ranked[i].id] == ranked[i])
    && (forall id :: id in contents ==> contents[id].id == id && contents[id] in ranked)
    && (forall i, j :: 0 <= i < j < |ranked| ==> ranked[i].Score() >= ranked[j].Score())
  }

  class PeerStore {
    var peers: map<NodeID, Cell>
    var ranked: Option<seq<Cell>>
    ghost var contents: map<NodeID, Info>
    ghost var Repr: set<object>

    ghost predicate Valid()
      reads this, Repr
    {
      && this in Repr
      && peers.Keys == contents.Keys
      && (forall id :: id in peers ==>
            peers[id] in Repr && peers[id].info == contents[id] && contents[id].id == id && id != NO_ID)
      && (ranked.Some? ==> Cached(ranked.value))
    }

    /** The cache lists the stored objects themselves, each once, in the order of their present scores. */
    ghost predicate Cached(cells: seq<Cell>)
      reads this, Repr
    {
      && (forall i :: 0 <= i < |cells| ==>
            cells[i] in Repr && cells[i].info.id in peers && peers[cells[i].info.id] == cells[i])
      && (forall id :: id in peers ==> peers[id] in cells)
      && (forall i, j :: 0 <= i < j < |cells| ==> cells[i] != cells[j])
      && (forall i, j :: 0 <= i < j < |cells| ==> cells[i].info.Score() >= cells[j].info.Score())
    }

    constructor ()
      ensures Valid() && fresh(Repr) && contents == map[] && ranked.None?
    {
      peers, ranked, contents := map[], None, map[];
      Repr := {this};
    }

    method Get(id: NodeID) returns (r: Option<Info>)
      requires Valid()
      ensures r == if id in contents then Some(contents[id]) else None
    {
      r := if id in peers then Some(peers[id].info) else None;
    }

    /**
     Store a peer. A new peer or a new score gets a new object and drops the ranking; otherwise the
     object is overwritten where it is, and the ranking keeps it.
     */
    method Set(peer: Info) returns (ok: bool)
      requires Valid()
      modifies Repr
      ensures Valid() && fresh(Repr - old(Repr))
      ensures ok <==> peer.id != NO_ID
      ensures contents == if ok then old(contents)[peer.id := peer] else old(contents)
      ensures ok && (peer.id !in old(contents) || old(contents)[peer.id].Score() != peer.Score()) ==> ranked.None?
      ensures !ok || (peer.id in old(contents) && old(contents)[peer.id].Score() == peer.Score()) ==>
                ranked == old(ranked)
    {
      if peer.id == NO_ID {
        return false;
      }
      if peer.id !in peers || peers[peer.id].info.Score() != peer.Score() {
        Replace(peer);
      } else {
        Overwrite(peer);
      }
      return true;
    }

    method Replace(peer: Info)
      requires Valid() && peer.id != NO_ID
      modifies this
      ensures Valid() && fresh(Repr - old(Repr)) && ranked.None? && contents == old(contents)[peer.id := peer]
    {
      var cell := new Cell(peer);
      peers := peers[peer.id := cell];
      Repr := Repr + {cell};
      ranked := None;
      contents := contents[peer.id := peer];
    }

    method Overwrite(peer: Info)
      requires Valid() && peer.id in contents && contents[peer.id].Score() == peer.Score()
      modifies Repr
      ensures Valid() && Repr == old(Repr) && ranked == old(ranked) && contents == old(contents)[peer.id := peer]
    {
      peers[peer.id].info := peer;
      contents := contents[peer.id := peer];
    }

    function Size(): (n: nat)
      requires Valid()
      reads this, Repr
      ensures n == |contents|
    {
      assert |peers.Keys| == |contents.Keys| && |peers.Keys| == |peers| && |contents.Keys| == |contents|;
      |peers|
    }

    method Delete(id: NodeID)
      requires Valid()
      modifies this
      ensures Valid() && Repr == old(Repr) && contents == old(contents) - {id}
      ensures id in old(contents) ==> ranked.None?
    {
      if id in peers {
        peers := peers - {id};
        contents := contents - {id};
        ranked := None;
      }
    }

    /** Put a cell behind all that score at least as much. */
    method Insert(cells: seq<Cell>, cell: Cell) returns (r: seq<Cell>)
      requires cell !in cells
      requires forall i, j :: 0 <= i < j < |cells| ==>
                 cells[i] != cells[j] && cells[i].info.Score() >= cells[j].info.Score()
      ensures forall c :: c in r <==> c in cells || c == cell
      ensures forall i, j :: 0 <= i < j < |r| ==> r[i] != r[j] && r[i].info.Score() >= r[j].info.Score()
    {
      var n := 0;
      while n < |cells| && cells[n].info.Score() >= cell.info.Score()
        invariant n <= |cells|
        invariant forall i :: 0 <= i < n ==> cells[i].info.Score() >= cell.info.Score()
      {
        n := n + 1;
      }
      r := cells[..n] + [cell] + cells[n..];
      assert forall i :: 0 <= i < n ==> r[i] == cells[i];
      assert forall i :: n <= i < |cells| ==> r[i + 1] == cells[i];
      assert forall i :: n < i < |r| ==> r[i] == cells[i - 1];
    }

    method Sort() returns (cells: seq<Cell>)
      requires Valid()
      ensures Cached(cells)
    {
      cells := [];
      var left := peers.Keys;
      while left != {}
        invariant left <= peers.Keys
        invariant forall c :: c in cells ==>
                    c in Repr && c.info.id in peers && peers[c.info.id] == c && c.info.id !in left
        invariant forall id :: id in peers && id !in left ==> peers[id] in cells
        invariant forall i, j :: 0 <= i < j < |cells| ==>
                    cells[i] != cells[j] && cells[i].info.Score() >= cells[j].info.Score()
        decreases left
      {
        var id :| id in left;
        cells := Insert(cells, peers[id]);
        left := left - {id};
      }
    }

    /** The cached ranking, or a fresh sort. */
    method Ranked() returns (r: seq<Cell>)
      requires Valid()
      modifies this`ranked
      ensures Valid() && ranked == Some(r) && Cached(r)
      ensures old(ranked).Some? ==> ranked == old(ranked)
    {
      if ranked.None? {
        var cells := Sort();
        ranked := Some(cells);
      }
      r := ranked.value;
    }

    function Infos(cells: seq<Cell>): (r: seq<Info>)
      reads cells
      ensures |r| == |cells| && forall i :: 0 <= i < |cells| ==> r[i] == cells[i].info
    {
      seq(|cells|, i requires 0 <= i < |cells| reads cells => cells[i].info)
    }

    /** The peers behind the ranking. */
    method RankedPeers() returns (r: seq<Info>)
      requires Valid()
      modifies this`ranked
      ensures Valid() && Ranking(contents, r)
    {
      var cells := Ranked();
      r := Infos(cells);
      RankingHolds(cells);
    }

    lemma RankingHolds(cells: seq<Cell>)
      requires Valid() && Cached(cells)
      ensures Ranking(contents, Infos(cells))
    {
      var infos := Infos(cells);
      forall id | id in contents ensures contents[id] in infos {
        var i :| 0 <= i < |cells| && cells[i] == peers[id];
        assert infos[i] == contents[id];
      }
    }
  }
}
