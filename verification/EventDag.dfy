/**
 The causality graph of events kept by the test harness, with a vector clock on every node.

 Clock entries are integers: the source stores them as 64-bit floats and only ever compares them and
 adds one.
 */
module EventDag {
  type EventID = nat
  type ReplicaID = nat
  type Clock = seq<int>

  datatype Event = Event(id: EventID, replica: ReplicaID)

  /** `prev` and `next` are 0 where there is no neighbour on the strand. */
  datatype Node = Node(
    event: Event,
    clock: Clock,
    prev: EventID,
    next: EventID,
    parents: set<EventID>,
    children: set<EventID>
  )

  datatype Dag = Dag(
    nodes: map<EventID, Node>,
    strands: map<ReplicaID, EventID>,
    latest: map<ReplicaID, EventID>,
    latestClocks: map<ReplicaID, Clock>)

  // ---- clocks ----

  function ZeroClock(n: nat): Clock { seq(n, _ => 0) }

  ghost predicate AtMost(c: Clock, d: Clock)
  {
    |c| == |d| && forall i :: 0 <= i < |c| ==> c[i] <= d[i]
  }

  ghost predicate Before(c: Clock, d: Clock)
  {
    AtMost(c, d) && exists i :: 0 <= i < |c| && c[i] < d[i]
  }

  method Lt(c: Clock, other: Clock) returns (r: bool)
    ensures r <==> Before(c, other)
  {
    if |c| != |other| {
      return false;
    }
    var oneLess := false;
    for i := 0 to |c|
      invariant forall k :: 0 <= k < i ==> c[k] <= other[k]
      invariant oneLess <==> exists k :: 0 <= k < i && c[k] < other[k]
    {
      if c[i] > other[i] {
        return false;
      }
      if c[i] < other[i] {
        oneLess := true;
      }
    }
    return oneLess;
  }

  method Eq(c: Clock, other: Clock) returns (r: bool)
    ensures r <==> c == other
  {
    if |c| != |other| {
      return false;
    }
    for i := 0 to |c|
      invariant forall k :: 0 <= k < i ==> c[k] == other[k]
    {
      if c[i] != other[i] {
        return false;
      }
    }
    return true;
  }

  /** The highest entry `i` of the clocks, at least 0. */
  function MaxAt(clocks: seq<Clock>, i: nat): (m: int)
    requires forall k :: 0 <= k < |clocks| ==> i < |clocks[k]|
    ensures m >= 0
    ensures forall k :: 0 <= k < |clocks| ==> clocks[k][i] <= m
    ensures m > 0 ==> exists k :: 0 <= k < |clocks| && clocks[k][i] == m
  {
    if clocks == [] then 0
    else
      var rest := clocks[..|clocks| - 1];
      var m := MaxAt(rest, i);
      var last := clocks[|clocks| - 1][i];
      assert forall k :: 0 <= k < |clocks| ==> clocks[k] == if k < |rest| then rest[k] else clocks[|clocks| - 1];
      if last > m then last else m
  }

  function NextEntry(replicas: seq<ReplicaID>, replica: ReplicaID, latest: Clock, parents: seq<Clock>, i: nat): int
    requires i < |replicas| == |latest| && forall k :: 0 <= k < |parents| ==> |parents[k]| == |replicas|
  {
    var m := MaxAt(parents, i);
    if replicas[i] == replica && m < latest[i] + 1 then latest[i] + 1 else m
  }

  function NextClock(replicas: seq<ReplicaID>, replica: ReplicaID, latest: Clock, parents: seq<Clock>): Clock
    requires |replicas| == |latest| && forall k :: 0 <= k < |parents| ==> |parents[k]| == |replicas|
  {
    seq(|replicas|, i requires 0 <= i < |replicas| => NextEntry(replicas, replica, latest, parents, i))
  }

  // ---- adding an event ----

  /** The listed events that are in the graph, in order. */
  function Known(nodes: map<EventID, Node>, ids: seq<EventID>): (r: seq<EventID>)
    ensures forall k :: 0 <= k < |r| ==> r[k] in nodes
  {
    if ids == [] then []
    else
      var r := Known(nodes, ids[..|ids| - 1]);
      var last := ids[|ids| - 1];
      if last in nodes then r + [last] else r
  }

  /** Parents of a new event: the known ones given, then the latest event of its own replica. */
  function ParentsFor(d: Dag, e: Event, given: seq<EventID>): seq<EventID>
  {
    Known(d.nodes, given) + if e.replica in d.latest then [d.latest[e.replica]] else []
  }

  /** `p` once the new event has been linked to it. */
  function Linked(d: Dag, e: Event, ps: seq<EventID>, p: EventID): Node
    requires p in d.nodes
  {
    var n := d.nodes[p];
    n.(children := if p in ps then n.children + {e.id} else n.children,
       next := if e.replica in d.latest && d.latest[e.replica] == p then e.id else n.next)
  }

  function Clocks(nodes: map<EventID, Node>, ids: seq<EventID>): (r: seq<Clock>)
    requires forall k :: 0 <= k < |ids| ==> ids[k] in nodes
    ensures |r| == |ids| && forall k :: 0 <= k < |r| ==> r[k] == nodes[ids[k]].clock
  {
    if ids == [] then [] else Clocks(nodes, ids[..|ids| - 1]) + [nodes[ids[|ids| - 1]].clock]
  }

  /** What callers and the graph owe each other: clocks have one entry per replica and pointers stay inside. */
  ghost predicate WellFormed(replicas: seq<ReplicaID>, d: Dag)
  {
    && (forall b :: b in d.nodes ==> |d.nodes[b].clock| == |replicas| && d.nodes[b].event.id == b)
    && (forall r :: r in d.latest ==> d.latest[r] in d.nodes)
    && (forall r :: r in replicas ==> r in d.latestClocks && |d.latestClocks[r]| == |replicas|)
  }

  function Members(ids: seq<EventID>): (r: set<EventID>)
    ensures forall p :: p in r <==> p in ids
  {
    set k | 0 <= k < |ids| :: ids[k]
  }

  function LinkAll(d: Dag, e: Event, ps: seq<EventID>): (r: map<EventID, Node>)
    ensures r.Keys == d.nodes.Keys && forall p :: p in d.nodes ==> r[p] == Linked(d, e, ps, p)
  {
    map p | p in d.nodes :: Linked(d, e, ps, p)
  }

  function NewNode(replicas: seq<ReplicaID>, d: Dag, e: Event, given: seq<EventID>): Node
    requires WellFormed(replicas, d) && e.replica in replicas
  {
    var ps := ParentsFor(d, e, given);
    Node(e,
         NextClock(replicas, e.replica, d.latestClocks[e.replica], Clocks(d.nodes, ps)),
         if e.replica in d.latest then d.latest[e.replica] else 0,
         0,
         Members(ps),
         {})
  }

  function AddNode(replicas: seq<ReplicaID>, d: Dag, e: Event, given: seq<EventID>): Dag
    requires WellFormed(replicas, d) && e.replica in replicas && e.id !in d.nodes
  {
    var node := NewNode(replicas, d, e, given);
    var ps := ParentsFor(d, e, given);
    Dag(LinkAll(d, e, ps)[e.id := node],
        if e.replica in d.strands then d.strands else d.strands[e.replica := e.id],
        d.latest[e.replica := e.id],
        d.latestClocks[e.replica := node.clock])
  }

  ghost predicate Added(replicas: seq<ReplicaID>, d: Dag, e: Event, given: seq<EventID>, d': Dag)
  {
    WellFormed(replicas, d) && e.replica in replicas && e.id !in d.nodes && d' == AddNode(replicas, d, e, given)
  }

  function EmptyDag(replicas: seq<ReplicaID>): Dag
  {
    Dag(map[], map[], map[], map r | r in replicas :: ZeroClock(|replicas|))
  }

  // ---- reachability ----

  /** A non-empty path: each event is a parent of the next. */
  ghost predicate Path(d: Dag, path: seq<EventID>)
  {
    && |path| >= 2
    && (forall i :: 0 <= i < |path| ==> path[i] in d.nodes)
    && (forall i :: 0 <= i < |path| - 1 ==> path[i] in d.nodes[path[i + 1]].parents)
  }

  ghost predicate Reaches(d: Dag, a: EventID, b: EventID)
  {
    exists path :: Path(d, path) && path[0] == a && path[|path| - 1] == b
  }

  /** The position of a replica in the store. */
  function Index(replicas: seq<ReplicaID>, r: ReplicaID): (i: nat)
    requires r in replicas
    ensures i < |replicas| && replicas[i] == r
  {
    if replicas[0] == r then 0 else 1 + Index(replicas[1..], r)
  }

  /** The clock entry of a replica in an event's clock. */
  function EntryFor(replicas: seq<ReplicaID>, r: ReplicaID, c: Clock): int
  {
    if r in replicas && |c| == |replicas| then c[Index(replicas, r)] else 0
  }

  // ---- the invariant: the past of every event, read off the clocks ----

  /** `past[b]` is everything `b` descends from; `rank` is the order of insertion. */
  datatype History = History(past: map<EventID, set<EventID>>, rank: map<EventID, nat>)

  ghost predicate Parental(d: Dag, h: History, a: EventID, b: EventID)
    requires b in d.nodes
  {
    exists p :: p in d.nodes[b].parents && (a == p || (p in h.past && a in h.past[p]))
  }

  ghost predicate Keyed(d: Dag, h: History)
  {
    && (forall b :: b in h.past <==> b in d.nodes)
    && (forall b :: b in h.rank <==> b in d.nodes)
    && (forall b :: b in d.nodes ==> h.rank[b] < |d.nodes|)
    && (forall b, p :: b in d.nodes && p in d.nodes[b].parents ==> p in d.nodes)
    && (forall b, p :: b in d.nodes && p in d.nodes[b].children ==> p in d.nodes)
    && (forall b, p :: b in d.nodes && p in h.past[b] ==> p in d.nodes)
  }

  /** Parents and children are mirror images. */
  ghost predicate Mirrored(d: Dag)
  {
    forall b, p :: b in d.nodes && p in d.nodes ==> (p in d.nodes[b].parents <==> b in d.nodes[p].children)
  }

  ghost predicate Ranked(h: History)
  {
    forall a, b :: b in h.past && b in h.rank && a in h.rank && a in h.past[b] ==> h.rank[a] < h.rank[b]
  }

  ghost predicate Pasts(d: Dag, h: History)
    requires Keyed(d, h)
  {
    forall a, b :: b in d.nodes ==> (a in h.past[b] <==> Parental(d, h, a, b))
  }

  ghost predicate Graph(d: Dag, h: History)
  {
    Keyed(d, h) && Mirrored(d) && Ranked(h) && Pasts(d, h)
  }

  /** The own entry of an event's clock. */
  ghost function Own(replicas: seq<ReplicaID>, n: Node): int
  {
    EntryFor(replicas, n.event.replica, n.clock)
  }

  ghost predicate Latest(replicas: seq<ReplicaID>, d: Dag, r: ReplicaID)
    requires WellFormed(replicas, d) && r in replicas
  {
    if r in d.latest then d.nodes[d.latest[r]].clock == d.latestClocks[r] && d.nodes[d.latest[r]].event.replica == r
    else d.latestClocks[r] == ZeroClock(|replicas|) && forall b :: b in d.nodes ==> d.nodes[b].event.replica != r
  }

  ghost predicate Clocked(replicas: seq<ReplicaID>, d: Dag)
  {
    && WellFormed(replicas, d)
    && (forall b :: b in d.nodes ==> d.nodes[b].event.replica in replicas && Own(replicas, d.nodes[b]) >= 1)
    && (forall b, r :: b in d.nodes && r in replicas ==>
          0 <= EntryFor(replicas, r, d.nodes[b].clock) <= EntryFor(replicas, r, d.latestClocks[r]))
    && (forall r :: r in replicas ==> Latest(replicas, d, r))
  }

  /** An event's own entry is at most `b`'s entry exactly when it is `b` or in the past of `b`. */
  ghost predicate Causal(replicas: seq<ReplicaID>, d: Dag, h: History)
    requires Clocked(replicas, d) && forall b :: b in d.nodes ==> b in h.past
  {
    && (forall a, b :: a in d.nodes && b in d.nodes ==>
          (Own(replicas, d.nodes[a]) <= EntryFor(replicas, d.nodes[a].event.replica, d.nodes[b].clock) <==>
              a == b || a in h.past[b]))
    && (forall a, b :: b in d.nodes && a in d.nodes && a in h.past[b] ==> AtMost(d.nodes[a].clock, d.nodes[b].clock))
  }

  ghost predicate Inv(replicas: seq<ReplicaID>, d: Dag, h: History)
  {
    Graph(d, h) && Clocked(replicas, d) && Causal(replicas, d, h)
  }

  // ---- adding an event keeps the invariant ----

  ghost function NewPast(d: Dag, h: History, ps: set<EventID>): set<EventID>
  {
    set a | a in d.nodes && exists p :: p in ps && (a == p || (p in h.past && a in h.past[p]))
  }

  ghost function NewHistory(d: Dag, h: History, e: Event, ps: set<EventID>): History
  {
    History(h.past[e.id := NewPast(d, h, ps)], h.rank[e.id := |d.nodes|])
  }

  lemma ParentsKnown(d: Dag, e: Event, given: seq<EventID>)
    requires forall r :: r in d.latest ==> d.latest[r] in d.nodes
    ensures forall k :: 0 <= k < |ParentsFor(d, e, given)| ==> ParentsFor(d, e, given)[k] in d.nodes
  {
  }

  /** What adding an event does to the nodes, without naming how. */
  ghost predicate Extends(d: Dag, d': Dag, e: Event, ps: set<EventID>)
  {
    && e.id !in d.nodes && (forall b :: b in d'.nodes <==> b in d.nodes || b == e.id) && |d'.nodes| == |d.nodes| + 1
    && (forall p :: p in ps ==> p in d.nodes)
    && d'.nodes[e.id].event == e && d'.nodes[e.id].children == {} && d'.nodes[e.id].parents == ps
    && (forall b :: b in d.nodes ==>
          d'.nodes[b].event == d.nodes[b].event && d'.nodes[b].clock == d.nodes[b].clock
              && d'.nodes[b].parents == d.nodes[b].parents)
    && (forall b, c :: b in d.nodes ==>
          (c in d'.nodes[b].children <==> c in d.nodes[b].children || (c == e.id && b in ps)))
  }

  lemma NewNodeFields(replicas: seq<ReplicaID>, d: Dag, e: Event, given: seq<EventID>)
    requires WellFormed(replicas, d) && e.replica in replicas
    ensures var n := NewNode(replicas, d, e, given);
      && n.event == e && n.children == {}
      && (forall p :: p in n.parents ==> p in d.nodes)
      && (forall p :: p in n.parents <==> p in ParentsFor(d, e, given))
  {
    ParentsKnown(d, e, given);
    hide ParentsFor, NextClock;
  }

  lemma AddedNodes(replicas: seq<ReplicaID>, d: Dag, e: Event, given: seq<EventID>)
    requires WellFormed(replicas, d) && e.replica in replicas && e.id !in d.nodes
    ensures var d' := AddNode(replicas, d, e, given);
      && (forall b :: b in d'.nodes <==> b in d.nodes || b == e.id) && |d'.nodes| == |d.nodes| + 1
      && d'.nodes[e.id] == NewNode(replicas, d, e, given)
      && (forall b :: b in d.nodes ==> d'.nodes[b] == Linked(d, e, ParentsFor(d, e, given), b))
  {
    hide NewNode, ParentsFor, Linked;
    var d' := AddNode(replicas, d, e, given);
    assert d'.nodes.Keys == d.nodes.Keys + {e.id};
    assert |d'.nodes.Keys| == |d'.nodes| && |d.nodes.Keys| == |d.nodes|;
  }

  lemma AddExtends(replicas: seq<ReplicaID>, d: Dag, e: Event, given: seq<EventID>)
    requires WellFormed(replicas, d) && e.replica in replicas && e.id !in d.nodes
    ensures Extends(d, AddNode(replicas, d, e, given), e, NewNode(replicas, d, e, given).parents)
  {
    AddedNodes(replicas, d, e, given);
    NewNodeFields(replicas, d, e, given);
    hide NewNode, ParentsFor, AddNode, WellFormed;
  }

  lemma {:induction false} KnownMembers(nodes: map<EventID, Node>, ids: seq<EventID>, p: EventID)
    ensures p in Known(nodes, ids) <==> p in ids && p in nodes
  {
    if ids != [] {
      var front, last := ids[..|ids| - 1], ids[|ids| - 1];
      assert ids == front + [last];
      KnownMembers(nodes, front, p);
    }
  }

  /**
   The clock of a new event: the highest entries of its parents, with the own entry past the latest event of its
   replica.
   */
  ghost predicate ClockFits(replicas: seq<ReplicaID>, d: Dag, e: Event, parents: set<EventID>, c: Clock)
    requires WellFormed(replicas, d) && e.replica in replicas
  {
    && |c| == |replicas|
    && (forall p, i :: p in parents && p in d.nodes && 0 <= i < |c| ==> d.nodes[p].clock[i] <= c[i])
    && forall i :: 0 <= i < |c| ==>
         var low := if replicas[i] == e.replica then d.latestClocks[e.replica][i] + 1 else 0;
         && c[i] >= low && c[i] >= 0
         && (c[i] == low || c[i] == 0 || exists p :: p in parents && p in d.nodes && d.nodes[p].clock[i] == c[i])
  }

  /**
   What an addition does: the parents are the given events that are in the graph, and the previous event of the
   replica if there is one; links are made both ways, and the strand of the replica goes on.
   */
  ghost predicate Entered(replicas: seq<ReplicaID>, d: Dag, e: Event, given: seq<EventID>, d': Dag)
    requires WellFormed(replicas, d) && e.replica in replicas
  {
    && d'.nodes.Keys == d.nodes.Keys + {e.id}
    && EnteredNode(replicas, d, e, given, d'.nodes[e.id])
    && (forall p :: p in d.nodes ==> LinkedOnly(d, e, d'.nodes[e.id].parents, p, d'.nodes[p]))
    && d'.latest == d.latest[e.replica := e.id]
    && d'.strands == (if e.replica in d.strands then d.strands else d.strands[e.replica := e.id])
    && d'.latestClocks == d.latestClocks[e.replica := d'.nodes[e.id].clock]
  }

  ghost predicate EnteredNode(replicas: seq<ReplicaID>, d: Dag, e: Event, given: seq<EventID>, n: Node)
    requires WellFormed(replicas, d) && e.replica in replicas
  {
    && n.event == e && n.children == {} && n.next == 0
    && n.prev == (if e.replica in d.latest then d.latest[e.replica] else 0)
    && (forall p :: p in n.parents <==>
          (p in given && p in d.nodes) || (e.replica in d.latest && p == d.latest[e.replica]))
    && ClockFits(replicas, d, e, n.parents, n.clock)
  }

  /** An older event gains a child if it is a parent, and a successor if it was the last of its replica. */
  predicate LinkedOnly(d: Dag, e: Event, parents: set<EventID>, p: EventID, n: Node)
    requires p in d.nodes
  {
    && n.event == d.nodes[p].event && n.clock == d.nodes[p].clock
    && n.parents == d.nodes[p].parents && n.prev == d.nodes[p].prev
    && n.children == d.nodes[p].children + (if p in parents then {e.id} else {})
    && n.next == if e.replica in d.latest && d.latest[e.replica] == p then e.id else d.nodes[p].next
  }

  lemma NewClockFits(replicas: seq<ReplicaID>, d: Dag, e: Event, given: seq<EventID>)
    requires WellFormed(replicas, d) && e.replica in replicas
    ensures ClockFits(replicas, d, e, NewNode(replicas, d, e, given).parents, NewNode(replicas, d, e, given).clock)
  {
    ParentsKnown(d, e, given);
    var ps, n := ParentsFor(d, e, given), NewNode(replicas, d, e, given);
    var own, clocks := d.latestClocks[e.replica], Clocks(d.nodes, ps);
    hide ParentsFor, WellFormed, Clocks;
    forall i | 0 <= i < |n.clock|
      ensures forall p :: p in n.parents ==> d.nodes[p].clock[i] <= n.clock[i]
      ensures var low := if replicas[i] == e.replica then own[i] + 1 else 0;
              && n.clock[i] >= low && n.clock[i] >= 0
              && (n.clock[i] == low || n.clock[i] == 0
                  || exists p :: p in n.parents && p in d.nodes && d.nodes[p].clock[i] == n.clock[i])
    {
      var m := MaxAt(clocks, i);
      assert n.clock[i] == NextEntry(replicas, e.replica, own, clocks, i);
      forall p | p in n.parents ensures d.nodes[p].clock[i] <= n.clock[i] {
        var k :| 0 <= k < |ps| && ps[k] == p;
        assert clocks[k][i] <= m;
      }
      if m > 0 {
        var k :| 0 <= k < |clocks| && clocks[k][i] == m;
        assert ps[k] in n.parents;
      }
    }
  }

  lemma NodeEnters(replicas: seq<ReplicaID>, d: Dag, e: Event, given: seq<EventID>)
    requires WellFormed(replicas, d) && e.replica in replicas
    ensures EnteredNode(replicas, d, e, given, NewNode(replicas, d, e, given))
  {
    var ps, n := ParentsFor(d, e, given), NewNode(replicas, d, e, given);
    NewClockFits(replicas, d, e, given);
    forall p ensures p in n.parents <==>
        (p in given && p in d.nodes) || (e.replica in d.latest && p == d.latest[e.replica]) {
      KnownMembers(d.nodes, given, p);
    }
    hide ParentsFor, NextClock, ClockFits, Known, Clocks, WellFormed;
  }

  lemma AddEnters(replicas: seq<ReplicaID>, d: Dag, e: Event, given: seq<EventID>)
    requires WellFormed(replicas, d) && e.replica in replicas && e.id !in d.nodes
    ensures Entered(replicas, d, e, given, AddNode(replicas, d, e, given))
  {
    var ps, n := ParentsFor(d, e, given), NewNode(replicas, d, e, given);
    NodeEnters(replicas, d, e, given);
    assert n.parents == Members(ps);
    hide ParentsFor, NewNode, EnteredNode, WellFormed;
  }

  lemma KeyedAdd(d: Dag, d': Dag, h: History, e: Event, ps: set<EventID>)
    requires Keyed(d, h) && Extends(d, d', e, ps)
    ensures Keyed(d', NewHistory(d, h, e, ps))
  {
    assert forall a :: a in NewPast(d, h, ps) ==> a in d.nodes;
    hide NewPast;
  }

  lemma MirroredAdd(d: Dag, d': Dag, h: History, e: Event, ps: set<EventID>)
    requires Keyed(d, h) && Mirrored(d) && Extends(d, d', e, ps)
    ensures Mirrored(d')
  {
  }

  lemma RankedAdd(d: Dag, h: History, e: Event, ps: set<EventID>)
    requires Keyed(d, h) && Ranked(h) && e.id !in d.nodes
    ensures Ranked(NewHistory(d, h, e, ps))
  {
  }

  lemma NewPastIsParental(d: Dag, d': Dag, h: History, e: Event, ps: set<EventID>, a: EventID)
    requires Keyed(d, h) && Extends(d, d', e, ps)
    ensures a in NewPast(d, h, ps) <==> Parental(d', NewHistory(d, h, e, ps), a, e.id)
  {
    assert forall p :: p in ps ==> NewHistory(d, h, e, ps).past[p] == h.past[p];
  }

  lemma OldPastIsParental(d: Dag, d': Dag, h: History, e: Event, ps: set<EventID>, a: EventID, b: EventID)
    requires Keyed(d, h) && Extends(d, d', e, ps) && b in d.nodes
    ensures Parental(d, h, a, b) <==> Parental(d', NewHistory(d, h, e, ps), a, b)
  {
    hide NewPast;
    assert forall p :: p in d.nodes[b].parents ==> NewHistory(d, h, e, ps).past[p] == h.past[p];
  }

  lemma PastsAdd(d: Dag, d': Dag, h: History, e: Event, ps: set<EventID>, a: EventID, b: EventID)
    requires Keyed(d, h) && Pasts(d, h) && Extends(d, d', e, ps) && b in d'.nodes
    ensures var h' := NewHistory(d, h, e, ps); b in h'.past && (a in h'.past[b] <==> Parental(d', h', a, b))
  {
    hide Parental, NewPast;
    if b == e.id {
      NewPastIsParental(d, d', h, e, ps, a);
    } else {
      OldPastIsParental(d, d', h, e, ps, a, b);
    }
  }

  lemma GraphAdd(d: Dag, d': Dag, h: History, e: Event, ps: set<EventID>)
    requires Graph(d, h) && Extends(d, d', e, ps)
    ensures Graph(d', NewHistory(d, h, e, ps))
  {
    hide Parental, Mirrored, Ranked, Keyed, NewHistory, Extends;
    KeyedAdd(d, d', h, e, ps);
    MirroredAdd(d, d', h, e, ps);
    assert e.id !in d.nodes by { IsNew(d, d', e, ps); }
    RankedAdd(d, h, e, ps);
    forall a, b | b in d'.nodes
      ensures var h' := NewHistory(d, h, e, ps); b in h'.past && (a in h'.past[b] <==> Parental(d', h', a, b))
    {
      PastsAdd(d, d', h, e, ps, a, b);
    }
  }

  lemma IsNew(d: Dag, d': Dag, e: Event, ps: set<EventID>)
    requires Extends(d, d', e, ps)
    ensures e.id !in d.nodes
  {
  }

  /** The own entry goes up by one: no parent is ahead of the replica itself. */
  lemma OwnEntry(replicas: seq<ReplicaID>, r: ReplicaID, own: Clock, clocks: seq<Clock>)
    requires |own| == |replicas| && r in replicas && forall k :: 0 <= k < |clocks| ==> |clocks[k]| == |replicas|
    requires EntryFor(replicas, r, own) >= 0
    requires forall k :: 0 <= k < |clocks| ==> EntryFor(replicas, r, clocks[k]) <= EntryFor(replicas, r, own)
    ensures var c := NextClock(replicas, r, own, clocks);
        |c| == |replicas| && EntryFor(replicas, r, c) == EntryFor(replicas, r, own) + 1
  {
    var i := Index(replicas, r);
    var m := MaxAt(clocks, i);
    assert NextClock(replicas, r, own, clocks)[i] == NextEntry(replicas, r, own, clocks, i);
    if m > 0 {
      var k :| 0 <= k < |clocks| && clocks[k][i] == m;
      assert m == EntryFor(replicas, r, clocks[k]) <= EntryFor(replicas, r, own);
    }
  }

  /** The new event's clock, entry by entry. */
  lemma NewEntry(replicas: seq<ReplicaID>, d: Dag, e: Event, given: seq<EventID>, r: ReplicaID)
    requires Clocked(replicas, d) && e.replica in replicas && e.id !in d.nodes && r in replicas
    ensures var c := NewNode(replicas, d, e, given).clock;
      var ps := ParentsFor(d, e, given);
      && |c| == |replicas| && EntryFor(replicas, r, c) >= 0
      && (r == e.replica ==> EntryFor(replicas, r, c) == EntryFor(replicas, r, d.latestClocks[r]) + 1)
      && (r != e.replica && EntryFor(replicas, r, c) > 0 ==>
            exists k :: 0 <= k < |ps| && ps[k] in d.nodes
                && EntryFor(replicas, r, d.nodes[ps[k]].clock) == EntryFor(replicas, r, c))
  {
    ParentsKnown(d, e, given);
    var ps := ParentsFor(d, e, given);
    var clocks := Clocks(d.nodes, ps);
    hide ParentsFor;
    LatestNonNegative(replicas, d, e.replica);
    forall k | 0 <= k < |ps| ensures clocks[k] == d.nodes[ps[k]].clock && |clocks[k]| == |replicas| {
    }
    if r == e.replica {
      forall k | 0 <= k < |clocks|
          ensures EntryFor(replicas, r, clocks[k]) <= EntryFor(replicas, r, d.latestClocks[r]) {
        EntryBounds(replicas, d, ps[k], r);
      }
      hide Clocked, EntryFor;
      OwnEntry(replicas, r, d.latestClocks[r], clocks);
    } else {
      OtherEntry(replicas, e.replica, d.latestClocks[e.replica], clocks, r);
    }
  }

  /** Entries of other replicas come from a parent. */
  lemma OtherEntry(replicas: seq<ReplicaID>, replica: ReplicaID, own: Clock, clocks: seq<Clock>, r: ReplicaID)
    requires |own| == |replicas| && r in replicas && r != replica
    requires forall k :: 0 <= k < |clocks| ==> |clocks[k]| == |replicas|
    ensures var c := NextClock(replicas, replica, own, clocks);
      && |c| == |replicas| && EntryFor(replicas, r, c) >= 0
      && (EntryFor(replicas, r, c) > 0 ==>
            exists k :: 0 <= k < |clocks| && EntryFor(replicas, r, clocks[k]) == EntryFor(replicas, r, c))
  {
    var i := Index(replicas, r);
    var m := MaxAt(clocks, i);
    assert NextClock(replicas, replica, own, clocks)[i] == NextEntry(replicas, replica, own, clocks, i) == m;
    if m > 0 {
      var k :| 0 <= k < |clocks| && clocks[k][i] == m;
      assert EntryFor(replicas, r, clocks[k]) == m;
    }
  }

  lemma ParentsAtMost(replicas: seq<ReplicaID>, d: Dag, e: Event, given: seq<EventID>, k: nat)
    requires Clocked(replicas, d) && e.replica in replicas && k < |ParentsFor(d, e, given)|
    ensures var p := ParentsFor(d, e, given)[k];
        p in d.nodes && AtMost(d.nodes[p].clock, NewNode(replicas, d, e, given).clock)
  {
    ParentsKnown(d, e, given);
    var ps := ParentsFor(d, e, given);
    var clocks := Clocks(d.nodes, ps);
    var c := NewNode(replicas, d, e, given).clock;
    forall i | 0 <= i < |replicas| ensures clocks[k][i] <= c[i] {
      assert c[i] == NextEntry(replicas, e.replica, d.latestClocks[e.replica], clocks, i);
    }
  }

  /** Some parent has the same entry. */
  ghost predicate CarriedOver(replicas: seq<ReplicaID>, d: Dag, n: Node, r: ReplicaID)
  {
    exists p :: p in n.parents && p in d.nodes
        && EntryFor(replicas, r, d.nodes[p].clock) == EntryFor(replicas, r, n.clock)
  }

  /** The facts about the new event's clock that the invariant rests on. */
  ghost predicate NewClockOk(replicas: seq<ReplicaID>, d: Dag, e: Event, n: Node)
    requires Clocked(replicas, d)
  {
    && |n.clock| == |replicas| && n.event == e && e.replica in replicas
    && (forall r :: r in replicas ==> EntryFor(replicas, r, n.clock) >= 0)
    && EntryFor(replicas, e.replica, n.clock) == EntryFor(replicas, e.replica, d.latestClocks[e.replica]) + 1
    && (forall r :: r in replicas && r != e.replica && EntryFor(replicas, r, n.clock) > 0 ==>
          CarriedOver(replicas, d, n, r))
    && (forall p :: p in n.parents ==> p in d.nodes && AtMost(d.nodes[p].clock, n.clock))
    && (e.replica in d.latest ==> d.latest[e.replica] in n.parents)
  }

  lemma NewClockIsOk(replicas: seq<ReplicaID>, d: Dag, e: Event, given: seq<EventID>)
    requires Clocked(replicas, d) && e.replica in replicas && e.id !in d.nodes
    ensures NewClockOk(replicas, d, e, NewNode(replicas, d, e, given))
  {
    hide NewNode, ParentsFor, Clocked, EntryFor, AtMost, WellFormed;
    ClockedFacts(replicas, d, e.replica);
    var n := NewNode(replicas, d, e, given);
    var ps := ParentsFor(d, e, given);
    NewNodeFields(replicas, d, e, given);
    LatestIsParent(d, e, given);
    forall r | r in replicas
      ensures EntryFor(replicas, r, n.clock) >= 0
      ensures r == e.replica ==> EntryFor(replicas, r, n.clock) == EntryFor(replicas, r, d.latestClocks[r]) + 1
      ensures r != e.replica && EntryFor(replicas, r, n.clock) > 0 ==> CarriedOver(replicas, d, n, r)
    {
      NewEntryOfNode(replicas, d, e, given, r);
    }
    forall p | p in n.parents ensures p in d.nodes && AtMost(d.nodes[p].clock, n.clock) {
      var k :| 0 <= k < |ps| && ps[k] == p;
      ParentsAtMost(replicas, d, e, given, k);
    }
    NewEntryOfNode(replicas, d, e, given, e.replica);
  }

  lemma ClockedFacts(replicas: seq<ReplicaID>, d: Dag, r: ReplicaID)
    requires Clocked(replicas, d) && r in replicas
    ensures WellFormed(replicas, d) && r in d.latestClocks
  {
  }

  lemma LatestIsParent(d: Dag, e: Event, given: seq<EventID>)
    ensures e.replica in d.latest ==> d.latest[e.replica] in ParentsFor(d, e, given)
  {
    var ps := ParentsFor(d, e, given);
    assert e.replica in d.latest ==> ps[|ps| - 1] == d.latest[e.replica];
  }

  lemma NewEntryOfNode(replicas: seq<ReplicaID>, d: Dag, e: Event, given: seq<EventID>, r: ReplicaID)
    requires Clocked(replicas, d) && e.replica in replicas && e.id !in d.nodes && r in replicas
    ensures var n := NewNode(replicas, d, e, given);
      && |n.clock| == |replicas| && EntryFor(replicas, r, n.clock) >= 0
      && (r == e.replica ==> EntryFor(replicas, r, n.clock) == EntryFor(replicas, r, d.latestClocks[r]) + 1)
      && (r != e.replica && EntryFor(replicas, r, n.clock) > 0 ==> CarriedOver(replicas, d, n, r))
  {
    hide NewNode, ParentsFor, Clocked, EntryFor, WellFormed;
    ClockedFacts(replicas, d, r);
    var n, ps := NewNode(replicas, d, e, given), ParentsFor(d, e, given);
    NewNodeFields(replicas, d, e, given);
    NewEntry(replicas, d, e, given, r);
    if r != e.replica && EntryFor(replicas, r, n.clock) > 0 {
      var k :| 0 <= k < |ps| && ps[k] in d.nodes
          && EntryFor(replicas, r, d.nodes[ps[k]].clock) == EntryFor(replicas, r, n.clock);
      assert ps[k] in n.parents;
    }
  }

  /** `d'` is `d` with the new node and its clock recorded as the latest of its replica. */
  ghost predicate Recorded(d: Dag, d': Dag, e: Event, n: Node)
  {
    && Extends(d, d', e, n.parents) && d'.nodes[e.id] == n
    && d'.latest == d.latest[e.replica := e.id]
    && d'.latestClocks == d.latestClocks[e.replica := n.clock]
  }

  lemma LatestAdd(replicas: seq<ReplicaID>, d: Dag, d': Dag, e: Event, n: Node, r: ReplicaID)
    requires Clocked(replicas, d) && NewClockOk(replicas, d, e, n) && Recorded(d, d', e, n) && WellFormed(replicas, d')
    requires r in replicas
    ensures Latest(replicas, d', r)
  {
    hide EntryFor, AtMost;
    assert Latest(replicas, d, r);
  }

  lemma EntryBounds(replicas: seq<ReplicaID>, d: Dag, b: EventID, r: ReplicaID)
    requires Clocked(replicas, d) && b in d.nodes && r in replicas
    ensures r in d.latestClocks
    ensures 0 <= EntryFor(replicas, r, d.nodes[b].clock) <= EntryFor(replicas, r, d.latestClocks[r])
  {
    hide EntryFor, Latest;
  }

  lemma LatestNonNegative(replicas: seq<ReplicaID>, d: Dag, r: ReplicaID)
    requires Clocked(replicas, d) && r in replicas
    ensures r in d.latestClocks && EntryFor(replicas, r, d.latestClocks[r]) >= 0
  {
    assert Latest(replicas, d, r);
    if r in d.latest {
      EntryBounds(replicas, d, d.latest[r], r);
    }
  }

  lemma NewEntryBounds(replicas: seq<ReplicaID>, d: Dag, e: Event, n: Node, r: ReplicaID)
    requires Clocked(replicas, d) && NewClockOk(replicas, d, e, n) && r in replicas && r != e.replica
    ensures 0 <= EntryFor(replicas, r, n.clock) <= EntryFor(replicas, r, d.latestClocks[r])
  {
    hide EntryFor, Clocked, AtMost;
    LatestNonNegative(replicas, d, r);
    if EntryFor(replicas, r, n.clock) > 0 {
      assert CarriedOver(replicas, d, n, r);
      var p :| p in n.parents && p in d.nodes
          && EntryFor(replicas, r, d.nodes[p].clock) == EntryFor(replicas, r, n.clock);
      EntryBounds(replicas, d, p, r);
    }
  }

  lemma EntriesAdd(replicas: seq<ReplicaID>, d: Dag, d': Dag, e: Event, n: Node, b: EventID, r: ReplicaID)
    requires Clocked(replicas, d) && NewClockOk(replicas, d, e, n) && Recorded(d, d', e, n)
    requires b in d'.nodes && r in replicas && r in d'.latestClocks
    ensures 0 <= EntryFor(replicas, r, d'.nodes[b].clock) <= EntryFor(replicas, r, d'.latestClocks[r])
  {
    hide EntryFor, Clocked, AtMost;
    LatestNonNegative(replicas, d, r);
    if b != e.id {
      EntryBounds(replicas, d, b, r);
    } else if r != e.replica {
      NewEntryBounds(replicas, d, e, n, r);
    }
  }

  lemma WellFormedAdd(replicas: seq<ReplicaID>, d: Dag, d': Dag, e: Event, n: Node)
    requires Clocked(replicas, d) && NewClockOk(replicas, d, e, n) && Recorded(d, d', e, n)
    ensures WellFormed(replicas, d')
  {
    hide EntryFor, AtMost, Latest;
  }

  lemma OwnAdd(replicas: seq<ReplicaID>, d: Dag, d': Dag, e: Event, n: Node, b: EventID)
    requires Clocked(replicas, d) && NewClockOk(replicas, d, e, n) && Recorded(d, d', e, n) && b in d'.nodes
    ensures d'.nodes[b].event.replica in replicas && Own(replicas, d'.nodes[b]) >= 1
  {
    LatestNonNegative(replicas, d, e.replica);
    hide EntryFor, AtMost, Latest;
    assert b != e.id ==> Own(replicas, d.nodes[b]) >= 1;
  }

  lemma ClockedAdd(replicas: seq<ReplicaID>, d: Dag, d': Dag, e: Event, n: Node)
    requires Clocked(replicas, d) && NewClockOk(replicas, d, e, n) && Recorded(d, d', e, n)
    ensures Clocked(replicas, d')
  {
    hide EntryFor, Latest, NewClockOk, Recorded, Own;
    WellFormedAdd(replicas, d, d', e, n);
    forall b | b in d'.nodes ensures d'.nodes[b].event.replica in replicas && Own(replicas, d'.nodes[b]) >= 1 {
      OwnAdd(replicas, d, d', e, n, b);
    }
    forall r | r in replicas ensures Latest(replicas, d', r) {
      LatestAdd(replicas, d, d', e, n, r);
    }
    forall b, r | b in d'.nodes && r in replicas
      ensures 0 <= EntryFor(replicas, r, d'.nodes[b].clock) <= EntryFor(replicas, r, d'.latestClocks[r])
    {
      EntriesAdd(replicas, d, d', e, n, b, r);
    }
  }

  lemma CausalAt(replicas: seq<ReplicaID>, d: Dag, h: History, a: EventID, b: EventID)
    requires Keyed(d, h) && Clocked(replicas, d) && Causal(replicas, d, h) && a in d.nodes && b in d.nodes
    ensures Own(replicas, d.nodes[a]) <= EntryFor(replicas, d.nodes[a].event.replica, d.nodes[b].clock) <==>
              a == b || a in h.past[b]
    ensures a in h.past[b] ==> AtMost(d.nodes[a].clock, d.nodes[b].clock)
  {
    hide EntryFor, AtMost, Own, Latest;
  }

  lemma OwnFacts(replicas: seq<ReplicaID>, d: Dag, a: EventID)
    requires Clocked(replicas, d) && a in d.nodes
    ensures d.nodes[a].event.replica in replicas && Own(replicas, d.nodes[a]) >= 1 && |d.nodes[a].clock| == |replicas|
  {
    hide EntryFor, Own, Latest;
  }

  lemma AtMostEntry(replicas: seq<ReplicaID>, r: ReplicaID, c: Clock, c': Clock)
    requires AtMost(c, c')
    ensures EntryFor(replicas, r, c) <= EntryFor(replicas, r, c')
  {
  }

  /** An old event of the new event's own replica is always in the new past. */
  lemma CausalSameReplica(replicas: seq<ReplicaID>, d: Dag, h: History, e: Event, n: Node, a: EventID)
    requires Keyed(d, h) && Clocked(replicas, d) && Causal(replicas, d, h) && NewClockOk(replicas, d, e, n)
    requires a in d.nodes
    requires d.nodes[a].event.replica == e.replica
    ensures Own(replicas, d.nodes[a]) <= EntryFor(replicas, e.replica, n.clock) && a in NewPast(d, h, n.parents)
  {
    hide EntryFor, Causal, AtMost;
    assert Latest(replicas, d, e.replica);
    var l := d.latest[e.replica];
    EntryBounds(replicas, d, a, e.replica);
    CausalAt(replicas, d, h, a, l);
    assert l in n.parents && l in h.past && (a == l || a in h.past[l]);
  }

  /** An entry of another replica comes from a parent, so what it covers is in the parent's past. */
  lemma CoveredIsPast(replicas: seq<ReplicaID>, d: Dag, h: History, e: Event, n: Node, a: EventID)
    requires Keyed(d, h) && Clocked(replicas, d) && Causal(replicas, d, h) && NewClockOk(replicas, d, e, n)
    requires a in d.nodes
    requires d.nodes[a].event.replica != e.replica
    requires Own(replicas, d.nodes[a]) <= EntryFor(replicas, d.nodes[a].event.replica, n.clock)
    ensures a in NewPast(d, h, n.parents)
  {
    var r := d.nodes[a].event.replica;
    OwnFacts(replicas, d, a);
    hide EntryFor, Causal, AtMost, Clocked, Own;
    assert CarriedOver(replicas, d, n, r);
    var p :| p in n.parents && p in d.nodes
        && EntryFor(replicas, r, d.nodes[p].clock) == EntryFor(replicas, r, n.clock);
    hide NewClockOk;
    CausalAt(replicas, d, h, a, p);
    assert p in h.past;
  }

  lemma PastIsCovered(replicas: seq<ReplicaID>, d: Dag, h: History, e: Event, n: Node, a: EventID)
    requires Keyed(d, h) && Clocked(replicas, d) && Causal(replicas, d, h) && NewClockOk(replicas, d, e, n)
    requires a in NewPast(d, h, n.parents)
    ensures Own(replicas, d.nodes[a]) <= EntryFor(replicas, d.nodes[a].event.replica, n.clock)
  {
    var p :| p in n.parents && (a == p || (p in h.past && a in h.past[p]));
    assert p in d.nodes && AtMost(d.nodes[p].clock, n.clock);
    hide EntryFor, Causal, AtMost, Clocked, Own, NewClockOk;
    CausalAt(replicas, d, h, a, p);
    AtMostEntry(replicas, d.nodes[a].event.replica, d.nodes[p].clock, n.clock);
  }

  lemma PastAtMost(replicas: seq<ReplicaID>, d: Dag, h: History, e: Event, n: Node, a: EventID)
    requires Keyed(d, h) && Clocked(replicas, d) && Causal(replicas, d, h) && NewClockOk(replicas, d, e, n)
    requires a in NewPast(d, h, n.parents)
    ensures a in d.nodes && AtMost(d.nodes[a].clock, n.clock)
  {
    var p :| p in n.parents && (a == p || (p in h.past && a in h.past[p]));
    assert AtMost(d.nodes[p].clock, n.clock);
    if a != p {
      assert AtMost(d.nodes[a].clock, d.nodes[p].clock);
    }
  }

  lemma CausalAdd(replicas: seq<ReplicaID>, d: Dag, d': Dag, h: History, e: Event, n: Node)
    requires Keyed(d, h) && Clocked(replicas, d) && Causal(replicas, d, h)
    requires NewClockOk(replicas, d, e, n) && Recorded(d, d', e, n) && Clocked(replicas, d')
    ensures Keyed(d', NewHistory(d, h, e, n.parents)) && Causal(replicas, d', NewHistory(d, h, e, n.parents))
  {
    KeyedAdd(d, d', h, e, n.parents);
    var h' := NewHistory(d, h, e, n.parents);
    forall a, b | a in d'.nodes && b in d'.nodes
      ensures Own(replicas, d'.nodes[a]) <= EntryFor(replicas, d'.nodes[a].event.replica, d'.nodes[b].clock) <==>
                a == b || a in h'.past[b]
      ensures a in h'.past[b] ==> AtMost(d'.nodes[a].clock, d'.nodes[b].clock)
    {
      CausalPair(replicas, d, d', h, e, n, a, b);
    }
  }

  lemma CausalPair(replicas: seq<ReplicaID>, d: Dag, d': Dag, h: History, e: Event, n: Node, a: EventID, b: EventID)
    requires Keyed(d, h) && Clocked(replicas, d) && Causal(replicas, d, h)
    requires NewClockOk(replicas, d, e, n) && Recorded(d, d', e, n) && Clocked(replicas, d')
    requires Keyed(d', NewHistory(d, h, e, n.parents))
    requires a in d'.nodes && b in d'.nodes
    ensures var h' := NewHistory(d, h, e, n.parents);
      && (Own(replicas, d'.nodes[a]) <= EntryFor(replicas, d'.nodes[a].event.replica, d'.nodes[b].clock) <==>
            a == b || a in h'.past[b])
      && (a in h'.past[b] ==> AtMost(d'.nodes[a].clock, d'.nodes[b].clock))
  {
    hide EntryFor, AtMost, Causal, Clocked, Keyed, NewClockOk, NewPast;
    var h' := NewHistory(d, h, e, n.parents);
    if b != e.id && a != e.id {
      CausalAt(replicas, d, h, a, b);
    } else if a != e.id {
      if d.nodes[a].event.replica == e.replica {
        CausalSameReplica(replicas, d, h, e, n, a);
      } else if Own(replicas, d.nodes[a]) <= EntryFor(replicas, d.nodes[a].event.replica, n.clock) {
        CoveredIsPast(replicas, d, h, e, n, a);
      }
      if a in h'.past[b] {
        PastIsCovered(replicas, d, h, e, n, a);
        PastAtMost(replicas, d, h, e, n, a);
      }
    } else {
      NewIsLater(replicas, d, h, e, n);
      if b != e.id {
        NewEntryIsLater(replicas, d, e, n, b);
      }
    }
  }

  lemma NewIsLater(replicas: seq<ReplicaID>, d: Dag, h: History, e: Event, n: Node)
    requires Keyed(d, h) && e.id !in d.nodes
    ensures e.id !in NewPast(d, h, n.parents) && forall b :: b in d.nodes ==> b in h.past && e.id !in h.past[b]
  {
  }

  lemma NewEntryIsLater(replicas: seq<ReplicaID>, d: Dag, e: Event, n: Node, b: EventID)
    requires Clocked(replicas, d) && NewClockOk(replicas, d, e, n) && b in d.nodes
    ensures EntryFor(replicas, e.replica, d.nodes[b].clock) < Own(replicas, n)
  {
    hide EntryFor;
    EntryBounds(replicas, d, b, e.replica);
  }

  lemma AddInv(replicas: seq<ReplicaID>, d: Dag, h: History, e: Event, given: seq<EventID>)
    requires Inv(replicas, d, h) && e.replica in replicas && e.id !in d.nodes
    ensures Inv(replicas, AddNode(replicas, d, e, given), NewHistory(d, h, e, NewNode(replicas, d, e, given).parents))
  {
    var n := NewNode(replicas, d, e, given);
    var d' := AddNode(replicas, d, e, given);
    AddExtends(replicas, d, e, given);
    NewClockIsOk(replicas, d, e, given);
    assert Recorded(d, d', e, n) by {
      hide NewNode, Linked, Extends;
    }
    hide NewNode, AddNode, Recorded, NewClockOk, Extends, Clocked, Causal;
    GraphAdd(d, d', h, e, n.parents);
    ClockedAdd(replicas, d, d', e, n);
    CausalAdd(replicas, d, d', h, e, n);
  }

  // ---- the past is what reaches ----

  /** A parent is in the past and was added before; the past of a parent is in the past. */
  lemma ParentFacts(d: Dag, h: History, p: EventID, b: EventID)
    requires Graph(d, h) && b in d.nodes && p in d.nodes[b].parents
    ensures p in d.nodes && p in h.past && b in h.past && p in h.past[b] && p in h.rank && b in h.rank
    ensures h.rank[p] < h.rank[b]
    ensures forall a :: a in h.past[p] ==> a in h.past[b]
  {
    hide Mirrored;
    assert Parental(d, h, p, b);
    forall a | a in h.past[p] ensures a in h.past[b] {
      assert Parental(d, h, a, b);
    }
  }

  lemma {:induction false} PathIsPast(d: Dag, h: History, path: seq<EventID>)
    requires Graph(d, h) && Path(d, path)
    ensures path[|path| - 1] in h.past && path[0] in h.past[path[|path| - 1]]
  {
    hide Graph;
    var p := path[|path| - 2];
    ParentFacts(d, h, p, path[|path| - 1]);
    if |path| > 2 {
      var front := path[..|path| - 1];
      PathIsPast(d, h, front);
      assert front[|front| - 1] == p;
    }
  }

  lemma PastHasParent(d: Dag, h: History, a: EventID, b: EventID) returns (p: EventID)
    requires Graph(d, h) && b in d.nodes && a in h.past[b]
    ensures p in d.nodes[b].parents && (a == p || (p in h.past && a in h.past[p]))
  {
    hide Mirrored, Ranked;
    assert Parental(d, h, a, b);
    p :| p in d.nodes[b].parents && (a == p || (p in h.past && a in h.past[p]));
  }

  lemma {:induction false} PastIsPath(d: Dag, h: History, a: EventID, b: EventID) returns (path: seq<EventID>)
    requires Graph(d, h) && b in d.nodes && b in h.past && a in h.past[b] && b in h.rank
    ensures Path(d, path) && path[0] == a && path[|path| - 1] == b
    decreases h.rank[b]
  {
    hide Graph;
    var p := PastHasParent(d, h, a, b);
    ParentFacts(d, h, p, b);
    if a == p {
      path := [a, b];
    } else {
      var front := PastIsPath(d, h, a, p);
      path := front + [b];
    }
  }

  lemma ReachesIsPast(d: Dag, h: History, a: EventID, b: EventID)
    requires Graph(d, h) && b in d.nodes
    ensures Reaches(d, a, b) <==> a in h.past[b]
  {
    hide Parental, Mirrored;
    if Reaches(d, a, b) {
      var path :| Path(d, path) && path[0] == a && path[|path| - 1] == b;
      PathIsPast(d, h, path);
    }
    if a in h.past[b] {
      var path := PastIsPath(d, h, a, b);
    }
  }

  /** Clock order is causality. */
  lemma ClockOrderIsReachability(replicas: seq<ReplicaID>, d: Dag, h: History, a: EventID, b: EventID)
    requires Inv(replicas, d, h) && a in d.nodes && b in d.nodes
    ensures Before(d.nodes[a].clock, d.nodes[b].clock) <==> Reaches(d, a, b)
    ensures !Reaches(d, a, a)
    ensures a != b ==> d.nodes[a].clock != d.nodes[b].clock
  {
    ReachesIsPast(d, h, a, b);
    ReachesIsPast(d, h, a, a);
    CausalAt(replicas, d, h, a, b);
    CausalAt(replicas, d, h, b, a);
    OwnFacts(replicas, d, a);
    OwnFacts(replicas, d, b);
    assert !(a in h.past[b] && b in h.past[a]) && a !in h.past[a];
    hide Graph, Clocked, Causal, Reaches;
    if a in h.past[b] {
      assert Own(replicas, d.nodes[b]) > EntryFor(replicas, d.nodes[b].event.replica, d.nodes[a].clock);
    }
  }

  // ---- every run ----

  datatype Add = Add(event: Event, given: seq<EventID>)

  /** Events of known replicas with fresh identifiers. */
  ghost predicate Admissible(replicas: seq<ReplicaID>, adds: seq<Add>)
  {
    && (forall k :: 0 <= k < |adds| ==> adds[k].event.replica in replicas)
    && (forall j, k :: 0 <= j < k < |adds| ==> adds[j].event.id != adds[k].event.id)
  }

  lemma EmptyInv(replicas: seq<ReplicaID>)
    ensures Inv(replicas, EmptyDag(replicas), History(map[], map[]))
    ensures Ids([]) == {} && EmptyDag(replicas).nodes == map[]
  {
  }

  ghost function Step(replicas: seq<ReplicaID>, d: Dag, h: History, e: Event, given: seq<EventID>): (r: (Dag, History))
    requires Inv(replicas, d, h) && e.replica in replicas && e.id !in d.nodes
    ensures Inv(replicas, r.0, r.1) && r.0 == AddNode(replicas, d, e, given)
    ensures forall b :: b in r.0.nodes <==> b in d.nodes || b == e.id
  {
    hide Graph, Causal, NewHistory, NewNode, AddNode;
    AddInv(replicas, d, h, e, given);
    AddedNodes(replicas, d, e, given);
    (AddNode(replicas, d, e, given), NewHistory(d, h, e, NewNode(replicas, d, e, given).parents))
  }

  ghost function Ids(adds: seq<Add>): set<EventID>
  {
    set k | 0 <= k < |adds| :: adds[k].event.id
  }

  /** The graph after a sequence of additions, with its history. */
  ghost function Run(replicas: seq<ReplicaID>, adds: seq<Add>): (r: (Dag, History))
    requires Admissible(replicas, adds)
    ensures Inv(replicas, r.0, r.1)
    ensures forall b :: b in r.0.nodes <==> b in Ids(adds)
  {
    hide Inv, Step, Admissible, Ids, EmptyDag;
    if adds == [] then
      EmptyInv(replicas);
      (EmptyDag(replicas), History(map[], map[]))
    else
      AdmissibleStep(replicas, adds);
      var (d, h) := Run(replicas, adds[..|adds| - 1]);
      Step(replicas, d, h, adds[|adds| - 1].event, adds[|adds| - 1].given)
  }

  lemma AdmissibleStep(replicas: seq<ReplicaID>, adds: seq<Add>)
    requires Admissible(replicas, adds) && |adds| > 0
    ensures Admissible(replicas, adds[..|adds| - 1]) && adds[|adds| - 1].event.replica in replicas
    ensures adds[|adds| - 1].event.id !in Ids(adds[..|adds| - 1])
    ensures Ids(adds) == Ids(adds[..|adds| - 1]) + {adds[|adds| - 1].event.id}
  {
    var n := |adds| - 1;
    forall b | b in Ids(adds) ensures b in Ids(adds[..n]) + {adds[n].event.id} {
      var k :| 0 <= k < |adds| && adds[k].event.id == b;
      assert k < n ==> adds[..n][k].event.id == b;
    }
  }

  // ---- what the graph holds, read off the additions alone ----

  /** Addition `j` is the last one of the replica among the first `n`. */
  predicate LastOf(adds: seq<Add>, n: nat, r: ReplicaID, j: nat)
    requires n <= |adds|
  {
    j < n && adds[j].event.replica == r && forall i :: j < i < n ==> adds[i].event.replica != r
  }

  /** Addition `j` is a cause of addition `k`: it came before, and is named by it or is the last of its replica. */
  predicate Cause(adds: seq<Add>, j: nat, k: nat)
    requires k < |adds|
  {
    j < k && (adds[j].event.id in adds[k].given || LastOf(adds, k, adds[k].event.replica, j))
  }

  /** A chain of causes from one addition to another. */
  ghost predicate Causes(adds: seq<Add>, path: seq<nat>)
  {
    && |path| >= 2 && (forall i :: 0 <= i < |path| ==> path[i] < |adds|)
    && forall i :: 0 <= i < |path| - 1 ==> Cause(adds, path[i], path[i + 1])
  }

  ghost predicate HappensBefore(adds: seq<Add>, j: nat, k: nat)
  {
    exists path :: Causes(adds, path) && path[0] == j && path[|path| - 1] == k
  }

  ghost predicate Events(adds: seq<Add>, d: Dag)
  {
    forall k :: 0 <= k < |adds| ==> adds[k].event.id in d.nodes && d.nodes[adds[k].event.id].event == adds[k].event
  }

  /** The latest event of a replica is its last one. */
  ghost predicate Lasts(adds: seq<Add>, d: Dag)
  {
    && (forall r, j: nat :: j < |adds| && LastOf(adds, |adds|, r, j) ==>
          r in d.latest && d.latest[r] == adds[j].event.id)
    && (forall r :: r in d.latest ==> exists j: nat :: j < |adds| && LastOf(adds, |adds|, r, j))
  }

  ghost predicate Holds(adds: seq<Add>, d: Dag)
  {
    d.nodes.Keys == Ids(adds) && Events(adds, d) && Lasts(adds, d)
  }

  /** The parents of an event are exactly its causes. */
  ghost predicate Parented(adds: seq<Add>, d: Dag)
  {
    forall j: nat, k :: j < |adds| && 0 <= k < |adds| ==>
      && adds[k].event.id in d.nodes
      && (adds[j].event.id in d.nodes[adds[k].event.id].parents <==> Cause(adds, j, k))
  }

  /** `k` follows `j` on their strand. */
  predicate Neighbours(adds: seq<Add>, d: Dag, j: nat, k: nat)
    requires j < |adds| && k < |adds|
  {
    && adds[k].event.id in d.nodes && d.nodes[adds[k].event.id].prev == adds[j].event.id
    && adds[j].event.id in d.nodes && d.nodes[adds[j].event.id].next == adds[k].event.id
  }

  predicate Starts(adds: seq<Add>, d: Dag, k: nat)
    requires k < |adds|
  {
    && adds[k].event.id in d.nodes && d.nodes[adds[k].event.id].prev == 0
    && adds[k].event.replica in d.strands && d.strands[adds[k].event.replica] == adds[k].event.id
  }

  predicate Ends(adds: seq<Add>, d: Dag, k: nat)
    requires k < |adds|
  {
    adds[k].event.id in d.nodes && d.nodes[adds[k].event.id].next == 0
  }

  /** Neighbours on a strand are consecutive events of one replica; it starts at the first and ends at the last. */
  ghost predicate Stranded(adds: seq<Add>, d: Dag)
  {
    && d.strands.Keys == d.latest.Keys
    && (forall j, k :: 0 <= j < k < |adds| && LastOf(adds, k, adds[k].event.replica, j) ==> Neighbours(adds, d, j, k))
    && (forall k :: 0 <= k < |adds| && First(adds, k) ==> Starts(adds, d, k))
    && (forall k :: 0 <= k < |adds| && LastOf(adds, |adds|, adds[k].event.replica, k) ==> Ends(adds, d, k))
  }

  predicate First(adds: seq<Add>, k: nat)
    requires k < |adds|
  {
    forall j :: 0 <= j < k ==> adds[j].event.replica != adds[k].event.replica
  }

  lemma LastOfStep(adds: seq<Add>, r: ReplicaID, j: nat)
    requires |adds| > 0 && j < |adds|
    ensures var n := |adds| - 1;
            LastOf(adds, |adds|, r, j) <==>
              if adds[n].event.replica == r then j == n else j < n && LastOf(adds[..n], n, r, j)
  {
    var n := |adds| - 1;
    assert forall i :: 0 <= i < n ==> adds[..n][i] == adds[i];
    if adds[n].event.replica == r && j < n {
      assert !LastOf(adds, |adds|, r, j);
    }
  }

  lemma PrefixOf(adds: seq<Add>, n: nat, m: nat, r: ReplicaID, j: nat)
    requires m <= n <= |adds|
    ensures LastOf(adds[..n], m, r, j) <==> LastOf(adds, m, r, j)
    ensures m < n ==> (Cause(adds[..n], j, m) <==> Cause(adds, j, m))
  {
    assert forall i :: 0 <= i < n ==> adds[..n][i] == adds[i];
  }

  /** The last addition is made to the graph of the ones before it. */
  ghost predicate Grows(replicas: seq<ReplicaID>, adds: seq<Add>, d: Dag, d': Dag)
  {
    && |adds| > 0 && Admissible(replicas, adds) && adds[|adds| - 1].event.replica in replicas
    && WellFormed(replicas, d)
    && Entered(replicas, d, adds[|adds| - 1].event, adds[|adds| - 1].given, d')
  }

  lemma LastsStep(replicas: seq<ReplicaID>, adds: seq<Add>, d: Dag, d': Dag)
    requires Grows(replicas, adds, d, d') && Holds(adds[..|adds| - 1], d)
    ensures Lasts(adds, d')
  {
    hide WellFormed, LastOf, Events, EnteredNode, LinkedOnly;
    var n := |adds| - 1;
    var e := adds[n].event;
    assert forall k :: 0 <= k < n ==> adds[..n][k] == adds[k];
    forall r, j: nat | j < |adds| && LastOf(adds, |adds|, r, j)
      ensures r in d'.latest && d'.latest[r] == adds[j].event.id
    {
      LastOfStep(adds, r, j);
    }
    forall r | r in d'.latest ensures exists j: nat :: j < |adds| && LastOf(adds, |adds|, r, j) {
      if r == e.replica {
        LastOfStep(adds, r, n);
      } else {
        var j: nat :| j < n && LastOf(adds[..n], n, r, j);
        LastOfStep(adds, r, j);
      }
    }
  }

  lemma EventsStep(replicas: seq<ReplicaID>, adds: seq<Add>, d: Dag, d': Dag)
    requires Grows(replicas, adds, d, d') && Holds(adds[..|adds| - 1], d)
    ensures Events(adds, d')
  {
    var n := |adds| - 1;
    hide Grows, LastOf, Lasts;
    forall k | 0 <= k < |adds|
      ensures adds[k].event.id in d'.nodes && d'.nodes[adds[k].event.id].event == adds[k].event
    {
      if k < n {
        OldLinked(replicas, adds, d, d', k);
        assert adds[..n][k] == adds[k];
      } else {
        EnteredEvent(replicas, adds, d, d');
      }
    }
  }

  lemma HoldsStep(replicas: seq<ReplicaID>, adds: seq<Add>, d: Dag, d': Dag)
    requires Grows(replicas, adds, d, d') && Holds(adds[..|adds| - 1], d)
    ensures Holds(adds, d')
  {
    AdmissibleStep(replicas, adds);
    LastsStep(replicas, adds, d, d');
    EventsStep(replicas, adds, d, d');
    EnteredKeys(replicas, adds, d, d');
    hide Grows, Events, Lasts;
  }

  lemma EnteredKeys(replicas: seq<ReplicaID>, adds: seq<Add>, d: Dag, d': Dag)
    requires Grows(replicas, adds, d, d')
    ensures d'.nodes.Keys == d.nodes.Keys + {adds[|adds| - 1].event.id}
  {
    hide WellFormed, EnteredNode, LinkedOnly;
  }

  lemma EnteredEvent(replicas: seq<ReplicaID>, adds: seq<Add>, d: Dag, d': Dag)
    requires Grows(replicas, adds, d, d')
    ensures var n := |adds| - 1; adds[n].event.id in d'.nodes && d'.nodes[adds[n].event.id].event == adds[n].event
  {
  }

  /** An older event is linked at most. */
  predicate StillThere(adds: seq<Add>, d: Dag, d': Dag, k: nat)
    requires k < |adds|
  {
    var id, e := adds[k].event.id, adds[|adds| - 1].event;
    && id in d.nodes && id in d'.nodes && e.id in d'.nodes && e.id !in d.nodes
    && LinkedOnly(d, e, d'.nodes[e.id].parents, id, d'.nodes[id])
  }

  lemma OldLinked(replicas: seq<ReplicaID>, adds: seq<Add>, d: Dag, d': Dag, k: nat)
    requires k < |adds| - 1 && Grows(replicas, adds, d, d') && Holds(adds[..|adds| - 1], d)
    ensures StillThere(adds, d, d', k)
  {
    var n := |adds| - 1;
    hide ClockFits, WellFormed, LastOf, EnteredNode, LinkedOnly;
    AdmissibleStep(replicas, adds);
    assert adds[..n][k] == adds[k];
  }

  lemma ParentedStep(replicas: seq<ReplicaID>, adds: seq<Add>, d: Dag, d': Dag, h: History, j: nat, k: nat)
    requires Grows(replicas, adds, d, d') && Holds(adds[..|adds| - 1], d) && Parented(adds[..|adds| - 1], d)
    requires Keyed(d, h) && j < |adds| && k < |adds|
    ensures adds[k].event.id in d'.nodes
    ensures adds[j].event.id in d'.nodes[adds[k].event.id].parents <==> Cause(adds, j, k)
  {
    hide *;
    if k == |adds| - 1 {
      NewParents(replicas, adds, d, d', j);
    } else {
      OldLinked(replicas, adds, d, d', k);
      assert StillThere(adds, d, d', k);
      StillThereFacts(adds, d, d', k);
      OldParents(adds, d, h, j, k);
      SameParents(d, adds[|adds| - 1].event, d'.nodes[adds[|adds| - 1].event.id].parents, adds[k].event.id,
                  d'.nodes[adds[k].event.id]);
    }
  }

  lemma StillThereFacts(adds: seq<Add>, d: Dag, d': Dag, k: nat)
    requires k < |adds| && StillThere(adds, d, d', k)
    ensures var id, e := adds[k].event.id, adds[|adds| - 1].event;
            && id in d.nodes && id in d'.nodes && e.id in d'.nodes && e.id !in d.nodes
            && LinkedOnly(d, e, d'.nodes[e.id].parents, id, d'.nodes[id])
  {
  }

  lemma SameParents(d: Dag, e: Event, parents: set<EventID>, p: EventID, n: Node)
    requires p in d.nodes && LinkedOnly(d, e, parents, p, n)
    ensures n.parents == d.nodes[p].parents
  {
  }

  lemma OldParents(adds: seq<Add>, d: Dag, h: History, j: nat, k: nat)
    requires |adds| > 0 && Parented(adds[..|adds| - 1], d) && Keyed(d, h) && j < |adds| && k < |adds| - 1
    requires adds[k].event.id in d.nodes && adds[|adds| - 1].event.id !in d.nodes
    ensures adds[j].event.id in d.nodes[adds[k].event.id].parents <==> Cause(adds, j, k)
  {
    var n := |adds| - 1;
    PrefixOf(adds, n, k, adds[k].event.replica, j);
    hide Keyed, Parented, Cause;
    if j < n {
      ParentedAt(adds[..n], d, j, k);
    } else {
      OnlyOldParents(d, h, adds[k].event.id, adds[n].event.id);
      if Cause(adds, j, k) {
        CauseIsEarlier(adds, j, k);
      }
    }
  }

  lemma ParentedAt(adds: seq<Add>, d: Dag, j: nat, k: nat)
    requires Parented(adds, d) && j < |adds| && k < |adds|
    ensures adds[k].event.id in d.nodes
    ensures adds[j].event.id in d.nodes[adds[k].event.id].parents <==> Cause(adds, j, k)
  {
  }

  lemma CauseIsEarlier(adds: seq<Add>, j: nat, k: nat)
    requires k < |adds| && Cause(adds, j, k)
    ensures j < k
  {
  }

  lemma OnlyOldParents(d: Dag, h: History, b: EventID, p: EventID)
    requires Keyed(d, h) && b in d.nodes && p !in d.nodes
    ensures p !in d.nodes[b].parents
  {
  }

  lemma NewParents(replicas: seq<ReplicaID>, adds: seq<Add>, d: Dag, d': Dag, j: nat)
    requires Grows(replicas, adds, d, d') && Holds(adds[..|adds| - 1], d) && j < |adds|
    ensures var n := |adds| - 1;
            && adds[n].event.id in d'.nodes
            && (adds[j].event.id in d'.nodes[adds[n].event.id].parents <==> Cause(adds, j, n))
  {
    var n := |adds| - 1;
    var e := adds[n].event;
    hide ClockFits, WellFormed, LastOf;
    AdmissibleStep(replicas, adds);
    assert forall i :: 0 <= i < n ==> adds[..n][i] == adds[i] && adds[i].event.id in Ids(adds[..n]);
    if e.replica in d.latest {
      var l: nat :| l < n && LastOf(adds[..n], n, e.replica, l);
      PrefixOf(adds, n, n, e.replica, l);
      PrefixOf(adds, n, n, e.replica, j);
      LastOfUnique(adds, n, e.replica, l, j);
    } else {
      PrefixOf(adds, n, n, e.replica, j);
    }
  }

  lemma LastOfUnique(adds: seq<Add>, n: nat, r: ReplicaID, l: nat, j: nat)
    requires n <= |adds| && LastOf(adds, n, r, l)
    ensures LastOf(adds, n, r, j) <==> j == l
    ensures l < n
  {
  }

  /** The latest event of the new event's replica is the last one there was. */
  lemma LatestIsLast(replicas: seq<ReplicaID>, adds: seq<Add>, d: Dag, d': Dag, j: nat)
    requires Grows(replicas, adds, d, d') && Holds(adds[..|adds| - 1], d) && j < |adds| - 1
    ensures var n := |adds| - 1;
            var r := adds[n].event.replica;
            LastOf(adds, n, r, j) <==> r in d.latest && d.latest[r] == adds[j].event.id
  {
    var n := |adds| - 1;
    var r := adds[n].event.replica;
    hide ClockFits, WellFormed, LastOf, Entered;
    assert forall i :: 0 <= i < n ==> adds[..n][i] == adds[i];
    PrefixOf(adds, n, n, r, j);
    if r in d.latest {
      var l: nat :| l < n && LastOf(adds[..n], n, r, l);
      LastOfUnique(adds[..n], n, r, l, j);
    }
  }

  lemma NoneBefore(replicas: seq<ReplicaID>, adds: seq<Add>, d: Dag, d': Dag)
    requires Grows(replicas, adds, d, d') && Holds(adds[..|adds| - 1], d) && First(adds, |adds| - 1)
    ensures adds[|adds| - 1].event.replica !in d.latest
  {
    var n := |adds| - 1;
    var r := adds[n].event.replica;
    hide ClockFits, WellFormed, Entered;
    assert forall i :: 0 <= i < n ==> adds[..n][i] == adds[i];
  }

  lemma NeighboursStep(replicas: seq<ReplicaID>, adds: seq<Add>, d: Dag, d': Dag, j: nat, k: nat)
    requires Grows(replicas, adds, d, d') && Holds(adds[..|adds| - 1], d) && j < k < |adds|
    requires LastOf(adds, k, adds[k].event.replica, j)
    requires k < |adds| - 1 ==> Neighbours(adds[..|adds| - 1], d, j, k)
    ensures Neighbours(adds, d', j, k)
  {
    var n := |adds| - 1;
    OldLinked(replicas, adds, d, d', j);
    LatestIsLast(replicas, adds, d, d', j);
    if k < n {
      OldLinked(replicas, adds, d, d', k);
      hide ClockFits, Grows, Holds;
      assert !LastOf(adds, n, adds[n].event.replica, j);
    } else {
      hide ClockFits, WellFormed, Holds;
    }
  }

  lemma EndsStep(replicas: seq<ReplicaID>, adds: seq<Add>, d: Dag, d': Dag, k: nat)
    requires Grows(replicas, adds, d, d') && Holds(adds[..|adds| - 1], d) && k < |adds|
    requires LastOf(adds, |adds|, adds[k].event.replica, k)
    requires k < |adds| - 1 ==> Ends(adds[..|adds| - 1], d, k)
    ensures Ends(adds, d', k)
  {
    var n := |adds| - 1;
    if k < n {
      OldLinked(replicas, adds, d, d', k);
      LatestIsLast(replicas, adds, d, d', k);
      hide ClockFits, Grows, Holds;
      assert !LastOf(adds, n, adds[n].event.replica, k);
    } else {
      hide ClockFits, WellFormed, Holds;
    }
  }

  lemma StartsStep(replicas: seq<ReplicaID>, adds: seq<Add>, d: Dag, d': Dag, k: nat)
    requires Grows(replicas, adds, d, d') && Holds(adds[..|adds| - 1], d) && k < |adds| && First(adds, k)
    requires k < |adds| - 1 ==> Starts(adds[..|adds| - 1], d, k)
    requires d.strands.Keys == d.latest.Keys
    ensures Starts(adds, d', k)
  {
    if k < |adds| - 1 {
      OldLinked(replicas, adds, d, d', k);
      StrandsKept(replicas, adds, d, d');
      hide Grows, Holds;
      assert adds[..|adds| - 1][k] == adds[k];
    } else {
      NoneBefore(replicas, adds, d, d');
      NewStarts(replicas, adds, d, d');
    }
  }

  lemma StrandsKept(replicas: seq<ReplicaID>, adds: seq<Add>, d: Dag, d': Dag)
    requires Grows(replicas, adds, d, d')
    ensures forall r :: r in d.strands ==> r in d'.strands && d'.strands[r] == d.strands[r]
  {
    hide WellFormed, EnteredNode, LinkedOnly;
  }

  lemma NewStarts(replicas: seq<ReplicaID>, adds: seq<Add>, d: Dag, d': Dag)
    requires Grows(replicas, adds, d, d') && adds[|adds| - 1].event.replica !in d.latest
    requires d.strands.Keys == d.latest.Keys
    ensures Starts(adds, d', |adds| - 1)
  {
    hide WellFormed, ClockFits, LinkedOnly;
  }

  lemma StrandedStep(replicas: seq<ReplicaID>, adds: seq<Add>, d: Dag, d': Dag)
    requires Grows(replicas, adds, d, d') && Holds(adds[..|adds| - 1], d) && Stranded(adds[..|adds| - 1], d)
    ensures Stranded(adds, d')
  {
    StrandKeys(replicas, adds, d, d');
    hide Grows, Holds, Neighbours, Starts, Ends, LastOf, First;
    forall j, k | 0 <= j < k < |adds| && LastOf(adds, k, adds[k].event.replica, j) ensures Neighbours(adds, d', j, k) {
      StrandedNeighbours(replicas, adds, d, d', j, k);
    }
    forall k | 0 <= k < |adds| && First(adds, k) ensures Starts(adds, d', k) {
      StrandedStarts(replicas, adds, d, d', k);
    }
    forall k | 0 <= k < |adds| && LastOf(adds, |adds|, adds[k].event.replica, k) ensures Ends(adds, d', k) {
      StrandedEnds(replicas, adds, d, d', k);
    }
  }

  lemma StrandedNeighbours(replicas: seq<ReplicaID>, adds: seq<Add>, d: Dag, d': Dag, j: nat, k: nat)
    requires Grows(replicas, adds, d, d') && Holds(adds[..|adds| - 1], d) && Stranded(adds[..|adds| - 1], d)
    requires j < k < |adds| && LastOf(adds, k, adds[k].event.replica, j)
    ensures Neighbours(adds, d', j, k)
  {
    hide Grows, Holds, Neighbours, Starts, Ends, LastOf, First;
    var n := |adds| - 1;
    if k < n {
      PrefixOf(adds, n, k, adds[k].event.replica, j);
      assert adds[..n][k] == adds[k];
    }
    NeighboursStep(replicas, adds, d, d', j, k);
  }

  lemma StrandedStarts(replicas: seq<ReplicaID>, adds: seq<Add>, d: Dag, d': Dag, k: nat)
    requires Grows(replicas, adds, d, d') && Holds(adds[..|adds| - 1], d) && Stranded(adds[..|adds| - 1], d)
    requires k < |adds| && First(adds, k)
    ensures Starts(adds, d', k)
  {
    hide Grows, Holds, Neighbours, Starts, Ends, LastOf, First;
    if k < |adds| - 1 {
      FirstOfPrefix(adds, |adds| - 1, k);
    }
    StartsStep(replicas, adds, d, d', k);
  }

  lemma StrandedEnds(replicas: seq<ReplicaID>, adds: seq<Add>, d: Dag, d': Dag, k: nat)
    requires Grows(replicas, adds, d, d') && Holds(adds[..|adds| - 1], d) && Stranded(adds[..|adds| - 1], d)
    requires k < |adds| && LastOf(adds, |adds|, adds[k].event.replica, k)
    ensures Ends(adds, d', k)
  {
    hide Grows, Holds, Neighbours, Starts, Ends, LastOf, First;
    var n := |adds| - 1;
    if k < n {
      LastOfStep(adds, adds[k].event.replica, k);
      assert adds[..n][k] == adds[k];
    }
    EndsStep(replicas, adds, d, d', k);
  }

  lemma StrandKeys(replicas: seq<ReplicaID>, adds: seq<Add>, d: Dag, d': Dag)
    requires Grows(replicas, adds, d, d') && d.strands.Keys == d.latest.Keys
    ensures d'.strands.Keys == d'.latest.Keys
  {
    hide ClockFits, WellFormed, EnteredNode, LinkedOnly;
  }

  lemma FirstOfPrefix(adds: seq<Add>, n: nat, k: nat)
    requires k < n <= |adds| && First(adds, k)
    ensures First(adds[..n], k)
  {
  }

  /** In every run the parents, the strands and the latest events are those the additions say. */
  lemma {:induction false} RunRecords(replicas: seq<ReplicaID>, adds: seq<Add>)
    requires Admissible(replicas, adds)
    ensures Holds(adds, Run(replicas, adds).0) && Parented(adds, Run(replicas, adds).0)
    ensures Stranded(adds, Run(replicas, adds).0)
  {
    if adds == [] {
      EmptyInv(replicas);
    } else {
      var n := |adds| - 1;
      AdmissibleStep(replicas, adds);
      RunRecords(replicas, adds[..n]);
      RunStep(replicas, adds);
      var (d, h) := Run(replicas, adds[..n]);
      var d' := Run(replicas, adds).0;
      hide *;
      HoldsStep(replicas, adds, d, d');
      forall j: nat, k: nat | j < |adds| && k < |adds|
        ensures adds[k].event.id in d'.nodes
        ensures adds[j].event.id in d'.nodes[adds[k].event.id].parents <==> Cause(adds, j, k)
      {
        ParentedStep(replicas, adds, d, d', h, j, k);
      }
      ParentedAll(adds, d');
      StrandedStep(replicas, adds, d, d');
    }
  }

  lemma ParentedAll(adds: seq<Add>, d: Dag)
    requires forall j: nat, k: nat :: j < |adds| && k < |adds| ==>
               && adds[k].event.id in d.nodes
               && (adds[j].event.id in d.nodes[adds[k].event.id].parents <==> Cause(adds, j, k))
    ensures Parented(adds, d)
  {
  }

  lemma RunStep(replicas: seq<ReplicaID>, adds: seq<Add>)
    requires Admissible(replicas, adds) && |adds| > 0
    ensures Admissible(replicas, adds[..|adds| - 1])
    ensures var (d, h) := Run(replicas, adds[..|adds| - 1]);
            Keyed(d, h) && Grows(replicas, adds, d, Run(replicas, adds).0)
  {
    var n := |adds| - 1;
    AdmissibleStep(replicas, adds);
    var (d, h) := Run(replicas, adds[..n]);
    InvWellFormed(replicas, d, h);
    hide Inv, Step, Entered;
    AddEnters(replicas, d, adds[n].event, adds[n].given);
    assert Run(replicas, adds).0 == Step(replicas, d, h, adds[n].event, adds[n].given).0;
  }

  lemma PathOfCauses(adds: seq<Add>, d: Dag, path: seq<nat>) returns (ids: seq<EventID>)
    requires Parented(adds, d) && Causes(adds, path)
    ensures |ids| == |path| && Path(d, ids)
    ensures ids[0] == adds[path[0]].event.id && ids[|ids| - 1] == adds[path[|path| - 1]].event.id
  {
    hide Cause, Parented;
    ids := seq(|path|, i requires 0 <= i < |path| => adds[path[i]].event.id);
    forall i | 0 <= i < |ids| ensures ids[i] in d.nodes {
      ParentedAt(adds, d, path[i], path[i]);
    }
    forall i | 0 <= i < |ids| - 1 ensures ids[i] in d.nodes[ids[i + 1]].parents {
      assert Cause(adds, path[i], path[i + 1]);
      ParentedAt(adds, d, path[i], path[i + 1]);
    }
  }

  ghost function AddedAt(adds: seq<Add>, id: EventID): (k: nat)
    requires id in Ids(adds)
    ensures k < |adds| && adds[k].event.id == id
  {
    var k :| 0 <= k < |adds| && adds[k].event.id == id;
    k
  }

  lemma CausesOfPath(adds: seq<Add>, d: Dag, ids: seq<EventID>) returns (path: seq<nat>)
    requires d.nodes.Keys == Ids(adds) && Parented(adds, d) && Path(d, ids)
    ensures |path| == |ids| && Causes(adds, path)
    ensures adds[path[0]].event.id == ids[0] && adds[path[|path| - 1]].event.id == ids[|ids| - 1]
  {
    hide Cause, Parented, Ids;
    path := seq(|ids|, i requires 0 <= i < |ids| => AddedAt(adds, ids[i]));
    forall i | 0 <= i < |path| - 1 ensures Cause(adds, path[i], path[i + 1]) {
      ParentedAt(adds, d, path[i], path[i + 1]);
    }
  }

  lemma SameAddition(replicas: seq<ReplicaID>, adds: seq<Add>, j: nat, k: nat)
    requires Admissible(replicas, adds) && j < |adds| && k < |adds| && adds[j].event.id == adds[k].event.id
    ensures j == k
  {
  }

  lemma ReachesIsHappensBefore(replicas: seq<ReplicaID>, adds: seq<Add>, d: Dag, j: nat, k: nat)
    requires Admissible(replicas, adds) && j < |adds| && k < |adds|
    requires d.nodes.Keys == Ids(adds) && Parented(adds, d)
    ensures Reaches(d, adds[j].event.id, adds[k].event.id) <==> HappensBefore(adds, j, k)
  {
    hide Admissible, Ids, Cause, Parented;
    if HappensBefore(adds, j, k) {
      var path :| Causes(adds, path) && path[0] == j && path[|path| - 1] == k;
      var ids := PathOfCauses(adds, d, path);
    }
    if Reaches(d, adds[j].event.id, adds[k].event.id) {
      var ids :| Path(d, ids) && ids[0] == adds[j].event.id && ids[|ids| - 1] == adds[k].event.id;
      var path := CausesOfPath(adds, d, ids);
      SameAddition(replicas, adds, path[0], j);
      SameAddition(replicas, adds, path[|path| - 1], k);
    }
  }

  /**
   In every run, one event's clock is before another's exactly when the first happened before the second:
   there is a chain of additions from one to the other in which each names the one before, or follows it
   on its replica. That is reachability in the graph; there are no cycles, and parents mirror children.
   */
  lemma RunClocksCharacteriseCausality(replicas: seq<ReplicaID>, adds: seq<Add>, j: nat, k: nat)
    requires Admissible(replicas, adds) && j < |adds| && k < |adds|
    ensures var d := Run(replicas, adds).0;
      var a, b := adds[j].event.id, adds[k].event.id;
      && a in d.nodes && b in d.nodes
      && (Before(d.nodes[a].clock, d.nodes[b].clock) <==> HappensBefore(adds, j, k))
      && (Reaches(d, a, b) <==> HappensBefore(adds, j, k))
      && !Reaches(d, a, a)
      && (a in d.nodes[b].parents <==> b in d.nodes[a].children)
  {
    var (d, h) := Run(replicas, adds);
    var a, b := adds[j].event.id, adds[k].event.id;
    assert a in Ids(adds) && b in Ids(adds);
    ClockOrderIsReachability(replicas, d, h, a, b);
    RunRecords(replicas, adds);
    ReachesIsHappensBefore(replicas, adds, d, j, k);
    hide Clocked, Causal, Before, Reaches, HappensBefore, Run;
  }

  // ---- the graph as it is updated in place ----

  class EventDAG {
    const replicas: seq<ReplicaID>
    var nodes: map<EventID, Node>
    var strands: map<ReplicaID, EventID>
    var latest: map<ReplicaID, EventID>
    var latestClocks: map<ReplicaID, Clock>
    ghost var history: History

    ghost function View(): Dag
      reads this
    {
      Dag(nodes, strands, latest, latestClocks)
    }

    ghost predicate Valid()
      reads this
    {
      Inv(replicas, View(), history)
    }

    constructor (replicas: seq<ReplicaID>)
      ensures Valid() && View() == EmptyDag(replicas) && this.replicas == replicas
    {
      this.replicas := replicas;
      nodes, strands, latest := map[], map[], map[];
      latestClocks := map r | r in replicas :: ZeroClock(|replicas|);
      history := History(map[], map[]);
      new;
      EmptyInv(replicas);
    }

    /** The highest entry `i` among the parents' clocks. */
    method MaxParent(parents: seq<EventID>, i: nat) returns (maxParent: int)
      requires forall k :: 0 <= k < |parents| ==> parents[k] in nodes && i < |nodes[parents[k]].clock|
      ensures maxParent == MaxAt(Clocks(nodes, parents), i)
    {
      ghost var clocks := Clocks(nodes, parents);
      maxParent := 0;
      for k := 0 to |parents|
        invariant maxParent == MaxAt(clocks[..k], i)
      {
        assert clocks[..k + 1][..k] == clocks[..k];
        if nodes[parents[k]].clock[i] > maxParent {
          maxParent := nodes[parents[k]].clock[i];
        }
      }
      assert clocks[..|parents|] == clocks;
    }

    method NextClockOf(replica: ReplicaID, parents: seq<EventID>) returns (next: Clock)
      requires replica in latestClocks && |latestClocks[replica]| == |replicas|
      requires forall k :: 0 <= k < |parents| ==> parents[k] in nodes && |nodes[parents[k]].clock| == |replicas|
      modifies this`latestClocks
      ensures next == NextClock(replicas, replica, old(latestClocks)[replica], Clocks(nodes, parents))
      ensures latestClocks == old(latestClocks)[replica := next]
    {
      hide MaxAt, Clocks;
      ghost var clocks := Clocks(nodes, parents);
      var own := latestClocks[replica];
      next := [];
      for i := 0 to |replicas|
        invariant |next| == i && latestClocks == old(latestClocks)
        invariant forall j :: 0 <= j < i ==> next[j] == NextEntry(replicas, replica, own, clocks, j)
      {
        var maxParent := MaxParent(parents, i);
        if replicas[i] == replica && maxParent < own[i] + 1 {
          maxParent := own[i] + 1;
        }
        next := next + [maxParent];
      }
      assert next == NextClock(replicas, replica, own, clocks);
      latestClocks := latestClocks[replica := next];
    }

    method KnownParents(given: seq<EventID>) returns (ps: seq<EventID>)
      ensures ps == Known(nodes, given)
    {
      ps := [];
      for k := 0 to |given|
        invariant ps == Known(nodes, given[..k])
      {
        assert given[..k + 1][..k] == given[..k];
        if given[k] in nodes {
          ps := ps + [given[k]];
        }
      }
      assert given[..|given|] == given;
    }

    /** Link the new event to the given parents, in order. */
    method AddParents(id: EventID, ps: seq<EventID>)
      requires id in nodes && id !in ps && forall k :: 0 <= k < |ps| ==> ps[k] in nodes
      modifies this`nodes
      ensures nodes.Keys == old(nodes.Keys)
      ensures nodes[id] == old(nodes)[id].(parents := old(nodes)[id].parents + Members(ps))
      ensures forall p :: p in nodes && p != id ==>
                nodes[p] == old(nodes)[p].(children := old(nodes)[p].children + if p in ps then {id} else {})
    {
      hide Members;
      ghost var done: set<EventID> := {};
      for i := 0 to |ps|
        invariant done == Members(ps[..i])
        invariant nodes.Keys == old(nodes.Keys)
        invariant nodes[id] == old(nodes)[id].(parents := old(nodes)[id].parents + done)
        invariant forall p :: p in nodes && p != id && p !in done ==> nodes[p] == old(nodes)[p]
        invariant forall p :: p in nodes && p != id && p in done ==>
                    nodes[p] == old(nodes)[p].(children := old(nodes)[p].children + {id})
      {
        assert ps[..i + 1] == ps[..i] + [ps[i]] && ps[i] != id;
        done := done + {ps[i]};
        AddParent(id, ps[i]);
      }
      assert ps[..|ps|] == ps;
    }

    method AddParent(id: EventID, p: EventID)
      requires id in nodes && p in nodes && p != id
      modifies this`nodes
      ensures nodes.Keys == old(nodes.Keys)
      ensures nodes[id] == old(nodes)[id].(parents := old(nodes)[id].parents + {p})
      ensures forall q :: q in nodes && q != id ==>
                nodes[q] == if q == p then old(nodes)[q].(children := old(nodes)[q].children + {id}) else old(nodes)[q]
    {
      nodes := nodes[id := nodes[id].(parents := nodes[id].parents + {p})];
      nodes := nodes[p := nodes[p].(children := nodes[p].children + {id})];
    }

    /** Make the new event the last of its replica's strand, and list it as a parent's successor there. */
    method Enter(e: Event, known: seq<EventID>) returns (ps: seq<EventID>)
      requires e.id !in nodes
      requires (e.replica in latest ==>
          latest[e.replica] in nodes && nodes[latest[e.replica]].event.id == latest[e.replica])
      modifies this`nodes, this`latest
      ensures ps == known + if e.replica in old(latest) then [old(latest)[e.replica]] else []
      ensures latest == old(latest)[e.replica := e.id]
      ensures nodes.Keys == old(nodes.Keys) + {e.id}
      ensures nodes[e.id] == Node(e, [], if e.replica in old(latest) then old(latest)[e.replica] else 0, 0, {}, {})
      ensures forall p :: p in old(nodes) ==>
                nodes[p] == old(nodes)[p].(
                  next := if e.replica in old(latest) && old(latest)[e.replica] == p then e.id else old(nodes)[p].next)
    {
      ps := known;
      nodes := nodes[e.id := Node(e, [], 0, 0, {}, {})];
      if e.replica in latest {
        var l := latest[e.replica];
        nodes := nodes[l := nodes[l].(next := e.id)];
        nodes := nodes[e.id := nodes[e.id].(prev := nodes[l].event.id)];
        ps := ps + [l];
      }
      latest := latest[e.replica := e.id];
    }

    /** Everything but the clock and the strand. */
    method Insert(e: Event, given: seq<EventID>) returns (ps: seq<EventID>)
      requires WellFormed(replicas, View()) && e.id !in nodes
      modifies this`nodes, this`latest
      ensures ps == ParentsFor(old(View()), e, given) && latest == old(latest)[e.replica := e.id]
      ensures nodes.Keys == old(nodes.Keys) + {e.id}
      ensures forall p :: p in old(nodes) ==> nodes[p] == Linked(old(View()), e, ps, p)
      ensures nodes[e.id] ==
          Node(e, [], if e.replica in old(latest) then old(latest)[e.replica] else 0, 0, Members(ps), {})
    {
      ParentsKnown(View(), e, given);
      assert e.replica in latest ==> nodes[latest[e.replica]].event.id == latest[e.replica];
      var known := KnownParents(given);
      ghost var d := View();
      hide Known, Members, WellFormed;
      ps := Enter(e, known);
      assert ps == ParentsFor(d, e, given);
      hide ParentsFor;
      AddParents(e.id, ps);
    }

    /** Add an event; the graph is the one `AddNode` describes. */
    method Link(e: Event, given: seq<EventID>)
      requires WellFormed(replicas, View()) && e.replica in replicas && e.id !in nodes
      modifies this`nodes, this`strands, this`latest, this`latestClocks
      ensures View() == AddNode(replicas, old(View()), e, given)
    {
      hide ParentsFor, NextClock, NewNode, AddNode, Members;
      ghost var d := View();
      ParentsKnown(d, e, given);
      var ps := Insert(e, given);
      ClocksSame(replicas, d, nodes, e, ps);
      hide WellFormed, Linked;
      var clock := NextClockOf(e.replica, ps);
      nodes := nodes[e.id := nodes[e.id].(clock := clock)];
      if e.replica !in strands {
        strands := strands[e.replica := e.id];
      }
      AddNodeFields(replicas, d, e, given, View(), ps, clock);
    }

    /** The invariant holds after every addition. */
    method AddEvent(e: Event, given: seq<EventID>)
      requires Valid() && e.replica in replicas && e.id !in nodes
      modifies this
      ensures Valid() && Added(replicas, old(View()), e, given, View())
      ensures Entered(replicas, old(View()), e, given, View())
    {
      ghost var d, h := View(), history;
      hide Inv, WellFormed, NewHistory, NewNode, AddNode, Entered;
      InvWellFormed(replicas, d, h);
      AddEnters(replicas, d, e, given);
      Link(e, given);
      history := NewHistory(d, h, e, NewNode(replicas, d, e, given).parents);
      AddInv(replicas, d, h, e, given);
    }
  }

  lemma InvWellFormed(replicas: seq<ReplicaID>, d: Dag, h: History)
    requires Inv(replicas, d, h)
    ensures WellFormed(replicas, d) && Keyed(d, h)
  {
  }

  lemma ClocksSame(replicas: seq<ReplicaID>, d: Dag, nodes: map<EventID, Node>, e: Event, ps: seq<EventID>)
    requires WellFormed(replicas, d) && e.replica in replicas
    requires forall k :: 0 <= k < |ps| ==> ps[k] in d.nodes
    requires forall p :: p in d.nodes ==> p in nodes && nodes[p] == Linked(d, e, ps, p)
    ensures e.replica in d.latestClocks && |d.latestClocks[e.replica]| == |replicas|
    ensures forall k :: 0 <= k < |ps| ==> ps[k] in nodes && |nodes[ps[k]].clock| == |replicas|
    ensures Clocks(d.nodes, ps) == Clocks(nodes, ps)
  {
  }

  lemma AddNodeFields(replicas: seq<ReplicaID>, d: Dag, e: Event, given: seq<EventID>, d': Dag, ps: seq<EventID>,
                      clock: Clock)
    requires WellFormed(replicas, d) && e.replica in replicas && e.id !in d.nodes && ps == ParentsFor(d, e, given)
    requires d'.nodes.Keys == d.nodes.Keys + {e.id}
    requires forall p :: p in d.nodes ==> d'.nodes[p] == Linked(d, e, ps, p)
    requires clock == NextClock(replicas, e.replica, d.latestClocks[e.replica], Clocks(d.nodes, ps))
    requires d'.nodes[e.id] ==
        Node(e, clock, if e.replica in d.latest then d.latest[e.replica] else 0, 0, Members(ps), {})
    requires d'.strands == if e.replica in d.strands then d.strands else d.strands[e.replica := e.id]
    requires d'.latest == d.latest[e.replica := e.id] && d'.latestClocks == d.latestClocks[e.replica := clock]
    ensures d' == AddNode(replicas, d, e, given)
  {
    hide NextClock, ParentsFor, Linked, LinkAll, WellFormed, Members;
    assert d'.nodes == LinkAll(d, e, ps)[e.id := d'.nodes[e.id]];
  }
}
