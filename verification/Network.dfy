/**
 A network of nodes and the safety theorems about every run of it.

 Each correct validator or full node is a `Node`; every other validator is faulty and may sign any
 vote at any time. A step delivers one event to one node, or adds one vote of a faulty validator. Votes
 with a valid signature can be delivered only after they were signed, and timeouts only after they were
 scheduled; votes can be delivered in any order, repeatedly, or never.
 */
module Network {
  import opened Wrappers
  import opened Quorum
  import opened VoteSets
  import opened Consensus
  import opened Discipline
  import opened NodeInvariant
  import opened Progress
  import opened LockHistory
  import opened Validity
  import opened Ballots
  import CommitStep
  import RelockRound

  datatype Network = Network(nodes: map<Address, Node>, log: Log)

  ghost predicate Init(cfg: Config, s: Network)
  {
    s.log == [] && forall v :: v in s.nodes ==> s.nodes[v] == InitNode(cfg, v)
  }

  ghost predicate NodeStep(cfg: Config, s: Network, s': Network, v: Address, event: Event, canSign: bool)
  {
    && v in s.nodes
    && Deliverable(s.nodes[v], Seen(s.log), event)
    && var n := Handle(cfg, s.nodes[v], event, canSign);
       s' == Network(s.nodes[v := n], s.log + n.outbox)
  }

  predicate FaultyStep(s: Network, s': Network, vote: Vote)
  {
    vote.validator !in s.nodes && s' == Network(s.nodes, s.log + [vote])
  }

  ghost predicate Next(cfg: Config, s: Network, s': Network)
  {
    || (exists v, event, canSign :: NodeStep(cfg, s, s', v, event, canSign))
    || (exists vote :: FaultyStep(s, s', vote))
  }

  ghost predicate IsRun(cfg: Config, run: seq<Network>)
  {
    && |run| > 0 && Init(cfg, run[0])
    && forall i :: 0 <= i < |run| - 1 ==> Next(cfg, run[i], run[i + 1])
  }

  /** Validators without a correct node hold less than a third of the power at every height that some node reached. */
  ghost predicate FaultBound(cfg: Config, s: Network)
  {
    forall v, k :: v in s.nodes && 0 <= k <= |s.nodes[v].chain| ==>
      FaultyMinority(cfg.validators(s.nodes[v].chain[..k]), s.nodes.Keys)
  }

  ghost predicate GoodNode(cfg: Config, v: Address, n: Node, log: Log)
  {
    n.self == v && InvLog(cfg, n, log) && LockedEarlier(n.round, n.step, n.lockedRound, n.lockedBlock)
  }

  ghost predicate NetInv(cfg: Config, s: Network)
  {
    forall v :: v in s.nodes ==> GoodNode(cfg, v, s.nodes[v], s.log)
  }

  // ---- preservation ----

  lemma InitInv(cfg: Config, s: Network)
    requires Init(cfg, s)
    ensures NetInv(cfg, s)
  {
    forall v | v in s.nodes ensures GoodNode(cfg, v, s.nodes[v], s.log) {
      NewHeightVotesGood(cfg.initialHeight, cfg.validators([]), Seen([]));
      assert forall k :: 0 <= k <= 0 ==> Disciplined([], v, cfg.initialHeight + k, cfg.validators([][..k]));
    }
  }

  lemma ForeignVote(cfg: Config, v: Address, n: Node, log: Log, vote: Vote)
    requires GoodNode(cfg, v, n, log) && vote.validator != v
    ensures GoodNode(cfg, v, n, log + [vote])
  {
    hide HasQuorum, OtherPolka, Disciplined, GoodHeightVotes;
    SeenAppend(log, [vote]);
    BackingGrows(cfg, n, log, log + [vote]);
    LockBackedAppend(log, vote, v, n.height, n.round, n.lockedRound, n.lockedBlock, n.validators);
    forall k | 0 <= k <= |n.chain|
      ensures Disciplined(log + [vote], v, cfg.initialHeight + k, cfg.validators(n.chain[..k]))
    {
      DisciplinedOther(log, vote, v, cfg.initialHeight + k, cfg.validators(n.chain[..k]));
    }
  }

  lemma {:induction false} ForeignVotes(cfg: Config, v: Address, n: Node, log: Log, votes: seq<Vote>)
    requires GoodNode(cfg, v, n, log)
    requires forall i :: 0 <= i < |votes| ==> votes[i].validator != v
    ensures GoodNode(cfg, v, n, log + votes)
    decreases |votes|
  {
    hide GoodNode;
    if votes == [] {
      assert log + votes == log;
    } else {
      var k := |votes| - 1;
      ForeignVotes(cfg, v, n, log, votes[..k]);
      ForeignVote(cfg, v, n, log + votes[..k], votes[k]);
      assert log + votes[..k] + [votes[k]] == log + votes;
    }
  }

  lemma HandleGood(cfg: Config, v: Address, n: Node, log: Log, event: Event, canSign: bool)
    requires GoodNode(cfg, v, n, log) && Deliverable(n, Seen(log), event)
    ensures GoodNode(cfg, v, Handle(cfg, n, event, canSign), log + Handle(cfg, n, event, canSign).outbox)
    ensures OwnVotes(Handle(cfg, n, event, canSign).outbox, v)
  {
    var n0 := if n.halted then n.(outbox := []) else n.(outbox := [], canSign := canSign);
    assert log + n0.outbox == log;
    assert Inv(cfg, n0, log);
    if !n.halted {
      HandleEventInv(cfg, n0, log, event);
      HandleEventLater(cfg, n0, event);
    }
  }

  lemma NextInv(cfg: Config, s: Network, s': Network)
    requires NetInv(cfg, s) && Next(cfg, s, s')
    ensures NetInv(cfg, s')
  {
    hide GoodNode, Handle, Deliverable;
    if v, event, canSign :| NodeStep(cfg, s, s', v, event, canSign) {
      var n := Handle(cfg, s.nodes[v], event, canSign);
      HandleGood(cfg, v, s.nodes[v], s.log, event, canSign);
      forall w | w in s'.nodes ensures GoodNode(cfg, w, s'.nodes[w], s'.log) {
        if w != v {
          ForeignVotes(cfg, w, s.nodes[w], s.log, n.outbox);
        }
      }
    } else {
      var vote :| FaultyStep(s, s', vote);
      forall w | w in s'.nodes ensures GoodNode(cfg, w, s'.nodes[w], s'.log) {
        ForeignVote(cfg, w, s.nodes[w], s.log, vote);
      }
    }
  }

  lemma {:induction false} RunInv(cfg: Config, run: seq<Network>, i: nat)
    requires IsRun(cfg, run) && i < |run|
    ensures NetInv(cfg, run[i])
    ensures run[i].nodes.Keys == run[0].nodes.Keys
  {
    if i == 0 {
      InitInv(cfg, run[0]);
    } else {
      RunInv(cfg, run, i - 1);
      assert Next(cfg, run[i - 1], run[i - 1 + 1]);
      NextInv(cfg, run[i - 1], run[i]);
    }
  }

  // ---- agreement ----

  /**
   All nodes that have votes at a height took the same chain to it, so they are disciplined for the same
   validators.
   */
  lemma DisciplinedTogether(cfg: Config, s: Network, v: Address, k: nat)
    requires NetInv(cfg, s) && v in s.nodes && k <= |s.nodes[v].chain|
    requires forall w :: w in s.nodes && k <= |s.nodes[w].chain| ==> s.nodes[w].chain[..k] == s.nodes[v].chain[..k]
    ensures AllDisciplined(s.log, s.nodes.Keys, cfg.initialHeight + k, cfg.validators(s.nodes[v].chain[..k]))
  {
    var vals := cfg.validators(s.nodes[v].chain[..k]);
    forall w | w in s.nodes.Keys ensures Disciplined(s.log, w, cfg.initialHeight + k, vals) {
      assert GoodNode(cfg, w, s.nodes[w], s.log);
      if k <= |s.nodes[w].chain| {
        assert Disciplined(s.log, w, cfg.initialHeight + k, cfg.validators(s.nodes[w].chain[..k]));
      } else {
        assert forall i :: 0 <= i < |s.log| ==> !VotedAt(s.log[i], w, cfg.initialHeight + k);
      }
    }
  }

  lemma CommitsAgree(cfg: Config, s: Network, v: Address, k: nat, b1: Block, b2: Block)
    requires NetInv(cfg, s) && FaultBound(cfg, s) && v in s.nodes && k <= |s.nodes[v].chain|
    requires forall w :: w in s.nodes && k <= |s.nodes[w].chain| ==> s.nodes[w].chain[..k] == s.nodes[v].chain[..k]
    requires CommitFor(s.log, cfg.initialHeight + k, b1, cfg.validators(s.nodes[v].chain[..k]))
    requires CommitFor(s.log, cfg.initialHeight + k, b2, cfg.validators(s.nodes[v].chain[..k]))
    ensures b1 == b2
  {
    var h := cfg.initialHeight + k;
    var vals := cfg.validators(s.nodes[v].chain[..k]);
    DisciplinedTogether(cfg, s, v, k);
    var r1, c1 :| IsFor(c1, b1.hash) && HasQuorum(s.log, h, r1, Precommit, c1, vals);
    var r2, c2 :| IsFor(c2, b2.hash) && HasQuorum(s.log, h, r2, Precommit, c2, vals);
    PrecommitQuorumsAgree(s.log, s.nodes.Keys, h, vals, r1, c1, r2, c2);
  }

  lemma BlockHasCommit(cfg: Config, s: Network, v: Address, k: nat)
    requires NetInv(cfg, s) && v in s.nodes && k < |s.nodes[v].chain|
    ensures CommitFor(s.log, cfg.initialHeight + k, s.nodes[v].chain[k], cfg.validators(s.nodes[v].chain[..k]))
  {
    assert GoodNode(cfg, v, s.nodes[v], s.log);
  }

  /** Chains agree up to any common length. */
  lemma {:induction false} ChainsAgree(cfg: Config, s: Network, v: Address, w: Address, k: nat)
    requires NetInv(cfg, s) && FaultBound(cfg, s)
    requires v in s.nodes && w in s.nodes && k <= |s.nodes[v].chain| && k <= |s.nodes[w].chain|
    ensures s.nodes[v].chain[..k] == s.nodes[w].chain[..k]
    decreases k
  {
    hide NetInv, FaultBound, CommitFor;
    var a, b := s.nodes[v].chain, s.nodes[w].chain;
    if k > 0 {
      ChainsAgree(cfg, s, v, w, k - 1);
      forall u | u in s.nodes && k - 1 <= |s.nodes[u].chain|
        ensures s.nodes[u].chain[..k - 1] == s.nodes[v].chain[..k - 1]
      {
        ChainsAgree(cfg, s, u, v, k - 1);
      }
      BlockHasCommit(cfg, s, v, k - 1);
      BlockHasCommit(cfg, s, w, k - 1);
      CommitsAgree(cfg, s, v, k - 1, a[k - 1], b[k - 1]);
      assert a[..k] == a[..k - 1] + [a[k - 1]] && b[..k] == b[..k - 1] + [b[k - 1]];
    }
  }

  /**
   A node finalises a block at a height by appending it to its chain, or by saving it without being able to apply
   it.
   */
  predicate Finalises(cfg: Config, n: Node, height: int, block: Block)
  {
    || (cfg.initialHeight <= height < cfg.initialHeight + |n.chain| && n.chain[height - cfg.initialHeight] == block)
    || (height == cfg.initialHeight + |n.chain| && n.saved == Some(block))
  }

  lemma FinalisedHasCommit(cfg: Config, v: Address, n: Node, log: Log, height: int, block: Block)
    requires GoodNode(cfg, v, n, log) && Finalises(cfg, n, height, block)
    ensures 0 <= height - cfg.initialHeight <= |n.chain|
    ensures CommitFor(log, height, block, cfg.validators(n.chain[..height - cfg.initialHeight]))
  {
    var k := height - cfg.initialHeight;
    assert n.chain[..|n.chain|] == n.chain;
    if k < |n.chain| {
      assert CommitFor(log, cfg.initialHeight + k, n.chain[k], cfg.validators(n.chain[..k]));
    }
  }

  lemma NextGrows(cfg: Config, s: Network, s': Network, v: Address)
    requires NetInv(cfg, s) && Next(cfg, s, s') && v in s.nodes
    ensures v in s'.nodes && s.nodes[v].chain <= s'.nodes[v].chain && s.log <= s'.log
    ensures CompareHRS(s.nodes[v].height, s.nodes[v].round, s.nodes[v].step,
                       s'.nodes[v].height, s'.nodes[v].round, s'.nodes[v].step) <= 0
    ensures s.nodes[v].height == s'.nodes[v].height ==> s.nodes[v].validRound <= s'.nodes[v].validRound
  {
    hide HandleEvent, Deliverable;
    assert GoodNode(cfg, v, s.nodes[v], s.log);
    if w, event, canSign :| NodeStep(cfg, s, s', w, event, canSign) {
      var n := s.nodes[v];
      if !n.halted {
        HandleEventLater(cfg, n.(outbox := [], canSign := canSign), event);
      }
    }
  }

  /** Along a run a node's chain grows and (Height, Round, Step) never goes back. */
  lemma {:induction false} RunProgress(cfg: Config, run: seq<Network>, i: nat, j: nat, v: Address)
    requires IsRun(cfg, run) && i <= j < |run| && v in run[0].nodes
    ensures v in run[i].nodes && v in run[j].nodes
    ensures run[i].nodes[v].chain <= run[j].nodes[v].chain && run[i].log <= run[j].log
    ensures CompareHRS(run[i].nodes[v].height, run[i].nodes[v].round, run[i].nodes[v].step,
                       run[j].nodes[v].height, run[j].nodes[v].round, run[j].nodes[v].step) <= 0
    ensures run[i].nodes[v].height == run[j].nodes[v].height ==>
              run[i].nodes[v].validRound <= run[j].nodes[v].validRound
    decreases j
  {
    hide NetInv, Next;
    RunInv(cfg, run, i);
    if i < j {
      RunProgress(cfg, run, i, j - 1, v);
      RunInv(cfg, run, j - 1);
      assert Next(cfg, run[j - 1], run[j - 1 + 1]);
      NextGrows(cfg, run[j - 1], run[j], v);
    }
  }

  /**
   A block finalised at some point of a run has its precommit quorum in the final log, under the chain of its
   node.
   */
  lemma FinalisedInRun(cfg: Config, run: seq<Network>, i: nat, v: Address, height: int, block: Block)
    requires IsRun(cfg, run) && i < |run| && v in run[0].nodes
    requires v in run[i].nodes && Finalises(cfg, run[i].nodes[v], height, block)
    ensures v in run[|run| - 1].nodes
    ensures var last := run[|run| - 1]; var k := height - cfg.initialHeight;
            0 <= k <= |last.nodes[v].chain|
                && CommitFor(last.log, height, block, cfg.validators(last.nodes[v].chain[..k]))
  {
    var last := |run| - 1;
    RunInv(cfg, run, i);
    RunProgress(cfg, run, i, last, v);
    assert GoodNode(cfg, v, run[i].nodes[v], run[i].log);
    FinalisedHasCommit(cfg, v, run[i].nodes[v], run[i].log, height, block);
    var k := height - cfg.initialHeight;
    assert run[last].nodes[v].chain[..k] == run[i].nodes[v].chain[..k];
    var more := run[last].log[|run[i].log|..];
    assert run[last].log == run[i].log + more;
    SeenAppend(run[i].log, more);
    CommitForGrows(run[i].log, run[last].log, height, block, cfg.validators(run[i].nodes[v].chain[..k]));
  }

  /**
   Agreement. In every run in which the faulty validators of each height reached hold less than a
   third of the power, no two different blocks are ever finalised at one height, by whichever correct
   nodes, in whichever rounds, and at whichever times.
   */
  lemma Agreement(cfg: Config, run: seq<Network>, i: nat, j: nat, v: Address, w: Address, height: int, b1: Block,
                  b2: Block)
    requires IsRun(cfg, run) && i < |run| && j < |run|
    requires FaultBound(cfg, run[|run| - 1])
    requires v in run[0].nodes && v in run[i].nodes && Finalises(cfg, run[i].nodes[v], height, b1)
    requires w in run[0].nodes && w in run[j].nodes && Finalises(cfg, run[j].nodes[w], height, b2)
    ensures b1 == b2
  {
    hide NetInv, FaultBound, CommitFor, Finalises, IsRun;
    var s := run[|run| - 1];
    var k := height - cfg.initialHeight;
    RunInv(cfg, run, |run| - 1);
    FinalisedInRun(cfg, run, i, v, height, b1);
    FinalisedInRun(cfg, run, j, w, height, b2);
    forall u | u in s.nodes && k <= |s.nodes[u].chain|
      ensures s.nodes[u].chain[..k] == s.nodes[v].chain[..k]
    {
      ChainsAgree(cfg, s, u, v, k);
    }
    CommitsAgree(cfg, s, v, k, b1, b2);
  }

  /** No correct node ever signs two votes of one type for one height and round. */
  lemma NoDoubleVote(cfg: Config, run: seq<Network>, i: nat, j: nat, v: Address)
    requires IsRun(cfg, run) && v in run[0].nodes
    requires var log := run[|run| - 1].log;
             && i < |log| && j < |log| && log[i].validator == v && log[j].validator == v
             && log[i].height == log[j].height && log[i].round == log[j].round && log[i].kind == log[j].kind
    ensures i == j
  {
    var s := run[|run| - 1];
    RunInv(cfg, run, |run| - 1);
    var n := s.nodes[v];
    hide IsRun, GoodHeightVotes, PolkasBehind, LockBacked, ChainBacked, KeepsLocks, PrecommitsPolkas;
    assert GoodNode(cfg, v, n, s.log);
    var k := s.log[i].height - cfg.initialHeight;
    assert 0 <= k <= |n.chain|;
    assert Disciplined(s.log, v, cfg.initialHeight + k, cfg.validators(n.chain[..k]));
    assert VotedAt(s.log[i], v, cfg.initialHeight + k) && VotedAt(s.log[j], v, cfg.initialHeight + k);
  }

  // ---- locks and votes along a run ----

  /** A node before it handles an event: nothing signed yet. */
  function Before(n: Node, canSign: bool): Node
  {
    if n.halted then n.(outbox := []) else n.(outbox := [], canSign := canSign)
  }

  lemma HandleMoves(cfg: Config, v: Address, n: Node, log: Log, event: Event, canSign: bool)
    requires GoodNode(cfg, v, n, log) && Deliverable(n, Seen(log), event) && Placed(cfg, n)
    ensures Placed(cfg, Handle(cfg, n, event, canSign)) && Moves(Before(n, canSign), Handle(cfg, n, event, canSign))
  {
    var n0 := Before(n, canSign);
    assert Placed(cfg, n0) && Timely(n0, event);
    hide Moves, GoodNode, Placed, HandleEvent;
    if n.halted {
      MovesQuietly(n0, n0);
    } else {
      HandleEventMoves(cfg, n0, event);
    }
  }

  /** In every state of every run, rounds, lock, valid block and tracked votes of every node fit together. */
  lemma {:induction false} RunPlaced(cfg: Config, run: seq<Network>, i: nat, v: Address)
    requires IsRun(cfg, run) && i < |run| && v in run[0].nodes
    ensures v in run[i].nodes && Placed(cfg, run[i].nodes[v])
  {
    hide NetInv, Placed, Deliverable;
    if i == 0 {
      InitNodePlaced(cfg, v);
    } else {
      RunPlaced(cfg, run, i - 1, v);
      RunInv(cfg, run, i - 1);
      RunInv(cfg, run, i);
      assert Next(cfg, run[i - 1], run[i - 1 + 1]);
      NextPlaced(cfg, run[i - 1], run[i], v);
    }
  }

  lemma NextPlaced(cfg: Config, s: Network, s': Network, v: Address)
    requires NetInv(cfg, s) && Next(cfg, s, s') && v in s.nodes && Placed(cfg, s.nodes[v])
    ensures v in s'.nodes && Placed(cfg, s'.nodes[v])
  {
    hide Placed, Handle, GoodNode;
    assert GoodNode(cfg, v, s.nodes[v], s.log);
    if w, event, canSign :| NodeStep(cfg, s, s', w, event, canSign) {
      if w == v {
        HandleMoves(cfg, v, s.nodes[v], s.log, event, canSign);
      }
    }
  }

  /** A lock that was released was released to a quorum of signed prevotes. */
  lemma ReleasedToPolka(cfg: Config, v: Address, n: Node, n': Node, log: Log)
    requires GoodNode(cfg, v, n', log) && n.height == n'.height && n.lockedBlock.Some? && Released(n, n')
    ensures OtherPolka(log, n.height, n.lockedRound, n'.round, n.lockedBlock.value.hash, n'.validators)
  {
    var round :| Releases(n, n', round);
    MajorityIsQuorum(n'.votes, log, n'.height, round, Prevote, n'.validators);
    assert !IsFor(TwoThirdsMajority(n'.votes, round, Prevote).value, n.lockedBlock.value.hash);
  }

  /** The lock of one point is still there at another, or was released to a later polka for something else. */
  ghost predicate LockHolds(n: Node, n': Node, log: Log)
  {
    n.height == n'.height && n.lockedBlock.Some? ==>
      || Still(n, n')
      || OtherPolka(log, n.height, n.lockedRound, n'.round, n.lockedBlock.value.hash, n'.validators)
  }

  lemma NextLockHolds(cfg: Config, s: Network, s': Network, v: Address)
    requires NetInv(cfg, s) && NetInv(cfg, s') && Next(cfg, s, s') && v in s.nodes && Placed(cfg, s.nodes[v])
    ensures v in s'.nodes && LockHolds(s.nodes[v], s'.nodes[v], s'.log)
  {
    hide Placed, Handle, GoodNode, OtherPolka;
    assert GoodNode(cfg, v, s.nodes[v], s.log);
    if w, event, canSign :| NodeStep(cfg, s, s', w, event, canSign) {
      if w == v {
        var n, n' := s.nodes[v], s'.nodes[v];
        HandleMoves(cfg, v, n, s.log, event, canSign);
        assert GoodNode(cfg, v, n', s'.log);
        if n.height == n'.height && n.lockedBlock.Some? && !Still(n, n') {
          ReleasedToPolka(cfg, v, Before(n, canSign), n', s'.log);
        }
      }
    }
  }

  /** Holding is transitive as long as the node moves forward at one height. */
  lemma LockHoldsTrans(a: Node, b: Node, c: Node, log: Log, log': Log)
    requires LockHolds(a, b, log) && LockHolds(b, c, log') && log <= log'
    requires a.height <= b.height <= c.height
    requires (b.height == c.height ==> b.round <= c.round && b.validators == c.validators)
    ensures LockHolds(a, c, log')
  {
    if a.height == c.height && a.lockedBlock.Some? && !Still(a, c) {
      var hash := a.lockedBlock.value.hash;
      if Still(a, b) {
        var r, polka :| b.lockedRound < r <= c.round && !IsFor(polka, hash)
            && HasQuorum(log', a.height, r, Prevote, polka, c.validators);
        assert a.lockedRound < r;
      } else {
        assert log' == log + log'[|log|..];
        SeenAppend(log, log'[|log|..]);
        OtherPolkaGrows(log, log', a.height, a.lockedRound, b.round, c.round, hash, b.validators);
      }
    }
  }

  /**
   Lock persistence. A block that a node is locked on at one point of a run is, at every later point of the
   same height, still locked in that round or a later one, unless a quorum prevoted something else in a
   later round that the node has reached. Whether the node signs votes makes no difference.
   */
  lemma {:induction false} LockPersists(cfg: Config, run: seq<Network>, i: nat, j: nat, v: Address)
    requires IsRun(cfg, run) && i <= j < |run| && v in run[0].nodes
    ensures v in run[i].nodes && v in run[j].nodes && LockHolds(run[i].nodes[v], run[j].nodes[v], run[j].log)
    decreases j
  {
    hide NetInv, Next, Placed, LockHolds;
    RunPlaced(cfg, run, i, v);
    RunPlaced(cfg, run, j, v);
    if i == j {
      SelfHolds(run[i].nodes[v], run[i].log);
    } else {
      LockPersists(cfg, run, i, j - 1, v);
      RunPlaced(cfg, run, j - 1, v);
      RunInv(cfg, run, j - 1);
      RunInv(cfg, run, j);
      assert Next(cfg, run[j - 1], run[j - 1 + 1]);
      NextLockHolds(cfg, run[j - 1], run[j], v);
      RunProgress(cfg, run, i, j - 1, v);
      RunProgress(cfg, run, j - 1, j, v);
      SameHeightSameValidators(cfg, run, j - 1, j, v);
      LockHoldsTrans(run[i].nodes[v], run[j - 1].nodes[v], run[j].nodes[v], run[j - 1].log, run[j].log);
    }
  }

  lemma SelfHolds(n: Node, log: Log)
    ensures LockHolds(n, n, log)
  {
  }

  lemma SameHeightSameValidators(cfg: Config, run: seq<Network>, i: nat, j: nat, v: Address)
    requires IsRun(cfg, run) && i <= j < |run| && v in run[0].nodes
    ensures v in run[i].nodes && v in run[j].nodes
    ensures run[i].nodes[v].height == run[j].nodes[v].height ==>
              run[i].nodes[v].validators == run[j].nodes[v].validators
  {
    RunInv(cfg, run, i);
    RunInv(cfg, run, j);
    RunProgress(cfg, run, i, j, v);
    assert GoodNode(cfg, v, run[i].nodes[v], run[i].log) && GoodNode(cfg, v, run[j].nodes[v], run[j].log);
    assert |run[i].nodes[v].chain| == |run[j].nodes[v].chain| ==> run[i].nodes[v].chain == run[j].nodes[v].chain;
  }

  /**
   At every point of a run the locked and the valid block have prevote quorums in their rounds, which are not in
   the future.
   */
  lemma LocksHavePolkas(cfg: Config, run: seq<Network>, v: Address, i: nat)
    requires IsRun(cfg, run) && i < |run| && v in run[0].nodes
    ensures v in run[i].nodes
    ensures var log, n := run[i].log, run[i].nodes[v];
            && (n.lockedBlock.Some? ==>
                  n.lockedRound <= n.round && PolkaFor(log, n.height, n.lockedRound, n.lockedBlock.value, n.validators))
            && (n.validBlock.Some? ==>
                  n.validRound <= n.round && PolkaFor(log, n.height, n.validRound, n.validBlock.value, n.validators))
  {
    RunInv(cfg, run, i);
    assert GoodNode(cfg, v, run[i].nodes[v], run[i].log);
  }

  /**
   Lock discipline, from the votes. A block precommitted by a node at its current height is still locked, at
   that round or a later one, unless a prevote quorum for something else was signed in a later round that the
   node has reached; a block precommitted in the current round is locked in it.
   */
  lemma LockDiscipline(cfg: Config, run: seq<Network>, v: Address, i: nat)
    requires IsRun(cfg, run) && v in run[0].nodes
    requires var log := run[|run| - 1].log; i < |log| && log[i].validator == v && PrecommitsBlock(log[i])
    ensures v in run[|run| - 1].nodes
    ensures var s := run[|run| - 1];
            var n, vote := s.nodes[v], s.log[i];
            vote.height == n.height ==>
              && ((n.lockedBlock == Some(Block(vote.blockID.hash)) && vote.round <= n.lockedRound)
                  || OtherPolka(s.log, n.height, vote.round, n.round, vote.blockID.hash, n.validators))
              && (vote.round == n.round ==> n.lockedBlock == Some(Block(vote.blockID.hash)) && n.lockedRound == n.round)
  {
    var s := run[|run| - 1];
    RunInv(cfg, run, |run| - 1);
    assert GoodNode(cfg, v, s.nodes[v], s.log);
    assert s.log[i].height == s.nodes[v].height ==> VotedAt(s.log[i], v, s.nodes[v].height);
  }

  /** Every vote a node signs in a step is for its height, and for a round and step that it takes in that step. */
  lemma VotesInStep(cfg: Config, run: seq<Network>, i: nat, v: Address, k: nat)
    requires IsRun(cfg, run) && i + 1 < |run| && v in run[0].nodes
    requires |run[i].log| <= k < |run[i + 1].log| && run[i + 1].log[k].validator == v
    ensures v in run[i].nodes && v in run[i + 1].nodes
    ensures InStep(run[i].nodes[v], run[i + 1].log[k], run[i + 1].nodes[v])
  {
    hide Placed, Handle, GoodNode;
    RunPlaced(cfg, run, i, v);
    RunPlaced(cfg, run, i + 1, v);
    RunInv(cfg, run, i);
    var s, s' := run[i], run[i + 1];
    assert Next(cfg, s, s');
    if w, event, canSign :| NodeStep(cfg, s, s', w, event, canSign) {
      assert GoodNode(cfg, w, s.nodes[w], s.log);
      HandleGood(cfg, w, s.nodes[w], s.log, event, canSign);
      var n := Handle(cfg, s.nodes[w], event, canSign);
      assert s'.log[k] == n.outbox[k - |s.log|];
      HandleMoves(cfg, w, s.nodes[w], s.log, event, canSign);
    }
  }

  /** Pending timeouts are never ahead of the node. */
  lemma TimeoutsBehind(cfg: Config, run: seq<Network>, v: Address, ti: TimeoutInfo)
    requires IsRun(cfg, run) && v in run[0].nodes
    requires v in run[|run| - 1].nodes && ti in run[|run| - 1].nodes[v].timeouts
    ensures var n := run[|run| - 1].nodes[v];
            ti.height < n.height || (ti.height == n.height && ti.round <= n.round)
  {
    RunInv(cfg, run, |run| - 1);
    assert GoodNode(cfg, v, run[|run| - 1].nodes[v], run[|run| - 1].log);
  }

  // ---- what does not hold in every run, and when ----

  /**
   In every run a step takes a waiting node out of the commit step at its height exactly by completing a skip to
   a later round.
   */
  lemma CommitStepLeft(cfg: Config, run: seq<Network>, i: nat, v: Address, event: Event, canSign: bool)
    requires IsRun(cfg, run) && i + 1 < |run| && v in run[0].nodes
    requires NodeStep(cfg, run[i], run[i + 1], v, event, canSign) && CommitStep.Waiting(run[i].nodes[v])
    ensures v in run[i + 1].nodes
    ensures CommitStep.Left(run[i].nodes[v], run[i + 1].nodes[v]) <==> CommitStep.SkipsRound(run[i].nodes[v], event)
  {
    var n := run[i].nodes[v];
    RunPlaced(cfg, run, i, v);
    RunTimely(cfg, run, i, v, event);
    hide HandleEvent;
    CommitStep.CommitStepLeft(cfg, Before(n, canSign), event);
  }

  lemma RunTimely(cfg: Config, run: seq<Network>, i: nat, v: Address, event: Event)
    requires IsRun(cfg, run) && i < |run| && v in run[0].nodes
    requires v in run[i].nodes && Deliverable(run[i].nodes[v], Seen(run[i].log), event)
    ensures Timely(run[i].nodes[v], event)
  {
    RunInv(cfg, run, i);
    assert GoodNode(cfg, v, run[i].nodes[v], run[i].log);
  }

  /**
   In every run the locked round of a node passes its valid round exactly in a step that relocks it past the
   valid block.
   */
  lemma LockPassesValid(cfg: Config, run: seq<Network>, i: nat, v: Address, event: Event, canSign: bool)
    requires IsRun(cfg, run) && i + 1 < |run| && v in run[0].nodes
    requires NodeStep(cfg, run[i], run[i + 1], v, event, canSign)
    requires !run[i].nodes[v].halted && RelockRound.Level(run[i].nodes[v])
    ensures v in run[i + 1].nodes
    ensures var n, n' := run[i].nodes[v], run[i + 1].nodes[v];
            if n'.height == n.height then !RelockRound.Level(n') <==> RelockRound.RelocksPastValid(n, event)
            else RelockRound.Level(n')
  {
    var n := run[i].nodes[v];
    RunPlaced(cfg, run, i, v);
    RunTimely(cfg, run, i, v, event);
    hide HandleEvent, TwoThirdsMajority, AddHeightVote;
    RelockRound.LockPassesValid(cfg, Before(n, canSign), event);
  }

  // ---- validity ----

  /** Votes of a node for blocks are for blocks that are valid on its chain. */
  ghost predicate LogValid(cfg: Config, log: Log, v: Address, chain: Chain)
  {
    forall i :: 0 <= i < |log| && log[i].validator == v ==> VoteValid(cfg, chain, log[i])
  }

  lemma StepSound(cfg: Config, s: Network, s': Network, v: Address)
    requires NetInv(cfg, s) && Next(cfg, s, s') && v in s.nodes
    requires Sound(cfg, s.nodes[v]) && LogValid(cfg, s.log, v, s.nodes[v].chain)
    ensures v in s'.nodes && Sound(cfg, s'.nodes[v]) && LogValid(cfg, s'.log, v, s'.nodes[v].chain)
  {
    NextGrows(cfg, s, s', v);
    hide Handle, Deliverable, Sound, LogValid, GoodNode;
    if w, event, canSign :| NodeStep(cfg, s, s', w, event, canSign) {
      var n := Handle(cfg, s.nodes[w], event, canSign);
      assert GoodNode(cfg, w, s.nodes[w], s.log);
      HandleGood(cfg, w, s.nodes[w], s.log, event, canSign);
      if w == v {
        HandleSound(cfg, s.nodes[w], event, canSign);
        LogGrowsValid(cfg, s.log, n.outbox, v, s.nodes[v].chain, n.chain);
      } else {
        OthersSign(cfg, s.log, n.outbox, v, w, s.nodes[v].chain);
      }
    } else {
      var vote :| FaultyStep(s, s', vote);
      OthersSign(cfg, s.log, [vote], v, vote.validator, s.nodes[v].chain);
    }
  }

  lemma HandleSound(cfg: Config, n: Node, event: Event, canSign: bool)
    requires Sound(cfg, n)
    ensures Sound(cfg, Handle(cfg, n, event, canSign))
    ensures VotesValid(cfg, Handle(cfg, n, event, canSign).chain, Handle(cfg, n, event, canSign).outbox)
  {
    hide HandleEvent;
    NothingSigned(cfg, n, canSign);
    if !n.halted {
      HandleEventSound(cfg, n.(outbox := [], canSign := canSign), event);
    }
  }

  lemma LogGrowsValid(cfg: Config, log: Log, votes: seq<Vote>, v: Address, chain: Chain, more: Chain)
    requires LogValid(cfg, log, v, chain) && chain <= more && VotesValid(cfg, more, votes)
    ensures LogValid(cfg, log + votes, v, more)
  {
    PrefixesAgree(chain, more);
  }

  lemma OthersSign(cfg: Config, log: Log, votes: seq<Vote>, v: Address, w: Address, chain: Chain)
    requires LogValid(cfg, log, v, chain) && w != v && OwnVotes(votes, w)
    ensures LogValid(cfg, log + votes, v, chain)
  {
    hide VoteValid;
  }

  lemma NothingSigned(cfg: Config, n: Node, canSign: bool)
    requires Sound(cfg, n)
    ensures Sound(cfg, n.(outbox := [])) && Sound(cfg, n.(outbox := [], canSign := canSign))
  {
  }

  lemma PrefixesAgree(chain: Chain, more: Chain)
    requires chain <= more
    ensures forall k :: 0 <= k <= |chain| ==> more[..k] == chain[..k]
  {
  }

  /**
   Validity. In every run the chain of a correct node holds only blocks that are valid, and executed without
   failure, on the chain before them; what it is locked on or has saved is valid on its chain; and every
   vote it ever signed for a block, prevote or precommit, is for a block valid on its chain at that height.
   */
  lemma {:induction false} RunValid(cfg: Config, run: seq<Network>, i: nat, v: Address)
    requires IsRun(cfg, run) && i < |run| && v in run[0].nodes
    ensures v in run[i].nodes && Sound(cfg, run[i].nodes[v]) && LogValid(cfg, run[i].log, v, run[i].nodes[v].chain)
  {
    hide NetInv, Next, Sound, LogValid;
    if i == 0 {
      InitSound(cfg, v);
      NoLogValid(cfg, v);
    } else {
      RunValid(cfg, run, i - 1, v);
      RunInv(cfg, run, i - 1);
      assert Next(cfg, run[i - 1], run[i - 1 + 1]);
      StepSound(cfg, run[i - 1], run[i], v);
    }
  }

  lemma InitSound(cfg: Config, v: Address)
    ensures Sound(cfg, InitNode(cfg, v))
  {
  }

  lemma NoLogValid(cfg: Config, v: Address)
    ensures LogValid(cfg, [], v, [])
  {
  }

  /** Every block a correct node finalises, in whichever way, is valid on the chain it is put on. */
  lemma FinalisedIsValid(cfg: Config, run: seq<Network>, i: nat, v: Address, height: int, block: Block)
    requires IsRun(cfg, run) && i < |run| && v in run[0].nodes
    requires v in run[i].nodes && Finalises(cfg, run[i].nodes[v], height, block)
    ensures 0 <= height - cfg.initialHeight <= |run[i].nodes[v].chain|
    ensures cfg.valid(run[i].nodes[v].chain[..height - cfg.initialHeight], block)
  {
    RunValid(cfg, run, i, v);
    var chain := run[i].nodes[v].chain;
    assert chain[..|chain|] == chain;
  }

  /** In every run a step that takes a node to the prevote or the precommit step makes it vote as it stands then. */
  lemma RunVotes(cfg: Config, run: seq<Network>, i: nat, v: Address, event: Event, canSign: bool)
    requires IsRun(cfg, run) && i + 1 < |run| && v in run[0].nodes
    requires NodeStep(cfg, run[i], run[i + 1], v, event, canSign) && !run[i].nodes[v].halted
    ensures v in run[i + 1].nodes
    ensures VotesOnMoving(cfg, Before(run[i].nodes[v], canSign), run[i + 1].nodes[v])
  {
    var n := run[i].nodes[v];
    RunPlaced(cfg, run, i, v);
    RunTimely(cfg, run, i, v, event);
    hide HandleEvent;
    VotesOnEvent(cfg, Before(n, canSign), event);
  }
}
