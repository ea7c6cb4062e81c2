/**
 Crash recovery: the writes that finalise a block, a crash between any two of them, and the handshake
 that brings application, block store and saved state back together.

 The application is deterministic and remembers the blocks it committed, so it is its own log; what it
 answers is a function of that log. A crash is a budget: the number of durable writes still to happen.
 */
module Recovery {
  import opened Wrappers

  type Hash = nat
  type Responses = nat

  const EMPTY: Hash := 0

  datatype Block = Block(height: nat, appHash: Hash, lastResults: Responses, data: nat)

  /** The application: its hash after a log, and its answers when the block is run after a log. */
  datatype Machine = Machine(hash: seq<Block> -> Hash, respond: (seq<Block>, Block) -> Responses)

  datatype State = State(height: nat, appHash: Hash, lastResults: Responses)

  datatype Genesis = Genesis(initialHeight: nat, appHash: Hash, emptyResults: Responses)

  datatype Outcome =
    | Done(appHash: Hash)
    | Crashed
    | AppTooLow
    | AppTooHigh
    | InvalidBlock
    | Panicked

  function HeightOf(g: Genesis, blocks: nat): (h: nat)
    requires g.initialHeight > 0
    ensures h == 0 <==> blocks == 0
    ensures blocks > 0 ==> h == g.initialHeight + blocks - 1
  {
    if blocks == 0 then 0 else g.initialHeight + blocks - 1
  }

  function InitialState(g: Genesis): State { State(0, g.appHash, g.emptyResults) }

  /** The state the handshake saves at genesis, given the hash the application returned. */
  function AfterInitChain(g: Genesis, s: State, appHash: Hash): State
  {
    s.(appHash := if appHash != EMPTY then appHash else s.appHash, lastResults := g.emptyResults)
  }

  /** The state that a run without crashes saves after `chain`. */
  function StateOf(g: Genesis, m: Machine, chain: seq<Block>): State
    requires g.initialHeight > 0
  {
    if chain == [] then AfterInitChain(g, InitialState(g), m.hash([]))
    else State(HeightOf(g, |chain|), m.hash(chain), m.respond(chain[..|chain| - 1], chain[|chain| - 1]))
  }

  predicate ValidBlock(g: Genesis, s: State, b: Block)
    requires g.initialHeight > 0
  {
    && b.height == (if s.height == 0 then g.initialHeight else s.height + 1)
    && b.appHash == s.appHash
    && b.lastResults == s.lastResults
  }

  /** Every block was valid when it was decided. */
  ghost predicate ValidChain(g: Genesis, m: Machine, chain: seq<Block>)
    requires g.initialHeight > 0
  {
    forall i :: 0 <= i < |chain| ==> ValidBlock(g, StateOf(g, m, chain[..i]), chain[i])
  }

  /** The genesis file names no application hash, or the application returns one itself. */
  predicate GenesisAgrees(g: Genesis, m: Machine)
  {
    m.hash([]) != EMPTY || g.appHash == EMPTY
  }

  /** The chain of block headers carries the application hash after each prefix. */
  lemma HashAlongChain(g: Genesis, m: Machine, chain: seq<Block>, i: nat)
    requires g.initialHeight > 0 && GenesisAgrees(g, m) && ValidChain(g, m, chain) && i <= |chain|
    ensures StateOf(g, m, chain[..i]).appHash == m.hash(chain[..i])
    ensures i < |chain| ==> chain[i].appHash == m.hash(chain[..i]) && chain[i].height == g.initialHeight + i
  {
    assert i == 0 ==> chain[..i] == [];
    assert i < |chain| ==> ValidBlock(g, StateOf(g, m, chain[..i]), chain[i]);
  }

  /**
   Which chains are valid, block by block: heights count up, and every block carries the application hash and
   the answers of those before it.
   */
  lemma ValidChainExact(g: Genesis, m: Machine, chain: seq<Block>)
    requires g.initialHeight > 0 && GenesisAgrees(g, m)
    ensures ValidChain(g, m, chain) <==>
            forall i :: 0 <= i < |chain| ==>
              && chain[i].height == g.initialHeight + i
              && chain[i].appHash == m.hash(chain[..i])
              && chain[i].lastResults == if i == 0 then g.emptyResults else m.respond(chain[..i - 1], chain[i - 1])
  {
    forall i | 0 <= i < |chain|
      ensures ValidBlock(g, StateOf(g, m, chain[..i]), chain[i]) <==>
              && chain[i].height == g.initialHeight + i
              && chain[i].appHash == m.hash(chain[..i])
              && chain[i].lastResults == if i == 0 then g.emptyResults else m.respond(chain[..i - 1], chain[i - 1])
    {
      assert i == 0 ==> chain[..i] == [];
      assert i > 0 ==> chain[..i][..i - 1] == chain[..i - 1];
    }
  }

  /**
   What may be found on disk: `blocks` is every block ever stored (the first `pruned` are gone), `log` what
   the application committed, `marks` the end-of-height marks in the log of consensus messages.
   */
  datatype Disk = Disk(
    blocks: seq<Block>,
    pruned: nat,
    log: seq<Block>,
    state: State,
    responses: map<nat, Responses>,
    marks: seq<nat>
  )

  /** Heights of the store, the saved state and the application. */
  ghost predicate Coherent(g: Genesis, m: Machine, d: Disk)
    requires g.initialHeight > 0
  {
    && ValidChain(g, m, d.blocks)
    && |d.log| <= |d.blocks| && d.log == d.blocks[..|d.log|]
    && d.pruned <= |d.blocks| && (d.pruned > 0 ==> d.pruned < |d.blocks|)
    && StateFits(g, m, d)
    && MarksIncrease(g, d)
    && (d.blocks != [] ==> GenesisAgrees(g, m))
  }

  /** End-of-height marks increase along the log, and none is written before its block is stored. */
  ghost predicate MarksIncrease(g: Genesis, d: Disk)
    requires g.initialHeight > 0
  {
    && (forall i, j :: 0 <= i < j < |d.marks| ==> d.marks[i] < d.marks[j])
    && (forall i :: 0 <= i < |d.marks| ==> d.marks[i] <= HeightOf(g, |d.blocks|))
  }

  /**
   The saved state is that of all blocks or of all but the last; in between the answers of the application are
   kept.
   */
  ghost predicate StateFits(g: Genesis, m: Machine, d: Disk)
    requires g.initialHeight > 0 && |d.log| <= |d.blocks|
  {
    var n := |d.blocks|;
    if n == 0 then d.state == InitialState(g) || d.state == StateOf(g, m, [])
    else
      || (d.state == StateOf(g, m, d.blocks) && d.pruned < n)
      || (d.state == StateOf(g, m, d.blocks[..n - 1])
          && d.pruned < n
          && (|d.log| == n ==>
                HeightOf(g, n) in d.responses
                    && d.responses[HeightOf(g, n)] == m.respond(d.blocks[..n - 1], d.blocks[n - 1])))
  }

  /** Application, store and state agree: every block is committed to the application once, in order. */
  ghost predicate Synced(g: Genesis, m: Machine, d: Disk)
    requires g.initialHeight > 0
  {
    d.log == d.blocks && d.state == StateOf(g, m, d.blocks)
  }

  /** The handshake cannot cross the gap between height 0 and an initial height above 1. */
  predicate Stuck(g: Genesis, d: Disk)
  {
    d.blocks != [] && d.state.height == 0 && g.initialHeight > 1
  }

  /** The last block is stored, and the saved state is the one before it. */
  ghost predicate Pending(g: Genesis, m: Machine, d: Disk)
    requires g.initialHeight > 0
  {
    |d.blocks| > 0 && d.state == StateOf(g, m, d.blocks[..|d.blocks| - 1])
  }

  /** The last block is valid against the saved state, and its height is the store's. */
  lemma PendingBlock(g: Genesis, m: Machine, d: Disk)
    requires g.initialHeight > 0 && Coherent(g, m, d) && Pending(g, m, d)
    ensures var b := d.blocks[|d.blocks| - 1]; ValidBlock(g, d.state, b) && b.height == HeightOf(g, |d.blocks|)
    ensures |d.log| == |d.blocks| - 1 ==> d.log == d.blocks[..|d.blocks| - 1]
    ensures |d.log| == |d.blocks| ==> d.log == d.blocks
  {
    assert d.blocks[..|d.blocks|] == d.blocks;
  }

  lemma SaveAnswersOk(g: Genesis, m: Machine, d: Disk, answers: Responses)
    requires g.initialHeight > 0 && Coherent(g, m, d) && Pending(g, m, d)
    requires answers == m.respond(d.blocks[..|d.blocks| - 1], d.blocks[|d.blocks| - 1])
    ensures var d' := d.(responses := d.responses[HeightOf(g, |d.blocks|) := answers]);
        Coherent(g, m, d') && Pending(g, m, d')
  {
    hide ValidChain, StateOf;
  }

  lemma CommitOk(g: Genesis, m: Machine, d: Disk)
    requires g.initialHeight > 0 && Coherent(g, m, d) && Pending(g, m, d) && |d.log| == |d.blocks| - 1
    requires HeightOf(g, |d.blocks|) in d.responses
    requires d.responses[HeightOf(g, |d.blocks|)] == m.respond(d.blocks[..|d.blocks| - 1], d.blocks[|d.blocks| - 1])
    ensures var d' := d.(log := d.log + [d.blocks[|d.blocks| - 1]]);
        Coherent(g, m, d') && Pending(g, m, d') && d'.log == d.blocks
  {
    hide ValidChain, StateOf;
    assert d.log + [d.blocks[|d.blocks| - 1]] == d.blocks == d.blocks[..|d.blocks|];
  }

  lemma SaveStateOk(g: Genesis, m: Machine, d: Disk, next: State)
    requires g.initialHeight > 0 && Coherent(g, m, d) && Pending(g, m, d) && d.log == d.blocks
    requires next == State(HeightOf(g, |d.blocks|), m.hash(d.blocks),
        m.respond(d.blocks[..|d.blocks| - 1], d.blocks[|d.blocks| - 1]))
    ensures Coherent(g, m, d.(state := next)) && Synced(g, m, d.(state := next))
  {
    hide ValidChain;
    assert d.blocks[..|d.blocks|] == d.blocks;
  }

  /** The application may commit the next stored block whenever the saved state does not wait for it. */
  lemma CommitBehindOk(g: Genesis, m: Machine, d: Disk)
    requires g.initialHeight > 0 && Coherent(g, m, d) && |d.log| < |d.blocks|
    requires d.state == StateOf(g, m, d.blocks) || |d.log| < |d.blocks| - 1
    ensures Coherent(g, m, d.(log := d.log + [d.blocks[|d.log|]]))
  {
    hide ValidChain, StateOf;
    assert d.log + [d.blocks[|d.log|]] == d.blocks[..|d.log| + 1];
  }

  lemma LogIsPrefix(g: Genesis, m: Machine, d: Disk)
    requires g.initialHeight > 0 && Coherent(g, m, d)
    ensures d.log <= d.blocks && d.log == d.blocks[..|d.log|]
  {
    hide ValidChain, StateFits, MarksIncrease;
  }

  lemma InitChainOk(g: Genesis, m: Machine, d: Disk)
    requires g.initialHeight > 0 && Coherent(g, m, d) && d.log == [] && d.state.height == 0
    ensures var d' := d.(state := AfterInitChain(g, d.state, m.hash([])));
      && d'.state == StateOf(g, m, []) && Coherent(g, m, d') && (d.blocks != [] ==> d'.state == d.state)
  {
    StateHeight(g, m, d);
    hide ValidChain;
    assert d.blocks != [] ==> d.blocks[..|d.blocks| - 1] == [];
  }

  /** The saved state tells how many blocks it covers. */
  lemma StateHeight(g: Genesis, m: Machine, d: Disk)
    requires g.initialHeight > 0 && Coherent(g, m, d)
    ensures d.blocks == [] ==> d.state.height == 0 && d.log == []
    ensures d.blocks != [] && d.state.height == HeightOf(g, |d.blocks|) ==> d.state == StateOf(g, m, d.blocks)
    ensures d.blocks != [] && d.state.height != HeightOf(g, |d.blocks|) ==>
              Pending(g, m, d) && d.state.height == HeightOf(g, |d.blocks| - 1)
    ensures d.pruned <= |d.blocks| && (d.pruned > 0 ==> d.pruned < |d.blocks|) && |d.log| <= |d.blocks|
    ensures d.blocks != [] ==> GenesisAgrees(g, m)
  {
    hide ValidChain;
  }

  lemma HashAtLog(g: Genesis, m: Machine, d: Disk)
    requires g.initialHeight > 0 && Coherent(g, m, d) && d.blocks != []
    ensures |d.log| < |d.blocks| ==> d.blocks[|d.log|].appHash == m.hash(d.log)
    ensures Synced(g, m, d) ==> d.state.appHash == m.hash(d.log)
    ensures d.state == StateOf(g, m, d.blocks) && |d.log| == |d.blocks| ==>
              d.state.appHash == m.hash(d.log) && Synced(g, m, d)
  {
    hide StateFits, MarksIncrease;
    HashAlongChain(g, m, d.blocks, |d.log|);
    assert |d.log| == |d.blocks| ==> d.blocks[..|d.log|] == d.blocks;
  }

  lemma SavedAnswers(g: Genesis, m: Machine, d: Disk)
    requires g.initialHeight > 0 && Coherent(g, m, d) && Pending(g, m, d) && |d.log| == |d.blocks|
    requires d.state.height != HeightOf(g, |d.blocks|)
    ensures var n := |d.blocks|; var h := HeightOf(g, n);
      h in d.responses && d.responses[h] == m.respond(d.blocks[..n - 1], d.blocks[n - 1])
  {
    hide ValidChain;
  }

  /** A new valid block follows the stored ones. */
  lemma StoreBlockOk(g: Genesis, m: Machine, d: Disk, b: Block)
    requires g.initialHeight > 0 && Coherent(g, m, d) && Synced(g, m, d) && GenesisAgrees(g, m)
    requires ValidBlock(g, d.state, b)
    ensures b.height == HeightOf(g, |d.blocks| + 1)
    ensures var d' := d.(blocks := d.blocks + [b]);
        Coherent(g, m, d') && Pending(g, m, d') && |d'.log| == |d'.blocks| - 1
    ensures forall i :: 0 <= i < |d.marks| ==> d.marks[i] < b.height
  {
    var d' := d.(blocks := d.blocks + [b]);
    assert d'.blocks[..|d.blocks|] == d.blocks && d.blocks[..|d.blocks|] == d.blocks;
    assert d.state.height == HeightOf(g, |d.blocks|);
    hide StateOf;
    forall i | 0 <= i < |d'.blocks| ensures ValidBlock(g, StateOf(g, m, d'.blocks[..i]), d'.blocks[i]) {
      if i < |d.blocks| {
        assert d'.blocks[..i] == d.blocks[..i];
      }
    }
  }

  lemma MarkOk(g: Genesis, m: Machine, d: Disk, h: nat)
    requires g.initialHeight > 0 && Coherent(g, m, d) && h == HeightOf(g, |d.blocks|)
    requires forall i :: 0 <= i < |d.marks| ==> d.marks[i] < h
    ensures Coherent(g, m, d.(marks := d.marks + [h]))
    ensures (Pending(g, m, d) ==> Pending(g, m, d.(marks := d.marks + [h])))
  {
    hide ValidChain, StateOf;
  }

  lemma PruneOk(g: Genesis, m: Machine, d: Disk, n: nat)
    requires g.initialHeight > 0 && Coherent(g, m, d) && d.pruned < n < |d.blocks|
    ensures Coherent(g, m, d.(pruned := n)) && (Synced(g, m, d) ==> Synced(g, m, d.(pruned := n)))
  {
    hide ValidChain, StateOf;
  }

  lemma RollbackOk(g: Genesis, m: Machine, d: Disk, k: nat)
    requires g.initialHeight > 0 && Coherent(g, m, d) && k <= |d.log|
    ensures Coherent(g, m, d.(log := d.log[..k]))
  {
    hide ValidChain, StateOf;
    assert d.log[..k] == d.blocks[..k];
  }

  /**
   What may happen to a node: the process runs until its budget of writes is spent, or the application restarts
   further back.
   */
  datatype Event =
    | Restart(budget: nat)
    | Decide(block: Block, retain: nat)
    | AppRollback(committed: nat)

  /** The disk after `n` of the writes that apply the last block: its answers, the application, the state. */
  ghost predicate AppliedUpTo(m: Machine, d: Disk, live: bool, n: nat, d': Disk)
    requires d.blocks != []
  {
    var k := |d.blocks| - 1;
    var b := d.blocks[k];
    && d'.blocks == d.blocks && d'.pruned == d.pruned && d'.marks == d.marks
    && d'.responses == (if n >= 1 then d.responses[b.height := m.respond(d.blocks[..k], b)] else d.responses)
    && d'.log == (if live && n >= 2 then d.log + [b] else d.log)
    && ((if live then 3 else 2) > n ==> d'.state == d.state)
  }

  lemma ApplyStages(m: Machine, d: Disk, live: bool, n: nat, answers: Responses, next: State)
    requires d.blocks != [] && answers == m.respond(d.blocks[..|d.blocks| - 1], d.blocks[|d.blocks| - 1])
    ensures var b := d.blocks[|d.blocks| - 1];
            var d1 := d.(responses := d.responses[b.height := answers]);
            var d2 := if live then d1.(log := d1.log + [b]) else d1;
            && (n == 0 ==> AppliedUpTo(m, d, live, n, d))
            && (n == 1 ==> AppliedUpTo(m, d, live, n, d1))
            && (live && n == 2 ==> AppliedUpTo(m, d, live, n, d2))
            && (n >= 3 || (!live && n == 2) ==> AppliedUpTo(m, d, live, n, d2.(state := next)))
  {
  }

  lemma AppliedLog(m: Machine, d: Disk, live: bool, n: nat, d': Disk)
    requires d.blocks != [] && AppliedUpTo(m, d, live, n, d')
    ensures d.log <= d'.log
  {
  }

  /** The disk after `n` of the writes that replay the stored blocks, the last one with its state if so asked. */
  ghost predicate ReplayedUpTo(m: Machine, d: Disk, mutateState: bool, n: nat, d': Disk)
    requires d.blocks != [] && |d.log| < |d.blocks|
  {
    var alone := |d.blocks| - |d.log| - if mutateState then 1 else 0;
    if n <= alone then d' == d.(log := d.blocks[..|d.log| + n])
    else if mutateState then
      AppliedUpTo(m, d.(log := d.blocks[..|d.blocks| - 1]), true, n - alone, d')
    else d' == d.(log := d.blocks)
  }

  /** Of the answers kept, only those for the last block change. */
  ghost predicate AnswersKept(m: Machine, d: Disk, d': Disk)
  {
    || d'.responses == d.responses
    || (&& d.blocks != []
        && var k := |d.blocks| - 1;
           d'.responses == d.responses[d.blocks[k].height := m.respond(d.blocks[..k], d.blocks[k])])
  }

  lemma ReplayKeepsAnswers(m: Machine, d: Disk, mutateState: bool, live: bool, n: nat, d': Disk)
    requires d.blocks != []
    requires || (|d.log| < |d.blocks| && ReplayedUpTo(m, d, mutateState, n, d'))
             || AppliedUpTo(m, d, live, n, d')
    ensures AnswersKept(m, d, d')
  {
  }

  /** How many writes a handshake needs that goes through. */
  function RepairWrites(g: Genesis, d: Disk): nat
    requires g.initialHeight > 0
  {
    var init := if d.log == [] && d.state.height == 0 then 1 else 0;
    if d.blocks == [] || |d.log| < d.pruned || Stuck(g, d) || |d.log| > |d.blocks| then init
    else init + (|d.blocks| - |d.log|) + if d.state.height < HeightOf(g, |d.blocks|) then 2 else 0
  }

  class Node {
    const genesis: Genesis
    const machine: Machine
    var disk: Disk
    var budget: nat

    ghost predicate Valid()
      reads this
    {
      genesis.initialHeight > 0 && Coherent(genesis, machine, disk)
    }

    constructor (genesis: Genesis, machine: Machine, budget: nat)
      requires genesis.initialHeight > 0
      ensures Valid() && this.genesis == genesis && this.machine == machine && this.budget == budget
      ensures disk.blocks == [] && disk.log == []
    {
      this.genesis, this.machine, this.budget := genesis, machine, budget;
      disk := Disk([], 0, [], InitialState(genesis), map[], [0]);
    }

    /** One durable write, unless the process has died. */
    method Write(next: Disk) returns (alive: bool)
      modifies this
      ensures alive <==> old(budget) > 0
      ensures alive ==> disk == next && budget == old(budget) - 1
      ensures !alive ==> disk == old(disk) && budget == old(budget)
    {
      alive := budget > 0;
      if alive {
        disk := next;
        budget := budget - 1;
      }
    }

    /**
     Run the block and move the state: save the answers, commit the application, save the state. With a
     mock application the answers are the saved ones, the hash is given and the real application is left alone.
     */
    method ApplyBlock(state: State, b: Block, mock: Option<(Hash, Responses)>) returns (r: Outcome, next: State)
      requires Valid()
      requires |disk.blocks| > 0 && b == disk.blocks[|disk.blocks| - 1]
      requires state == disk.state && Pending(genesis, machine, disk)
      requires mock.None? ==> |disk.log| == |disk.blocks| - 1
      requires mock.Some? ==>
                 |disk.log| == |disk.blocks| && mock.value.0 == machine.hash(disk.log)
                     && mock.value.1 == machine.respond(disk.blocks[..|disk.blocks| - 1], b)
      modifies this
      ensures Valid() && disk.blocks == old(disk.blocks) && disk.pruned == old(disk.pruned)
      ensures disk.marks == old(disk.marks)
      ensures r.Crashed? || (r == Done(next.appHash) && disk.state == next && Synced(genesis, machine, disk))
      ensures r.Crashed? <==> old(budget) < if mock.Some? then 2 else 3
      ensures budget == if r.Crashed? then 0 else old(budget) - if mock.Some? then 2 else 3
      ensures AppliedUpTo(machine, old(disk), mock.None?, old(budget), disk)
    {
      next := state;
      PendingBlock(genesis, machine, disk);
      hide Coherent, StateOf, Synced, Pending, ValidBlock, AppliedUpTo;
      if !ValidBlock(genesis, state, b) {
        return InvalidBlock, next;
      }
      var answers := if mock.Some? then mock.value.1 else machine.respond(disk.log, b);
      ghost var d, n := disk, budget;
      ApplyStages(machine, d, mock.None?, n, answers, state);
      SaveAnswersOk(genesis, machine, disk, answers);
      var alive := Write(disk.(responses := disk.responses[b.height := answers]));
      if !alive {
        return Crashed, next;
      }
      var hash;
      if mock.Some? {
        hash := mock.value.0;
      } else {
        CommitOk(genesis, machine, disk);
        alive := Write(disk.(log := disk.log + [b]));
        if !alive {
          return Crashed, next;
        }
        hash := machine.hash(disk.log);
      }
      next := State(b.height, hash, answers);
      ApplyStages(machine, d, mock.None?, n, answers, next);
      SaveStateOk(genesis, machine, disk, next);
      alive := Write(disk.(state := next));
      if !alive {
        return Crashed, state;
      }
      return Done(hash), next;
    }

    /** Catch the application up on the blocks from its own height to the last but one, or to the last. */
    method ReplayBlocks(mutateState: bool) returns (r: Outcome)
      requires Valid() && disk.pruned <= |disk.log| < |disk.blocks|
      requires if mutateState then Pending(genesis, machine, disk) && |disk.log| < |disk.blocks| - 1
          else disk.state == StateOf(genesis, machine, disk.blocks)
      modifies this
      ensures Valid() && disk.blocks == old(disk.blocks) && disk.pruned == old(disk.pruned)
      ensures disk.marks == old(disk.marks)
      ensures r.Crashed? || (r == Done(machine.hash(disk.log)) && Synced(genesis, machine, disk))
      ensures var writes := |old(disk).blocks| - |old(disk).log| + if mutateState then 2 else 0;
              && (r.Crashed? <==> old(budget) < writes)
              && budget == if r.Crashed? then 0 else old(budget) - writes
      ensures ReplayedUpTo(machine, old(disk), mutateState, old(budget), disk)
      ensures old(disk).log <= disk.log
    {
      hide Coherent, StateOf, Synced, AppliedUpTo;
      LogIsPrefix(genesis, machine, disk);
      StateHeight(genesis, machine, disk);
      var state, appHash := disk.state, EMPTY;
      var first := HeightOf(genesis, |disk.log|) + 1;
      if first == 1 {
        first := genesis.initialHeight;
      }
      var last := HeightOf(genesis, |disk.blocks|);
      if mutateState {
        last := last - 1;
      }
      var i := first;
      while i <= last
        invariant Valid() && disk.blocks == old(disk.blocks) && disk.pruned == old(disk.pruned)
        invariant disk.marks == old(disk.marks) && disk.state == state
        invariant genesis.initialHeight <= first <= i <= last + 1
        invariant |disk.log| == i - genesis.initialHeight
        invariant appHash == EMPTY || appHash == machine.hash(disk.log)
        invariant i > first ==> appHash == machine.hash(disk.log)
        invariant old(budget) == budget + (i - first)
        invariant disk == old(disk).(log := disk.log) && disk.log == disk.blocks[..|disk.log|]
      {
        var b := disk.blocks[i - genesis.initialHeight];
        HashAtLog(genesis, machine, disk);
        if appHash != EMPTY && appHash != b.appHash {
          return Panicked;
        }
        CommitBehindOk(genesis, machine, disk);
        var alive := Write(disk.(log := disk.log + [b]));
        if !alive {
          return Crashed;
        }
        appHash := machine.hash(disk.log);
        i := i + 1;
      }
      if mutateState {
        assert disk == old(disk).(log := disk.blocks[..|disk.blocks| - 1]);
        ghost var left := budget;
        r, state := ReplayBlock(state, None);
        AppliedLog(machine, old(disk).(log := disk.blocks[..|disk.blocks| - 1]), true, left, disk);
        if r.Crashed? {
          return;
        }
        appHash := state.appHash;
      }
      HashAtLog(genesis, machine, disk);
      if appHash != state.appHash {
        return Panicked;
      }
      return Done(appHash);
    }

    /** Apply the last stored block. */
    method ReplayBlock(state: State, mock: Option<(Hash, Responses)>) returns (r: Outcome, next: State)
      requires Valid() && state == disk.state && Pending(genesis, machine, disk)
      requires mock.None? ==> |disk.log| == |disk.blocks| - 1
      requires mock.Some? ==> |disk.log| == |disk.blocks| && mock.value.0 == machine.hash(disk.log)
      requires mock.Some? ==>
                 mock.value.1 == machine.respond(disk.blocks[..|disk.blocks| - 1], disk.blocks[|disk.blocks| - 1])
      modifies this
      ensures Valid() && disk.blocks == old(disk.blocks) && disk.pruned == old(disk.pruned)
      ensures disk.marks == old(disk.marks)
      ensures r.Crashed? || (r == Done(next.appHash) && disk.state == next && Synced(genesis, machine, disk))
      ensures r.Crashed? <==> old(budget) < if mock.Some? then 2 else 3
      ensures budget == if r.Crashed? then 0 else old(budget) - if mock.Some? then 2 else 3
      ensures AppliedUpTo(machine, old(disk), mock.None?, old(budget), disk)
    {
      var b := disk.blocks[|disk.blocks| - 1];
      r, next := ApplyBlock(state, b, mock);
    }

    /**
     The handshake: compare the three heights and bring application and state up to the store. It
     succeeds exactly when the application is not behind the pruned store and the node is not stuck
     at genesis.
     */
    method Handshake() returns (r: Outcome)
      requires Valid()
      modifies this
      ensures Valid() && disk.blocks == old(disk.blocks) && disk.pruned == old(disk.pruned)
      ensures disk.marks == old(disk.marks)
      ensures r.Done? ==>
                Synced(genesis, machine, disk) && GenesisAgrees(genesis, machine) && r.appHash == machine.hash(disk.log)
      ensures r.Crashed? <==> old(budget) < RepairWrites(genesis, old(disk))
      ensures budget == if r.Crashed? then 0 else old(budget) - RepairWrites(genesis, old(disk))
      ensures old(disk).log <= disk.log
      ensures AnswersKept(machine, old(disk), disk)
      ensures r.Crashed? || r.Done? || (disk.log == old(disk).log && disk.state.height == old(disk).state.height)
      ensures !r.Crashed? ==>
                r ==
                  if disk.blocks == [] && !GenesisAgrees(genesis, machine) then Panicked
                  else if disk.blocks == [] then Done(machine.hash([]))
                  else if |old(disk.log)| < disk.pruned then AppTooLow
                  else if Stuck(genesis, old(disk)) then Panicked
                  else Done(machine.hash(disk.log))
    {
      hide Coherent, StateOf, Synced, Pending, AppliedUpTo, ReplayedUpTo;
      LogIsPrefix(genesis, machine, disk);
      var appHash, appHeight := machine.hash(disk.log), HeightOf(genesis, |disk.log|);
      var storeBase := if disk.blocks == [] then 0 else genesis.initialHeight + disk.pruned;
      var storeHeight, stateHeight := HeightOf(genesis, |disk.blocks|), disk.state.height;
      StateHeight(genesis, machine, disk);
      if appHeight == 0 {
        appHash := machine.hash([]);
        if stateHeight == 0 {
          InitChainOk(genesis, machine, disk);
          var alive := Write(disk.(state := AfterInitChain(genesis, disk.state, appHash)));
          if !alive {
            return Crashed;
          }
        }
      }
      StateHeight(genesis, machine, disk);
      if storeHeight == 0 {
        EmptySynced(genesis, machine, disk);
        return if appHash == disk.state.appHash then Done(appHash) else Panicked;
      }
      if appHeight == 0 && genesis.initialHeight < storeBase {
        return AppTooLow;
      }
      if appHeight > 0 && appHeight < storeBase - 1 {
        return AppTooLow;
      }
      if storeHeight < appHeight {
        return AppTooHigh;
      }
      if storeHeight < stateHeight || storeHeight > stateHeight + 1 {
        return Panicked;
      }
      HashAtLog(genesis, machine, disk);
      if storeHeight == stateHeight {
        if appHeight < storeHeight {
          ghost var before, left := disk, budget;
          r := ReplayBlocks(false);
          ReplayKeepsAnswers(machine, before, false, true, left, disk);
          return;
        }
        return if appHash == disk.state.appHash then Done(appHash) else Panicked;
      }
      var state;
      ghost var before, left := disk, budget;
      if appHeight < stateHeight {
        r := ReplayBlocks(true);
      } else if appHeight == stateHeight {
        r, state := ReplayBlock(disk.state, None);
      } else {
        SavedAnswers(genesis, machine, disk);
        r, state := ReplayBlock(disk.state, Some((appHash, disk.responses[storeHeight])));
      }
      if appHeight >= stateHeight {
        AppliedLog(machine, before, appHeight == stateHeight, left, disk);
      }
      ReplayKeepsAnswers(machine, before, true, appHeight == stateHeight, left, disk);
      HashAtLog(genesis, machine, disk);
    }

    /** Store, mark, apply and prune, in that order. */
    method FinalizeCommit(b: Block, retain: nat) returns (r: Outcome)
      requires Valid() && Synced(genesis, machine, disk) && GenesisAgrees(genesis, machine)
      requires ValidBlock(genesis, disk.state, b)
      modifies this
      ensures Valid() && (r.Crashed? || (r.Done? && Synced(genesis, machine, disk)))
      ensures disk.blocks == if old(budget) >= 1 then old(disk.blocks) + [b] else old(disk.blocks)
      ensures disk.marks == if old(budget) >= 2 then old(disk.marks) + [b.height] else old(disk.marks)
      ensures old(budget) >= 2 ==>
                exists d :: d == old(disk).(blocks := disk.blocks, marks := disk.marks)
                            && AppliedUpTo(machine, d, true, old(budget) - 2, disk.(pruned := d.pruned))
      ensures old(budget) < 2 ==> disk == old(disk).(blocks := disk.blocks)
      ensures var prunes := genesis.initialHeight + old(disk).pruned < retain <= b.height;
              && (r.Crashed? <==> old(budget) < if prunes then 6 else 5)
              && disk.pruned == if r.Done? && prunes then retain - genesis.initialHeight else old(disk).pruned
    {
      hide Coherent, StateOf, Synced, Pending, ValidBlock;
      StoreBlockOk(genesis, machine, disk, b);
      if HeightOf(genesis, |disk.blocks|) < b.height {
        var stored := Write(disk.(blocks := disk.blocks + [b]));
        if !stored {
          return Crashed;
        }
      }
      MarkOk(genesis, machine, disk, b.height);
      var marked := Write(disk.(marks := disk.marks + [b.height]));
      if !marked {
        return Crashed;
      }
      var state;
      r, state := ApplyBlock(disk.state, b, None);
      if r.Crashed? {
        return;
      }
      if genesis.initialHeight + disk.pruned < retain <= HeightOf(genesis, |disk.blocks|) {
        PruneOk(genesis, machine, disk, retain - genesis.initialHeight);
        var pruned := Write(disk.(pruned := retain - genesis.initialHeight));
        if !pruned {
          return Crashed;
        }
      }
    }

    /**
     Any sequence of decided blocks, crashes at any write, restarts and setbacks of the application keeps the
     disk coherent.
     */
    method Run(events: seq<Event>) returns (ready: bool)
      requires Valid()
      modifies this
      ensures Valid() && |disk.blocks| >= |old(disk.blocks)| && disk.blocks[..|old(disk.blocks)|] == old(disk.blocks)
      ensures ready ==> disk.log == disk.blocks && Synced(genesis, machine, disk)
      ensures events != [] && events[|events| - 1].Restart?
              && events[|events| - 1].budget >= |disk.blocks| + 4 ==>
                ready || |disk.log| < disk.pruned || Stuck(genesis, disk)
                || (disk.blocks == [] && !GenesisAgrees(genesis, machine))
    {
      hide Coherent, StateOf, Synced, ValidBlock;
      ready := false;
      for i := 0 to |events|
        invariant Valid() && |disk.blocks| >= |old(disk.blocks)|
        invariant disk.blocks[..|old(disk.blocks)|] == old(disk.blocks)
        invariant ready ==> Synced(genesis, machine, disk) && GenesisAgrees(genesis, machine)
        invariant i > 0 && events[i - 1].Restart? && events[i - 1].budget >= |disk.blocks| + 4 ==>
                    ready || |disk.log| < disk.pruned || Stuck(genesis, disk)
                    || (disk.blocks == [] && !GenesisAgrees(genesis, machine))
      {
        match events[i] {
          case Restart(n) =>
            budget := n;
            var r := Handshake();
            ready := r.Done?;
          case Decide(b, retain) =>
            if ready && ValidBlock(genesis, disk.state, b) {
              var r := FinalizeCommit(b, retain);
              ready := r.Done?;
            }
          case AppRollback(k) =>
            if k <= |disk.log| {
              RollbackOk(genesis, machine, disk, k);
              disk := disk.(log := disk.log[..k]);
              ready := false;
            }
        }
      }
      assert ready ==> disk.log == disk.blocks by {
        SyncedLog(genesis, machine, disk);
      }
    }
  }

  lemma SyncedLog(g: Genesis, m: Machine, d: Disk)
    requires g.initialHeight > 0
    ensures Synced(g, m, d) ==> d.log == d.blocks
  {
  }

  lemma EmptySynced(g: Genesis, m: Machine, d: Disk)
    requires g.initialHeight > 0 && Coherent(g, m, d) && d.blocks == [] && d.state == StateOf(g, m, [])
    ensures Synced(g, m, d) && (m.hash([]) == d.state.appHash <==> GenesisAgrees(g, m))
  {
  }
}
