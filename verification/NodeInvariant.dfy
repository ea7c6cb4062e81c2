/**
 What every transition of one node keeps, relative to the log of signed votes.

 `Inv(cfg, n, base)` relates a node to the votes signed before the current event (`base`) followed by
 those it signed during the event (`n.outbox`). Each lemma below shows that one transition function
 keeps it. The main consequence is that the node's own votes stay disciplined at every height.
 */
module NodeInvariant {
  import opened Wrappers
  import opened Quorum
  import opened VoteSets
  import opened Consensus
  import opened Discipline

  ghost predicate Shape(cfg: Config, n: Node)
  {
    && n.height == cfg.initialHeight + |n.chain|
    && n.validators == cfg.validators(n.chain)
    && 0 <= n.round
  }

  /** The node's own votes are behind its current height, round and step, and not below the first height. */
  ghost predicate Frontier(low: int, log: Log, v: Address, height: int, round: int, step: int)
  {
    forall i :: 0 <= i < |log| && log[i].validator == v ==>
        low <= log[i].height && BehindStep(log[i], height, round, step)
  }

  predicate OwnVotes(votes: seq<Vote>, v: Address)
  {
    forall i :: 0 <= i < |votes| ==> votes[i].validator == v
  }

  predicate BehindStep(vote: Vote, height: int, round: int, step: int)
  {
    || vote.height < height
    || (vote.height == height && vote.round < round)
    || (vote.height == height && vote.round == round
          && (if vote.kind.Prevote? then STEP_PREVOTE else STEP_PRECOMMIT) <= step)
  }

  /** Every block the node precommitted at this height is still locked, or a later quorum prevoted something else. */
  ghost predicate LockBacked(log: Log, v: Address, height: int, round: int, lockedRound: int,
                             lockedBlock: Option<Block>, vals: ValidatorSet)
  {
    forall i :: 0 <= i < |log| && VotedAt(log[i], v, height) && PrecommitsBlock(log[i]) ==>
      || (lockedBlock == Some(Block(log[i].blockID.hash)) && log[i].round <= lockedRound)
      || OtherPolka(log, height, log[i].round, round, log[i].blockID.hash, vals)
  }

  ghost predicate PolkaFor(log: Log, height: int, round: int, block: Block, vals: ValidatorSet)
  {
    exists b :: IsFor(b, block.hash) && HasQuorum(log, height, round, Prevote, b, vals)
  }

  /** The locked and the valid block have prevote quorums at their rounds, which are not in the future. */
  ghost predicate PolkasBehind(log: Log, height: int, round: int, lockedRound: int, lockedBlock: Option<Block>,
                               validRound: int, validBlock: Option<Block>, vals: ValidatorSet)
  {
    && lockedRound <= round && validRound <= round
    && (lockedBlock.Some? ==> PolkaFor(log, height, lockedRound, lockedBlock.value, vals))
    && (validBlock.Some? ==> PolkaFor(log, height, validRound, validBlock.value, vals))
  }

  /** Before the precommit of a round, the node's lock is from an earlier round. */
  predicate LockedEarlier(round: int, step: int, lockedRound: int, lockedBlock: Option<Block>)
  {
    lockedBlock.Some? && step < STEP_PRECOMMIT ==> lockedRound < round
  }

  predicate TimeoutsOld(timeouts: set<TimeoutInfo>, height: int, round: int)
  {
    forall ti :: ti in timeouts ==> ti.height < height || (ti.height == height && ti.round <= round)
  }

  ghost predicate DisciplinedSoFar(cfg: Config, log: Log, v: Address, chain: Chain)
  {
    forall k :: 0 <= k <= |chain| ==> Disciplined(log, v, cfg.initialHeight + k, cfg.validators(chain[..k]))
  }

  ghost predicate CommitFor(log: Log, height: int, block: Block, vals: ValidatorSet)
  {
    exists r, b :: IsFor(b, block.hash) && HasQuorum(log, height, r, Precommit, b, vals)
  }

  /** Every finalised block has a precommit quorum of the validators of its height. */
  ghost predicate ChainBacked(cfg: Config, log: Log, chain: Chain)
  {
    forall k :: 0 <= k < |chain| ==> CommitFor(log, cfg.initialHeight + k, chain[k], cfg.validators(chain[..k]))
  }

  ghost predicate SavedBacked(log: Log, height: int, saved: Option<Block>, vals: ValidatorSet)
  {
    saved.Some? ==> CommitFor(log, height, saved.value, vals)
  }

  ghost predicate InvLog(cfg: Config, n: Node, log: Log)
  {
    && Shape(cfg, n)
    && GoodHeightVotes(n.votes, n.height, n.validators, Seen(log))
    && Frontier(cfg.initialHeight, log, n.self, n.height, n.round, n.step)
    && LockBacked(log, n.self, n.height, n.round, n.lockedRound, n.lockedBlock, n.validators)
    && PolkasBehind(log, n.height, n.round, n.lockedRound, n.lockedBlock, n.validRound, n.validBlock, n.validators)
    && TimeoutsOld(n.timeouts, n.height, n.round)
    && DisciplinedSoFar(cfg, log, n.self, n.chain)
    && ChainBacked(cfg, log, n.chain)
    && SavedBacked(log, n.height, n.saved, n.validators)
  }

  ghost predicate Core(cfg: Config, n: Node, base: Log)
  {
    InvLog(cfg, n, base + n.outbox) && OwnVotes(n.outbox, n.self)
  }

  ghost predicate Inv(cfg: Config, n: Node, base: Log)
  {
    Core(cfg, n, base) && LockedEarlier(n.round, n.step, n.lockedRound, n.lockedBlock)
  }

  /** The fields the invariant speaks about are the same. */
  predicate SameCore(n: Node, n': Node)
  {
    && n'.self == n.self && n'.chain == n.chain && n'.saved == n.saved
    && n'.height == n.height && n'.round == n.round && n'.step == n.step && n'.validators == n.validators
    && n'.lockedRound == n.lockedRound && n'.lockedBlock == n.lockedBlock
    && n'.validRound == n.validRound && n'.validBlock == n.validBlock
    && n'.votes == n.votes && n'.timeouts == n.timeouts && n'.outbox == n.outbox
  }

  lemma FrameInv(cfg: Config, n: Node, n': Node, base: Log)
    requires SameCore(n, n')
    ensures Core(cfg, n, base) ==> Core(cfg, n', base)
    ensures Inv(cfg, n, base) ==> Inv(cfg, n', base)
  {
  }

  // ---- quorums seen by the node are quorums of the log ----

  lemma MajorityIsQuorum(hvs: HeightVoteSet, log: Log, height: int, round: int, kind: VoteType, vals: ValidatorSet)
    requires GoodHeightVotes(hvs, height, vals, Seen(log))
    requires TwoThirdsMajority(hvs, round, kind).Some?
    ensures HasQuorum(log, height, round, kind, TwoThirdsMajority(hvs, round, kind).value, vals)
  {
    var vs := GetVoteSet(hvs, round, kind).value;
    var b := vs.maj23.value;
    var s := vs.byBlock[b].voters;
    forall v | v in s ensures v in Voters(log, height, round, kind, b) {
      assert Vote(v, height, round, kind, b) in Seen(log);
      var i :| 0 <= i < |log| && log[i] == Vote(v, height, round, kind, b);
      assert Matches(log[i], height, round, kind, b);
    }
    PowerMonotone(vals, s, Voters(log, height, round, kind, b));
  }

  lemma NodeMajority(cfg: Config, n: Node, base: Log, round: int, kind: VoteType)
    requires Inv(cfg, n, base)
    requires TwoThirdsMajority(n.votes, round, kind).Some?
    ensures HasQuorum(base + n.outbox, n.height, round, kind,
                      TwoThirdsMajority(n.votes, round, kind).value, n.validators)
  {
    MajorityIsQuorum(n.votes, base + n.outbox, n.height, round, kind, n.validators);
  }

  // ---- moving forward without voting ----

  lemma LockBackedRaise(log: Log, v: Address, height: int, round: int, round': int, lockedRound: int,
                        lockedBlock: Option<Block>, vals: ValidatorSet)
    requires LockBacked(log, v, height, round, lockedRound, lockedBlock, vals) && round <= round'
    ensures LockBacked(log, v, height, round', lockedRound, lockedBlock, vals)
  {
    forall i | 0 <= i < |log| && VotedAt(log[i], v, height) && PrecommitsBlock(log[i])
      && OtherPolka(log, height, log[i].round, round, log[i].blockID.hash, vals)
      ensures OtherPolka(log, height, log[i].round, round', log[i].blockID.hash, vals)
    {
      OtherPolkaGrows(log, log, height, log[i].round, round, round', log[i].blockID.hash, vals);
    }
  }

  lemma RaiseStep(cfg: Config, n: Node, base: Log, round: int, step: int)
    requires Core(cfg, n, base)
    requires n.round < round || (n.round == round && n.step <= step)
    ensures Core(cfg, n.(round := round, step := step), base)
    ensures Inv(cfg, n, base) ==> Inv(cfg, n.(round := round, step := step), base)
  {
    var log := base + n.outbox;
    LockBackedRaise(log, n.self, n.height, n.round, round, n.lockedRound, n.lockedBlock, n.validators);
    assert Frontier(cfg.initialHeight, log, n.self, n.height, round, step);
  }

  // ---- voting ----

  /** Facts that survive any growth of the log. */
  lemma BackingGrows(cfg: Config, n: Node, log: Log, log': Log)
    requires InvLog(cfg, n, log) && Seen(log) <= Seen(log')
    ensures GoodHeightVotes(n.votes, n.height, n.validators, Seen(log'))
    ensures PolkasBehind(log', n.height, n.round, n.lockedRound, n.lockedBlock, n.validRound, n.validBlock,
        n.validators)
    ensures ChainBacked(cfg, log', n.chain)
    ensures SavedBacked(log', n.height, n.saved, n.validators)
  {
    if n.lockedBlock.Some? { PolkaForGrows(log, log', n.height, n.lockedRound, n.lockedBlock.value, n.validators); }
    if n.validBlock.Some? { PolkaForGrows(log, log', n.height, n.validRound, n.validBlock.value, n.validators); }
    if n.saved.Some? { CommitForGrows(log, log', n.height, n.saved.value, n.validators); }
    forall k | 0 <= k < |n.chain|
      ensures CommitFor(log', cfg.initialHeight + k, n.chain[k], cfg.validators(n.chain[..k]))
    {
      CommitForGrows(log, log', cfg.initialHeight + k, n.chain[k], cfg.validators(n.chain[..k]));
    }
  }

  lemma PolkaForGrows(log: Log, log': Log, height: int, round: int, block: Block, vals: ValidatorSet)
    requires PolkaFor(log, height, round, block, vals) && Seen(log) <= Seen(log')
    ensures PolkaFor(log', height, round, block, vals)
  {
    var b :| IsFor(b, block.hash) && HasQuorum(log, height, round, Prevote, b, vals);
    QuorumGrows(log, log', height, round, Prevote, b, vals);
  }

  lemma CommitForGrows(log: Log, log': Log, height: int, block: Block, vals: ValidatorSet)
    requires CommitFor(log, height, block, vals) && Seen(log) <= Seen(log')
    ensures CommitFor(log', height, block, vals)
  {
    var r, b :| IsFor(b, block.hash) && HasQuorum(log, height, r, Precommit, b, vals);
    QuorumGrows(log, log', height, r, Precommit, b, vals);
  }

  lemma LockBackedAppend(log: Log, vote: Vote, v: Address, height: int, round: int, lockedRound: int,
                         lockedBlock: Option<Block>, vals: ValidatorSet)
    requires LockBacked(log, v, height, round, lockedRound, lockedBlock, vals)
    requires VotedAt(vote, v, height) && PrecommitsBlock(vote) ==>
               lockedBlock == Some(Block(vote.blockID.hash)) && vote.round <= lockedRound
    ensures LockBacked(log + [vote], v, height, round, lockedRound, lockedBlock, vals)
  {
    var l := log + [vote];
    SeenAppend(log, [vote]);
    forall i | 0 <= i < |log| && VotedAt(log[i], v, height) && PrecommitsBlock(log[i])
      && OtherPolka(log, height, log[i].round, round, log[i].blockID.hash, vals)
      ensures OtherPolka(l, height, log[i].round, round, log[i].blockID.hash, vals)
    {
      OtherPolkaGrows(log, l, height, log[i].round, round, round, log[i].blockID.hash, vals);
    }
  }

  /** The node signs a vote of its current round and records the step that forbids a second one. */
  lemma SignStep(cfg: Config, n: Node, base: Log, kind: VoteType, blockID: BlockID)
    requires Core(cfg, n, base)
    requires n.step < VoteStep(kind)
    requires kind.Precommit? && blockID.BlockID? ==>
               && HasQuorum(base + n.outbox, n.height, n.round, Prevote, blockID, n.validators)
               && n.lockedBlock == Some(Block(blockID.hash)) && n.lockedRound == n.round
    requires kind.Prevote? && n.lockedBlock.Some? ==> IsFor(blockID, n.lockedBlock.value.hash)
    ensures Core(cfg, SignAddVote(n, kind, blockID).(step := VoteStep(kind)), base)
  {
    var log := base + n.outbox;
    var n' := SignAddVote(n, kind, blockID).(step := VoteStep(kind));
    if n.canSign && n.self in Addresses(n.validators) {
      var vote := Vote(n.self, n.height, n.round, kind, blockID);
      assert base + n'.outbox == log + [vote];
      SeenAppend(log, [vote]);
      BackingGrows(cfg, n, log, log + [vote]);
      LockBackedAppend(log, vote, n.self, n.height, n.round, n.lockedRound, n.lockedBlock, n.validators);
      OwnVoteDisciplined(cfg, log, vote, n.self, n.chain, n.height, n.step, n.lockedRound, n.lockedBlock, n.validators);
      assert Frontier(cfg.initialHeight, log + [vote], n.self, n.height, n.round, n'.step);
    } else {
      RaiseStep(cfg, n, base, n.round, VoteStep(kind));
    }
  }

  function VoteStep(kind: VoteType): int
  {
    if kind.Prevote? then STEP_PREVOTE else STEP_PRECOMMIT
  }

  /**
   The first vote of a round, cast as the lock demands, keeps the voter disciplined at every height up to this
   one.
   */
  lemma OwnVoteDisciplined(cfg: Config, log: Log, vote: Vote, v: Address, chain: Chain, height: int, step: int,
                           lockedRound: int, lockedBlock: Option<Block>, vals: ValidatorSet)
    requires DisciplinedSoFar(cfg, log, v, chain) && height == cfg.initialHeight + |chain|
    requires vals == cfg.validators(chain)
    requires Frontier(cfg.initialHeight, log, v, height, vote.round, step)
    requires LockBacked(log, v, height, vote.round, lockedRound, lockedBlock, vals)
    requires VotedAt(vote, v, height) && step < VoteStep(vote.kind)
    requires PrecommitsBlock(vote) ==> HasQuorum(log, height, vote.round, Prevote, vote.blockID, vals)
    requires vote.kind.Prevote? && lockedBlock.Some? ==> IsFor(vote.blockID, lockedBlock.value.hash)
    ensures DisciplinedSoFar(cfg, log + [vote], v, chain)
  {
    assert chain[..|chain|] == chain;
    assert Disciplined(log, v, cfg.initialHeight + |chain|, cfg.validators(chain[..|chain|]));
    CurrentVoteDisciplined(log, vote, v, cfg.initialHeight, height, step, lockedRound, lockedBlock, vals);
    OlderHeightsDisciplined(cfg, log, vote, v, chain, height);
  }

  lemma OlderHeightsDisciplined(cfg: Config, log: Log, vote: Vote, v: Address, chain: Chain, height: int)
    requires DisciplinedSoFar(cfg, log, v, chain) && height == cfg.initialHeight + |chain| && vote.height == height
    ensures forall k :: 0 <= k < |chain| ==>
              Disciplined(log + [vote], v, cfg.initialHeight + k, cfg.validators(chain[..k]))
  {
    hide Disciplined;
    forall k | 0 <= k < |chain|
      ensures Disciplined(log + [vote], v, cfg.initialHeight + k, cfg.validators(chain[..k]))
    {
      DisciplinedOther(log, vote, v, cfg.initialHeight + k, cfg.validators(chain[..k]));
    }
  }

  lemma CurrentVoteDisciplined(log: Log, vote: Vote, v: Address, low: int, height: int, step: int,
                               lockedRound: int, lockedBlock: Option<Block>, vals: ValidatorSet)
    requires Disciplined(log, v, height, vals)
    requires Frontier(low, log, v, height, vote.round, step)
    requires LockBacked(log, v, height, vote.round, lockedRound, lockedBlock, vals)
    requires VotedAt(vote, v, height) && step < VoteStep(vote.kind)
    requires PrecommitsBlock(vote) ==> HasQuorum(log, height, vote.round, Prevote, vote.blockID, vals)
    requires vote.kind.Prevote? && lockedBlock.Some? ==> IsFor(vote.blockID, lockedBlock.value.hash)
    ensures Disciplined(log + [vote], v, height, vals)
  {
    hide HasQuorum, OtherPolka;
    DisciplinedOwn(log, vote, v, height, vals);
  }

  lemma EnterPrevoteInv(cfg: Config, n: Node, base: Log, height: int, round: int)
    requires Inv(cfg, n, base) && round <= n.round
    ensures Inv(cfg, EnterPrevote(cfg, n, height, round), base)
    ensures EnterPrevote(cfg, n, height, round).round == n.round
    ensures EnterPrevote(cfg, n, height, round).height == n.height
  {
    hide HasQuorum, OtherPolka, Disciplined, GoodHeightVotes;
    if EnterPrevote(cfg, n, height, round) != n {
      var blockID :=
        if n.lockedBlock.Some? then BlockID(n.lockedBlock.value.hash, Header(n.lockedBlockParts))
        else if n.proposalBlock.None? || !cfg.valid(n.chain, n.proposalBlock.value) then NilBlock
        else BlockID(n.proposalBlock.value.hash, Header(n.proposalBlockParts));
      SignStep(cfg, n, base, Prevote, blockID);
    }
  }

  // ---- locks ----

  /**
   A prevote quorum seen in a round after every own precommit justifies locking its block, and dropping any other
   lock.
   */
  lemma LockAfterPolka(log: Log, v: Address, height: int, round: int, high: int, lockedRound: int,
                       lockedBlock: Option<Block>,
                       lockedRound': int, lockedBlock': Option<Block>, polka: BlockID, vals: ValidatorSet)
    requires LockBacked(log, v, height, high, lockedRound, lockedBlock, vals)
    requires round <= high && HasQuorum(log, height, round, Prevote, polka, vals)
    requires lockedBlock.Some? ==> lockedRound < round
    requires (&& polka.BlockID? && lockedBlock' == Some(Block(polka.hash)) && lockedRound' == round
              && forall i :: 0 <= i < |log| && VotedAt(log[i], v, height) && PrecommitsBlock(log[i]) ==>
                   log[i].round <= round)
             || !HashesTo(lockedBlock, polka)
    ensures LockBacked(log, v, height, high, lockedRound', lockedBlock', vals)
  {
    forall i | 0 <= i < |log| && VotedAt(log[i], v, height) && PrecommitsBlock(log[i])
      ensures || (lockedBlock' == Some(Block(log[i].blockID.hash)) && log[i].round <= lockedRound')
              || OtherPolka(log, height, log[i].round, high, log[i].blockID.hash, vals)
    {
      if lockedBlock == Some(Block(log[i].blockID.hash)) && log[i].round <= lockedRound
          && !IsFor(polka, log[i].blockID.hash) {
        assert OtherPolka(log, height, log[i].round, high, log[i].blockID.hash, vals);
      }
    }
  }

  lemma ChangeLock(cfg: Config, n: Node, base: Log, round: int, polka: BlockID, lockedRound': int,
                   lockedBlock': Option<Block>, parts: Option<PartSet>)
    requires Inv(cfg, n, base)
    requires round <= n.round && HasQuorum(base + n.outbox, n.height, round, Prevote, polka, n.validators)
    requires n.lockedBlock.Some? ==> n.lockedRound < round
    requires (lockedBlock'.None? && lockedRound' == -1 && !HashesTo(n.lockedBlock, polka))
             || (polka.BlockID? && lockedBlock' == Some(Block(polka.hash)) && lockedRound' == round == n.round)
    ensures Core(cfg, n.(lockedRound := lockedRound', lockedBlock := lockedBlock', lockedBlockParts := parts), base)
  {
    var log := base + n.outbox;
    LockAfterPolka(log, n.self, n.height, round, n.round, n.lockedRound, n.lockedBlock, lockedRound', lockedBlock',
        polka, n.validators);
    if lockedBlock'.Some? {
      assert IsFor(polka, lockedBlock'.value.hash);
      assert PolkaFor(log, n.height, round, lockedBlock'.value, n.validators);
    }
  }

  lemma EnterPrecommitFrame(cfg: Config, n: Node, height: int, round: int)
    requires n.halted || round <= n.round
    ensures n.halted ==> EnterPrecommit(cfg, n, height, round) == n
    ensures EnterPrecommit(cfg, n, height, round).round == n.round
    ensures EnterPrecommit(cfg, n, height, round).height == n.height
  {
  }

  lemma EnterPrecommitInv(cfg: Config, n: Node, base: Log, height: int, round: int)
    requires Inv(cfg, n, base) && round <= n.round
    ensures Inv(cfg, EnterPrecommit(cfg, n, height, round), base)
    ensures EnterPrecommit(cfg, n, height, round).round == n.round
    ensures EnterPrecommit(cfg, n, height, round).height == n.height
  {
    EnterPrecommitFrame(cfg, n, height, round);
    hide Inv, PrecommitPolka;
    if n.halted || n.height != height || round < n.round || STEP_PRECOMMIT <= n.step {
      return;
    }
    var polka := TwoThirdsMajority(n.votes, round, Prevote);
    if polka.None? {
      PrecommitNilInv(cfg, n, base);
    } else {
      NodeMajority(cfg, n, base, round, Prevote);
      PrecommitPolkaInv(cfg, n, base, round, polka.value);
    }
  }

  lemma PrecommitNilInv(cfg: Config, n: Node, base: Log)
    requires Inv(cfg, n, base) && n.step < STEP_PRECOMMIT
    ensures Inv(cfg, SignAddVote(n, Precommit, NilBlock).(step := STEP_PRECOMMIT), base)
  {
    SignStep(cfg, n, base, Precommit, NilBlock);
  }

  lemma PolkaKeepsRound(cfg: Config, n: Node, round: int, polka: BlockID)
    ensures PrecommitPolka(cfg, n, round, polka).round == n.round
  {
  }

  lemma PrecommitPolkaInv(cfg: Config, n: Node, base: Log, round: int, polka: BlockID)
    requires Inv(cfg, n, base) && round == n.round && n.step < STEP_PRECOMMIT
    requires HasQuorum(base + n.outbox, n.height, round, Prevote, polka, n.validators)
    ensures Inv(cfg, PrecommitPolka(cfg, n, round, polka).(round := round, step := STEP_PRECOMMIT), base)
  {
    PolkaKeepsRound(cfg, n, round, polka);
    hide Inv, HasQuorum, PrecommitPolka;
    PrecommitPolkaStep(cfg, n, base, round, polka);
  }

  lemma PrecommitPolkaStep(cfg: Config, n: Node, base: Log, round: int, polka: BlockID)
    requires Inv(cfg, n, base) && round == n.round && n.step < STEP_PRECOMMIT
    requires HasQuorum(base + n.outbox, n.height, round, Prevote, polka, n.validators)
    ensures Inv(cfg, PrecommitPolka(cfg, n, round, polka).(step := STEP_PRECOMMIT), base)
  {
    hide Inv, PolRound, HasQuorum, LockAndPrecommit, UnlockAndPrecommitNil, SignAddVote, Halt;
    if PolRound(n.votes, n.votes.round) < round {
      HaltedPrecommitInv(cfg, n, base);
    } else if polka.NilBlock? && n.lockedBlock.None? {
      PrecommitNilInv(cfg, n, base);
    } else if HashesTo(n.lockedBlock, polka) {
      LockAndPrecommitInv(cfg, n, base, polka, n.lockedBlock, n.lockedBlockParts);
    } else if HashesTo(n.proposalBlock, polka) {
      if !cfg.valid(n.chain, n.proposalBlock.value) {
        HaltedPrecommitInv(cfg, n, base);
      } else {
        LockAndPrecommitInv(cfg, n, base, polka, n.proposalBlock, n.proposalBlockParts);
      }
    } else {
      UnlockAndPrecommitNilInv(cfg, n, base, polka);
    }
  }

  lemma HaltedPrecommitInv(cfg: Config, n: Node, base: Log)
    requires Inv(cfg, n, base) && n.step < STEP_PRECOMMIT
    ensures Inv(cfg, Halt(n).(step := STEP_PRECOMMIT), base)
  {
    RaiseStep(cfg, n, base, n.round, STEP_PRECOMMIT);
    FrameInv(cfg, n.(step := STEP_PRECOMMIT), Halt(n).(step := STEP_PRECOMMIT), base);
  }

  lemma LockAndPrecommitInv(cfg: Config, n: Node, base: Log, polka: BlockID, block: Option<Block>,
                            parts: Option<PartSet>)
    requires Inv(cfg, n, base) && n.step < STEP_PRECOMMIT
    requires HasQuorum(base + n.outbox, n.height, n.round, Prevote, polka, n.validators)
    requires HashesTo(block, polka)
    ensures Inv(cfg, LockAndPrecommit(n, n.round, polka, block, parts).(step := STEP_PRECOMMIT), base)
  {
    ChangeLock(cfg, n, base, n.round, polka, n.round, block, parts);
    SignStep(cfg, n.(lockedRound := n.round, lockedBlock := block, lockedBlockParts := parts), base, Precommit, polka);
  }

  lemma UnlockAndPrecommitNilInv(cfg: Config, n: Node, base: Log, polka: BlockID)
    requires Inv(cfg, n, base) && n.step < STEP_PRECOMMIT
    requires HasQuorum(base + n.outbox, n.height, n.round, Prevote, polka, n.validators)
    requires !HashesTo(n.lockedBlock, polka)
    ensures Inv(cfg, UnlockAndPrecommitNil(n, polka).(step := STEP_PRECOMMIT), base)
  {
    ChangeLock(cfg, n, base, n.round, polka, -1, None, None);
    if polka.NilBlock? || HasHeader(n.proposalBlockParts, polka.parts) {
      SignStep(cfg, Unlock(n), base, Precommit, NilBlock);
    } else {
      var n1 := Unlock(n).(proposalBlock := None, proposalBlockParts := Some(PartSet(polka.parts, false)));
      FrameInv(cfg, Unlock(n), n1, base);
      SignStep(cfg, n1, base, Precommit, NilBlock);
    }
  }

  lemma ScheduleInv(cfg: Config, n: Node, base: Log, height: int, round: int, step: int)
    requires Inv(cfg, n, base) && height == n.height && round <= n.round
    ensures Inv(cfg, Schedule(n, height, round, step), base)
  {
  }

  lemma EnterProposeInv(cfg: Config, n: Node, base: Log, height: int, round: int)
    requires Inv(cfg, n, base) && round <= n.round
    ensures Inv(cfg, EnterPropose(cfg, n, height, round), base)
    ensures EnterPropose(cfg, n, height, round).round == n.round
    ensures EnterPropose(cfg, n, height, round).height == n.height
  {
    if n.halted || n.height != height || round < n.round || STEP_PROPOSE <= n.step {
      return;
    }
    var n1 := Schedule(n, height, round, STEP_PROPOSE);
    RaiseStep(cfg, n1, base, round, STEP_PROPOSE);
    var n2 := n1.(round := round, step := STEP_PROPOSE);
    if IsProposalComplete(n2) {
      EnterPrevoteInv(cfg, n2, base, height, n2.round);
    }
  }

  lemma NewVotesInv(cfg: Config, n: Node, base: Log, votes: HeightVoteSet, triggered: bool)
    requires Inv(cfg, n, base)
    requires GoodHeightVotes(votes, n.height, n.validators, Seen(base + n.outbox))
    ensures Inv(cfg, n.(votes := votes, triggeredTimeoutPrecommit := triggered), base)
  {
  }

  lemma NewRoundStepInv(cfg: Config, n: Node, base: Log, round: int)
    requires Inv(cfg, n, base)
    requires n.round < round || (n.round == round && n.step == STEP_NEW_HEIGHT)
    ensures Inv(cfg, n.(round := round, step := STEP_NEW_ROUND), base)
    ensures Inv(cfg,
        n.(round := round, step := STEP_NEW_ROUND,
           proposal := None, proposalBlock := None, proposalBlockParts := None),
        base)
  {
    RaiseStep(cfg, n, base, round, STEP_NEW_ROUND);
  }

  lemma EnterNewRoundInv(cfg: Config, n: Node, base: Log, height: int, round: int)
    requires Inv(cfg, n, base)
    ensures Inv(cfg, EnterNewRound(cfg, n, height, round), base)
    ensures var n' := EnterNewRound(cfg, n, height, round);
            n'.height == n.height && (n.height == height && !n.halted ==> round <= n'.round)
  {
    if n.halted || n.height != height || round < n.round || (n.round == round && n.step != STEP_NEW_HEIGHT) {
      return;
    }
    NewRoundStepInv(cfg, n, base, round);
    var n1 := n.(round := round, step := STEP_NEW_ROUND);
    if round == 0 {
      OpenRoundInv(cfg, n1, base);
    } else {
      OpenRoundInv(cfg, n1.(proposal := None, proposalBlock := None, proposalBlockParts := None), base);
    }
  }

  lemma OpenRoundInv(cfg: Config, n: Node, base: Log)
    requires Inv(cfg, n, base)
    ensures Inv(cfg, OpenRound(cfg, n, n.round), base)
    ensures OpenRound(cfg, n, n.round).height == n.height && OpenRound(cfg, n, n.round).round == n.round
  {
    hide Inv, EnterPropose, SetRound;
    if n.votes.round != 0 && n.round + 1 < n.votes.round - 1 {
      FrameInv(cfg, n, Halt(n), base);
    } else {
      var n1 := n.(votes := SetRound(n.votes, n.round + 1), triggeredTimeoutPrecommit := false);
      TrackRoundInv(cfg, n, base);
      if cfg.waitForTxs && n.round == 0 && !cfg.needProof(n.chain) {
        ScheduleInv(cfg, n1, base, n1.height, n1.round, STEP_NEW_ROUND);
      } else {
        EnterProposeInv(cfg, n1, base, n1.height, n1.round);
      }
    }
  }

  lemma TrackRoundInv(cfg: Config, n: Node, base: Log)
    requires Inv(cfg, n, base)
    ensures Inv(cfg, n.(votes := SetRound(n.votes, n.round + 1), triggeredTimeoutPrecommit := false), base)
  {
    SetRoundGood(n.votes, n.round + 1, n.height, n.validators, Seen(base + n.outbox));
    NewVotesInv(cfg, n, base, SetRound(n.votes, n.round + 1), false);
  }

  lemma EnterPrevoteWaitInv(cfg: Config, n: Node, base: Log, height: int, round: int)
    requires Inv(cfg, n, base) && round <= n.round
    ensures Inv(cfg, EnterPrevoteWait(n, height, round), base)
  {
    if EnterPrevoteWait(n, height, round) != n && TwoThirdsAny(n.votes, round, Prevote) {
      RaiseStep(cfg, Schedule(n, height, round, STEP_PREVOTE_WAIT), base, round, STEP_PREVOTE_WAIT);
    }
  }

  lemma EnterPrecommitWaitInv(cfg: Config, n: Node, base: Log, height: int, round: int)
    requires Inv(cfg, n, base) && (n.halted || n.height != height || round <= n.round)
    ensures Inv(cfg, EnterPrecommitWait(n, height, round), base)
  {
    if n.halted || n.height != height || round < n.round || (n.round == round && n.triggeredTimeoutPrecommit) {
    } else if !TwoThirdsAny(n.votes, round, Precommit) {
      FrameInv(cfg, n, Halt(n), base);
    } else {
      ScheduleInv(cfg, n, base, height, round, STEP_PRECOMMIT_WAIT);
      FrameInv(cfg, Schedule(n, height, round, STEP_PRECOMMIT_WAIT), EnterPrecommitWait(n, height, round), base);
    }
  }

  // ---- committing ----

  /** The chain grows by a block with a commit: its backing carries over, and the new height has no own votes yet. */
  lemma ChainExtends(cfg: Config, log: Log, v: Address, chain: Chain, block: Block)
    requires DisciplinedSoFar(cfg, log, v, chain) && ChainBacked(cfg, log, chain)
    requires CommitFor(log, cfg.initialHeight + |chain|, block, cfg.validators(chain))
    requires forall i :: 0 <= i < |log| ==> !VotedAt(log[i], v, cfg.initialHeight + |chain| + 1)
    ensures DisciplinedSoFar(cfg, log, v, chain + [block]) && ChainBacked(cfg, log, chain + [block])
  {
    NoVotesDisciplined(log, v, cfg.initialHeight + |chain| + 1, cfg.validators(chain + [block]));
    hide VotedAt, Disciplined, CommitFor, DisciplinedSoFar, ChainBacked;
    DisciplineExtends(cfg, log, v, chain, block);
    BackingExtends(cfg, log, chain, block);
  }

  lemma DisciplineExtends(cfg: Config, log: Log, v: Address, chain: Chain, block: Block)
    requires DisciplinedSoFar(cfg, log, v, chain)
    requires Disciplined(log, v, cfg.initialHeight + |chain| + 1, cfg.validators(chain + [block]))
    ensures DisciplinedSoFar(cfg, log, v, chain + [block])
  {
    hide Disciplined;
    var chain' := chain + [block];
    forall k | 0 <= k <= |chain'|
      ensures Disciplined(log, v, cfg.initialHeight + k, cfg.validators(chain'[..k]))
    {
      if k <= |chain| {
        assert chain'[..k] == chain[..k];
      } else {
        assert chain'[..k] == chain';
      }
    }
  }

  lemma BackingExtends(cfg: Config, log: Log, chain: Chain, block: Block)
    requires ChainBacked(cfg, log, chain) && CommitFor(log, cfg.initialHeight + |chain|, block, cfg.validators(chain))
    ensures ChainBacked(cfg, log, chain + [block])
  {
    hide CommitFor;
    var chain' := chain + [block];
    forall k | 0 <= k < |chain'|
      ensures CommitFor(log, cfg.initialHeight + k, chain'[k], cfg.validators(chain'[..k]))
    {
      if k < |chain| {
        assert chain'[..k] == chain[..k];
      } else {
        assert chain'[..k] == chain;
      }
    }
  }

  lemma NoVotesDisciplined(log: Log, v: Address, height: int, vals: ValidatorSet)
    requires forall i :: 0 <= i < |log| ==> !VotedAt(log[i], v, height)
    ensures Disciplined(log, v, height, vals)
  {
  }

  lemma UpdateToStateInv(cfg: Config, n: Node, base: Log, block: Block)
    requires Inv(cfg, n, base)
    requires CommitFor(base + n.outbox, n.height, block, n.validators)
    ensures Inv(cfg, UpdateToState(cfg, n, n.chain + [block]), base)
  {
    var log := base + n.outbox;
    var n' := UpdateToState(cfg, n, n.chain + [block]);
    assert n'.height == n.height + 1;
    NewHeightVotesGood(n'.height, n'.validators, Seen(log));
    assert Frontier(cfg.initialHeight, log, n.self, n'.height, n'.round, n'.step);
    assert forall i :: 0 <= i < |log| ==> !VotedAt(log[i], n.self, n'.height);
    ChainExtends(cfg, log, n.self, n.chain, block);
    hide Disciplined, CommitFor, GoodHeightVotes;
  }

  lemma CommitBacked(cfg: Config, n: Node, base: Log, maj: BlockID)
    requires Inv(cfg, n, base)
    requires TwoThirdsMajority(n.votes, n.commitRound, Precommit) == Some(maj) && HashesTo(n.proposalBlock, maj)
    ensures CommitFor(base + n.outbox, n.height, n.proposalBlock.value, n.validators)
    ensures Inv(cfg, n.(saved := n.proposalBlock), base)
  {
    MajorityIsQuorum(n.votes, base + n.outbox, n.height, n.commitRound, Precommit, n.validators);
    assert IsFor(maj, n.proposalBlock.value.hash);
    assert CommitFor(base + n.outbox, n.height, n.proposalBlock.value, n.validators);
  }

  lemma CommitBlockInv(cfg: Config, n: Node, base: Log, block: Block)
    requires Inv(cfg, n, base)
    requires CommitFor(base + n.outbox, n.height, block, n.validators)
    ensures Inv(cfg, CommitBlock(cfg, n, block), base)
  {
    if cfg.applies(n.chain, block) {
      var n1 := UpdateToState(cfg, n, n.chain + [block]);
      UpdateToStateInv(cfg, n, base, block);
      ScheduleInv(cfg, n1, base, n1.height, 0, STEP_NEW_HEIGHT);
    }
  }

  lemma FinalizeCommitInv(cfg: Config, n: Node, base: Log, height: int)
    requires Inv(cfg, n, base)
    ensures Inv(cfg, FinalizeCommit(cfg, n, height), base)
  {
    FrameInv(cfg, n, Halt(n), base);
    var maj := TwoThirdsMajority(n.votes, n.commitRound, Precommit);
    if maj.Some? && HashesTo(n.proposalBlock, maj.value) {
      CommitBacked(cfg, n, base, maj.value);
      CommitBlockInv(cfg, if n.saved.None? then n.(saved := n.proposalBlock) else n, base, n.proposalBlock.value);
    }
  }

  lemma TryFinalizeCommitInv(cfg: Config, n: Node, base: Log, height: int)
    requires Inv(cfg, n, base)
    ensures Inv(cfg, TryFinalizeCommit(cfg, n, height), base)
  {
    FinalizeCommitInv(cfg, n, base, height);
  }

  lemma EnterCommitInv(cfg: Config, n: Node, base: Log, height: int, commitRound: int)
    requires Inv(cfg, n, base)
    ensures Inv(cfg, EnterCommit(cfg, n, height, commitRound), base)
  {
    var maj := TwoThirdsMajority(n.votes, commitRound, Precommit);
    if n.halted || n.height != height || STEP_COMMIT <= n.step || maj.None? {
      return;
    }
    RaiseStep(cfg, n, base, n.round, STEP_COMMIT);
    var n3 := CommitProposal(n, maj.value).(step := STEP_COMMIT, commitRound := commitRound);
    FrameInv(cfg, n.(step := STEP_COMMIT), n3, base);
    TryFinalizeCommitInv(cfg, n3, base, height);
  }

  // ---- events ----

  /** The block of a prevote majority in the current round becomes the valid block. */
  lemma NewValidBlockInv(cfg: Config, n: Node, base: Log, polka: BlockID, block: Option<Block>, parts: Option<PartSet>)
    requires Inv(cfg, n, base) && HashesTo(block, polka)
    requires HasQuorum(base + n.outbox, n.height, n.round, Prevote, polka, n.validators)
    ensures Inv(cfg, n.(validRound := n.round, validBlock := block, validBlockParts := parts), base)
  {
    assert IsFor(polka, block.value.hash);
    assert PolkaFor(base + n.outbox, n.height, n.round, block.value, n.validators);
  }

  lemma UnlockOldInv(cfg: Config, n: Node, base: Log, round: int, polka: BlockID)
    requires Inv(cfg, n, base)
    requires HasQuorum(base + n.outbox, n.height, round, Prevote, polka, n.validators)
    ensures Inv(cfg, UnlockOld(n, round, polka), base)
  {
    if n.lockedBlock.Some? && n.lockedRound < round <= n.round && !HashesTo(n.lockedBlock, polka) {
      ChangeLock(cfg, n, base, round, polka, -1, None, None);
    }
  }

  lemma UpdateValidInv(cfg: Config, n: Node, base: Log, round: int, polka: BlockID)
    requires Inv(cfg, n, base)
    requires HasQuorum(base + n.outbox, n.height, round, Prevote, polka, n.validators)
    ensures Inv(cfg, UpdateValid(n, round, polka), base)
  {
    hide Inv;
    if polka.BlockID? && n.validRound < round && round == n.round {
      var n1 := n.(validRound := round, validBlock := n.proposalBlock, validBlockParts := n.proposalBlockParts);
      if HashesTo(n.proposalBlock, polka) {
        NewValidBlockInv(cfg, n, base, polka, n.proposalBlock, n.proposalBlockParts);
        FrameInv(cfg, n1, UpdateValid(n, round, polka), base);
      } else {
        FrameInv(cfg, n, UpdateValid(n, round, polka), base);
      }
    }
  }

  lemma SeePolkaInv(cfg: Config, n: Node, base: Log, round: int, polka: BlockID)
    requires Inv(cfg, n, base)
    requires HasQuorum(base + n.outbox, n.height, round, Prevote, polka, n.validators)
    ensures Inv(cfg, SeePolka(n, round, polka), base)
  {
    UnlockOldInv(cfg, n, base, round, polka);
    UpdateValidInv(cfg, UnlockOld(n, round, polka), base, round, polka);
  }

  lemma AfterPrevoteInv(cfg: Config, n: Node, base: Log, round: int)
    requires Inv(cfg, n, base)
    ensures Inv(cfg, AfterPrevote(cfg, n, round), base)
  {
    hide Inv, EnterNewRound, EnterPrecommit, EnterPrevote, EnterPrevoteWait, SeePolka;
    var polka := TwoThirdsMajority(n.votes, round, Prevote);
    var n1 := if polka.Some? then SeePolka(n, round, polka.value) else n;
    if polka.Some? {
      NodeMajority(cfg, n, base, round, Prevote);
      SeePolkaInv(cfg, n, base, round, polka.value);
    }
    EnterNewRoundInv(cfg, n1, base, n1.height, round);
    if n1.round == round {
      EnterPrecommitInv(cfg, n1, base, n1.height, round);
      EnterPrevoteWaitInv(cfg, n1, base, n1.height, round);
    }
    EnterPrevoteInv(cfg, n1, base, n1.height, n1.round);
  }

  lemma AfterPrecommitInv(cfg: Config, n: Node, base: Log, round: int)
    requires Inv(cfg, n, base) && !n.halted
    ensures Inv(cfg, AfterPrecommit(cfg, n, round), base)
  {
    hide Inv, EnterNewRound, EnterPrecommit, EnterCommit, EnterPrecommitWait;
    var h := n.height;
    var n1 := EnterNewRound(cfg, n, h, round);
    EnterNewRoundInv(cfg, n, base, h, round);
    EnterPrecommitWaitInv(cfg, n1, base, h, round);
    var n2 := EnterPrecommit(cfg, n1, h, round);
    EnterPrecommitFrame(cfg, n1, h, round);
    EnterPrecommitInv(cfg, n1, base, h, round);
    EnterPrecommitWaitInv(cfg, n2, base, h, round);
    var n3 := EnterCommit(cfg, n2, h, round);
    EnterCommitInv(cfg, n2, base, h, round);
    EnterNewRoundInv(cfg, n3, base, n3.height, 0);
  }

  lemma AddVoteMsgInv(cfg: Config, n: Node, base: Log, vote: Vote, peer: Peer, sigOk: bool)
    requires Inv(cfg, n, base) && !n.halted
    requires sigOk ==> vote in Seen(base)
    ensures Inv(cfg, AddVoteMsg(cfg, n, vote, peer, sigOk), base)
  {
    var log := base + n.outbox;
    SeenAppend(base, n.outbox);
    if vote.height + 1 == n.height && vote.kind.Precommit? {
      if n.lastCommit.Some? {
        var r := AddVote(n.lastCommit.value, vote, sigOk);
        EnterNewRoundInv(cfg, n.(lastCommit := Some(r.votes)), base, n.height, 0);
      }
    } else if vote.height == n.height {
      AddHeightVoteGood(n.votes, vote, peer, sigOk, n.height, n.validators, Seen(log));
      var n1 := n.(votes := AddHeightVote(n.votes, vote, peer, sigOk).votes);
      AfterPrevoteInv(cfg, n1, base, vote.round);
      AfterPrecommitInv(cfg, n1, base, vote.round);
    }
  }

  lemma AfterProposalBlockInv(cfg: Config, n: Node, base: Log, hasTwoThirds: bool)
    requires Inv(cfg, n, base)
    ensures Inv(cfg, AfterProposalBlock(cfg, n, hasTwoThirds), base)
  {
    if n.step <= STEP_PROPOSE && IsProposalComplete(n) {
      var n1 := EnterPrevote(cfg, n, n.height, n.round);
      EnterPrevoteInv(cfg, n, base, n.height, n.round);
      EnterPrecommitInv(cfg, n1, base, n.height, n1.round);
    } else {
      TryFinalizeCommitInv(cfg, n, base, n.height);
    }
  }

  lemma CompleteProposalBlockInv(cfg: Config, n: Node, base: Log, block: Block)
    requires Inv(cfg, n, base)
    ensures Inv(cfg, CompleteProposalBlock(cfg, n, block), base)
  {
    var n1 := n.(proposalBlock := Some(block));
    FrameInv(cfg, n, n1, base);
    var polka := TwoThirdsMajority(n1.votes, n1.round, Prevote);
    if polka.Some? && polka.value.BlockID? && n1.validRound < n1.round && HashesTo(n1.proposalBlock, polka.value) {
      NodeMajority(cfg, n, base, n.round, Prevote);
      NewValidBlockInv(cfg, n1, base, polka.value, n1.proposalBlock, n1.proposalBlockParts);
      AfterProposalBlockInv(cfg,
          n1.(validRound := n1.round, validBlock := n1.proposalBlock, validBlockParts := n1.proposalBlockParts),
          base, true);
    } else {
      AfterProposalBlockInv(cfg, n1, base, polka.Some?);
    }
  }

  lemma AddProposalBlockPartInv(cfg: Config, n: Node, base: Log, height: int, outcome: PartOutcome)
    requires Inv(cfg, n, base)
    ensures Inv(cfg, AddProposalBlockPart(cfg, n, height, outcome), base)
  {
    if outcome.PartsComplete? && n.proposalBlockParts.Some? {
      CompleteProposalBlockInv(cfg,
          n.(proposalBlockParts := Some(n.proposalBlockParts.value.(complete := true))), base, outcome.block);
    }
  }

  lemma HandleTxsAvailableInv(cfg: Config, n: Node, base: Log)
    requires Inv(cfg, n, base)
    ensures Inv(cfg, HandleTxsAvailable(cfg, n), base)
  {
    assert 0 <= n.round;
    hide Inv, EnterPropose;
    ScheduleInv(cfg, n, base, n.height, 0, STEP_NEW_ROUND);
    EnterProposeInv(cfg, n, base, n.height, 0);
  }

  lemma SetProposalInv(cfg: Config, n: Node, base: Log, p: Proposal, sigOk: bool)
    requires Inv(cfg, n, base)
    ensures Inv(cfg, SetProposal(n, p, sigOk), base)
  {
    SetProposalFrame(n, p, sigOk);
    FrameInv(cfg, n, SetProposal(n, p, sigOk), base);
  }

  lemma SetProposalFrame(n: Node, p: Proposal, sigOk: bool)
    ensures SameCore(n, SetProposal(n, p, sigOk))
  {
  }

  /**
   A pending timeout is for the round the node is in or an earlier one, so it never makes the node vote for a
   round it has not entered.
   */
  lemma HandleTimeoutInv(cfg: Config, n: Node, base: Log, ti: TimeoutInfo)
    requires Inv(cfg, n, base) && ti in n.timeouts
    ensures Inv(cfg, HandleTimeout(cfg, n, ti), base)
  {
    assert ti.height == n.height ==> ti.round <= n.round;
    assert 0 <= n.round;
    FrameInv(cfg, n, Halt(n), base);
    hide Inv, EnterNewRound, EnterPropose, EnterPrevote, EnterPrecommit;
    if ti.height != n.height || ti.round < n.round || (ti.round == n.round && ti.step < n.step) {
      return;
    }
    EnterNewRoundInv(cfg, n, base, ti.height, 0);
    EnterProposeInv(cfg, n, base, ti.height, 0);
    EnterPrevoteInv(cfg, n, base, ti.height, ti.round);
    var n1 := EnterPrecommit(cfg, n, ti.height, ti.round);
    EnterPrecommitInv(cfg, n, base, ti.height, ti.round);
    EnterNewRoundInv(cfg, n1, base, ti.height, ti.round + 1);
  }

  /** Events the network can deliver: signed votes were signed by somebody, timeouts were scheduled. */
  predicate Deliverable(n: Node, known: set<Vote>, event: Event)
  {
    && (event.VoteMsg? && event.voteSigOk ==> event.vote in known)
    && (event.Timeout? ==> event.info in n.timeouts)
  }

  lemma HandleEventInv(cfg: Config, n: Node, base: Log, event: Event)
    requires Inv(cfg, n, base) && !n.halted && Deliverable(n, Seen(base), event)
    ensures Inv(cfg, HandleEvent(cfg, n, event), base)
  {
    match event
    case TxsAvailable => HandleTxsAvailableInv(cfg, n, base);
    case ProposalMsg(p, sigOk) => SetProposalInv(cfg, n, base, p, sigOk);
    case BlockPartMsg(height, outcome) => AddProposalBlockPartInv(cfg, n, base, height, outcome);
    case VoteMsg(vote, peer, sigOk) => AddVoteMsgInv(cfg, n, base, vote, peer, sigOk);
    case PeerMaj23Msg(round, kind, peer, b) =>
      SetHeightPeerMaj23Good(n.votes, round, kind, peer, b, n.height, n.validators, Seen(base + n.outbox));
      NewVotesInv(cfg, n, base, SetHeightPeerMaj23(n.votes, round, kind, peer, b), n.triggeredTimeoutPrecommit);
    case Timeout(ti) => HandleTimeoutInv(cfg, n, base, ti);
  }
}
