/**
 What one event does to a node's lock, round and votes, whether or not the node signs.

 A lock is kept, raised, or given up to a prevote majority for something else in a later round that the
 node has entered; every vote signed is for a step the node takes during the event. The lemmas follow
 the transition functions; `Network` turns them into facts about runs.
 */
module LockHistory {
  import opened Wrappers
  import opened Quorum
  import opened VoteSets
  import opened Consensus
  import opened NodeInvariant
  import opened Progress

  // ---- majorities of the votes kept ----

  lemma SetRoundMajority(hvs: HeightVoteSet, round: int)
    ensures forall r, k :: TwoThirdsMajority(SetRound(hvs, round), r, k) == TwoThirdsMajority(hvs, r, k)
    ensures SetRound(hvs, round).round == round
  {
  }

  lemma SetPeerMajority(hvs: HeightVoteSet, round: int, kind: VoteType, peer: Peer, b: BlockID)
    ensures var hvs' := SetHeightPeerMaj23(hvs, round, kind, peer, b);
            hvs'.round == hvs.round && forall r, k :: TwoThirdsMajority(hvs', r, k) == TwoThirdsMajority(hvs, r, k)
  {
  }

  lemma AddVoteMajority(vs: VoteSet, vote: Vote, sigOk: bool)
    ensures vs.maj23.Some? || !AddVote(vs, vote, sigOk).added ==> AddVote(vs, vote, sigOk).votes.maj23 == vs.maj23
  {
  }

  /** A vote can only bring a majority to its own round and type, and only by being added. */
  lemma AddHeightVoteMajority(hvs: HeightVoteSet, vote: Vote, peer: Peer, sigOk: bool)
    ensures var r := AddHeightVote(hvs, vote, peer, sigOk);
            && r.votes.round == hvs.round
            && MajoritiesKept(hvs, r.votes)
            && (forall round, k :: round != vote.round || k != vote.kind ==>
                  TwoThirdsMajority(r.votes, round, k) == TwoThirdsMajority(hvs, round, k))
            && (!r.added ==>
                  TwoThirdsMajority(r.votes, vote.round, vote.kind) == TwoThirdsMajority(hvs, vote.round, vote.kind))
  {
    var rounds := if peer in hvs.catchup then hvs.catchup[peer] else [];
    if vote.round in hvs.sets || |rounds| < 2 {
      var hvs1 := OpenCatchupRound(hvs, vote.round, peer, rounds);
      assert forall round, k :: TwoThirdsMajority(hvs1, round, k) == TwoThirdsMajority(hvs, round, k);
      var vs := GetVoteSet(hvs1, vote.round, vote.kind).value;
      AddVoteMajority(vs, vote, sigOk);
      hide AddVote;
      var hvs2 := PutVoteSet(hvs1, vote.round, vote.kind, AddVote(vs, vote, sigOk).votes);
      assert forall round, k :: round != vote.round || k != vote.kind ==>
        TwoThirdsMajority(hvs2, round, k) == TwoThirdsMajority(hvs1, round, k);
    }
  }

  // ---- where a node stands ----

  /** A lock is not from the future, and before the precommit of a round it is from an earlier one. */
  predicate LockPlaced(n: Node)
  {
    n.lockedBlock.Some? ==> n.lockedRound <= n.round && (n.step < STEP_PRECOMMIT ==> n.lockedRound < n.round)
  }

  /** Before the precommit of a round, a proposal block with a majority of the round's prevotes is the valid block. */
  predicate ValidSeen(n: Node)
  {
    var polka := TwoThirdsMajority(n.votes, n.round, Prevote);
    n.step < STEP_PRECOMMIT && polka.Some? && HashesTo(n.proposalBlock, polka.value) ==> n.round <= n.validRound
  }

  predicate Tracked(cfg: Config, n: Node)
  {
    && WellPlaced(cfg, n)
    && 0 <= n.round && n.votes.round <= n.round + 1
    && -1 <= n.validRound && (n.lockedBlock.None? ==> n.lockedRound == -1)
    && LockPlaced(n)
  }

  /** Rounds, lock, valid block and tracked votes of a node fit together. */
  predicate Placed(cfg: Config, n: Node)
  {
    Tracked(cfg, n) && n.round <= n.votes.round && ValidSeen(n)
  }

  // ---- what an event may do ----

  /** The lock is still there, in its round or a later one. */
  predicate Still(n: Node, n': Node)
  {
    n'.lockedBlock == n.lockedBlock && n.lockedRound <= n'.lockedRound
  }

  predicate Releases(n: Node, n': Node, round: int)
  {
    && n.lockedRound < round <= n'.round
    && var polka := TwoThirdsMajority(n'.votes, round, Prevote);
       polka.Some? && !HashesTo(n.lockedBlock, polka.value)
  }

  /** A later round, which the node has entered, has a prevote majority for something else. */
  ghost predicate Released(n: Node, n': Node)
  {
    exists round :: Releases(n, n', round)
  }

  /** The vote is for a step that the node had not reached in `n` and has reached in `n'`. */
  predicate InStep(n: Node, vote: Vote, n': Node)
  {
    && vote.validator == n.self
    && !BehindStep(vote, n.height, n.round, n.step)
    && BehindStep(vote, n'.height, n'.round, n'.step)
  }

  ghost predicate Signed(n: Node, n': Node)
  {
    && n'.self == n.self && n.outbox <= n'.outbox
    && forall i :: |n.outbox| <= i < |n'.outbox| ==> InStep(n, n'.outbox[i], n')
  }

  predicate Onward(n: Node, n': Node)
  {
    CompareHRS(n.height, n.round, n.step, n'.height, n'.round, n'.step) <= 0
  }

  ghost predicate LockKept(n: Node, n': Node)
  {
    n.height == n'.height ==>
      MajoritiesKept(n.votes, n'.votes) && (n.lockedBlock.Some? ==> Still(n, n') || Released(n, n'))
  }

  ghost predicate Moves(n: Node, n': Node)
  {
    Onward(n, n') && LockKept(n, n') && Signed(n, n')
  }

  lemma LockKeptTrans(a: Node, b: Node, c: Node)
    requires Onward(a, b) && Onward(b, c) && LockKept(a, b) && LockKept(b, c)
    ensures LockKept(a, c)
  {
    if a.height == c.height && a.lockedBlock.Some? && !Still(a, c) {
      if Released(a, b) {
        var round :| Releases(a, b, round);
        assert Releases(a, c, round);
      } else {
        var round :| Releases(b, c, round);
        assert Releases(a, c, round);
      }
    }
  }

  lemma SignedTrans(a: Node, b: Node, c: Node)
    requires Onward(a, b) && Onward(b, c) && Signed(a, b) && Signed(b, c)
    ensures Signed(a, c)
  {
    forall i | |a.outbox| <= i < |c.outbox| ensures InStep(a, c.outbox[i], c) {
      if i < |b.outbox| {
        assert c.outbox[i] == b.outbox[i] && InStep(a, b.outbox[i], b);
      } else {
        assert InStep(b, c.outbox[i], c);
      }
    }
  }

  lemma MovesTrans(a: Node, b: Node, c: Node)
    requires Moves(a, b) && Moves(b, c)
    ensures Moves(a, c)
  {
    LockKeptTrans(a, b, c);
    SignedTrans(a, b, c);
  }

  /** Nothing changes that the relation speaks about, but for a later round or step. */
  lemma MovesQuietly(n: Node, n': Node)
    requires n'.self == n.self && n'.outbox == n.outbox && Onward(n, n')
    requires n.height == n'.height ==>
               n'.lockedRound == n.lockedRound && n'.lockedBlock == n.lockedBlock && MajoritiesKept(n.votes, n'.votes)
    ensures Moves(n, n')
  {
  }

  // ---- the transitions ----

  lemma SignMoves(n: Node, kind: VoteType, blockID: BlockID)
    requires n.step < VoteStep(kind)
    ensures Moves(n, SignAddVote(n, kind, blockID).(step := VoteStep(kind)))
  {
    var n' := SignAddVote(n, kind, blockID).(step := VoteStep(kind));
    assert MajoritiesKept(n.votes, n'.votes);
  }

  lemma EnterPrevotePlaced(cfg: Config, n: Node, height: int, round: int)
    requires Placed(cfg, n) && round <= n.round
    ensures Placed(cfg, EnterPrevote(cfg, n, height, round)) && Moves(n, EnterPrevote(cfg, n, height, round))
  {
    MovesQuietly(n, n);
    if n.halted || n.height != height || round < n.round || STEP_PREVOTE <= n.step {
      return;
    }
    var b :=
      if n.lockedBlock.Some? then BlockID(n.lockedBlock.value.hash, Header(n.lockedBlockParts))
      else if n.proposalBlock.None? || !cfg.valid(n.chain, n.proposalBlock.value) then NilBlock
      else BlockID(n.proposalBlock.value.hash, Header(n.proposalBlockParts));
    assert EnterPrevote(cfg, n, height, round) == SignAddVote(n, Prevote, b).(step := STEP_PREVOTE);
    SignMoves(n, Prevote, b);
  }

  lemma EnterProposePlaced(cfg: Config, n: Node, height: int, round: int)
    requires Placed(cfg, n) && round <= n.round
    ensures Placed(cfg, EnterPropose(cfg, n, height, round)) && Moves(n, EnterPropose(cfg, n, height, round))
  {
    hide EnterPrevote, Moves;
    MovesQuietly(n, n);
    if n.halted || n.height != height || round < n.round || STEP_PROPOSE <= n.step {
      return;
    }
    var n2 := Schedule(n, height, round, STEP_PROPOSE).(round := round, step := STEP_PROPOSE);
    MovesQuietly(n, n2);
    if IsProposalComplete(n2) {
      EnterPrevotePlaced(cfg, n2, height, n2.round);
      MovesTrans(n, n2, EnterPrevote(cfg, n2, height, n2.round));
    }
  }

  /** The round has been entered; its votes are tracked from here on. */
  lemma OpenRoundPlaced(cfg: Config, n: Node, round: int)
    requires Tracked(cfg, n) && ValidSeen(n) && n.round == round && n.step < STEP_PREVOTE
    ensures Placed(cfg, OpenRound(cfg, n, round)) && Moves(n, OpenRound(cfg, n, round))
  {
    hide EnterPropose, SetRound, Moves;
    SetRoundMajority(n.votes, round + 1);
    var n1 := n.(votes := SetRound(n.votes, round + 1), triggeredTimeoutPrecommit := false);
    MovesQuietly(n, n1);
    MovesQuietly(n, Schedule(n1, n.height, round, STEP_NEW_ROUND));
    EnterProposePlaced(cfg, n1, n.height, round);
    MovesTrans(n, n1, EnterPropose(cfg, n1, n.height, round));
  }

  lemma EnterNewRoundPlaced(cfg: Config, n: Node, height: int, round: int)
    requires Placed(cfg, n)
    ensures Placed(cfg, EnterNewRound(cfg, n, height, round)) && Moves(n, EnterNewRound(cfg, n, height, round))
  {
    hide OpenRound, Moves;
    MovesQuietly(n, n);
    if n.halted || n.height != height || round < n.round || (n.round == round && n.step != STEP_NEW_HEIGHT) {
      return;
    }
    var n1 := n.(round := round, step := STEP_NEW_ROUND);
    var n2 := if round == 0 then n1 else n1.(proposal := None, proposalBlock := None, proposalBlockParts := None);
    MovesQuietly(n, n2);
    OpenRoundPlaced(cfg, n2, round);
    MovesTrans(n, n2, OpenRound(cfg, n2, round));
  }

  lemma EnterPrevoteWaitPlaced(cfg: Config, n: Node, height: int, round: int)
    requires Placed(cfg, n) && round <= n.round
    ensures Placed(cfg, EnterPrevoteWait(n, height, round)) && Moves(n, EnterPrevoteWait(n, height, round))
  {
    hide Moves;
    MovesQuietly(n, EnterPrevoteWait(n, height, round));
  }

  lemma EnterPrecommitWaitPlaced(cfg: Config, n: Node, height: int, round: int)
    requires Placed(cfg, n)
    ensures Placed(cfg, EnterPrecommitWait(n, height, round)) && Moves(n, EnterPrecommitWait(n, height, round))
  {
    hide Moves;
    MovesQuietly(n, EnterPrecommitWait(n, height, round));
  }

  /** Everything but the lock and what is known of the proposed block. */
  predicate OnlyLock(n: Node, n': Node)
  {
    && n'.self == n.self && n'.canSign == n.canSign && n'.chain == n.chain && n'.height == n.height
    && n'.round == n.round && n'.step == n.step && n'.validators == n.validators && n'.validRound == n.validRound
    && n'.votes == n.votes && n'.outbox == n.outbox
  }

  /** The lock after the precommit of a round whose prevotes have the majority `polka`. */
  function Relocked(cfg: Config, n: Node, polka: BlockID): Node
  {
    if HashesTo(n.lockedBlock, polka) then n.(lockedRound := n.round)
    else if HashesTo(n.proposalBlock, polka) then
      n.(lockedRound := n.round, lockedBlock := n.proposalBlock, lockedBlockParts := n.proposalBlockParts)
    else if polka.NilBlock? || HasHeader(n.proposalBlockParts, polka.parts) then Unlock(n)
    else Unlock(n).(proposalBlock := None, proposalBlockParts := Some(PartSet(polka.parts, false)))
  }

  lemma RelockedMoves(cfg: Config, n: Node, polka: BlockID)
    requires Tracked(cfg, n) && n.step < STEP_PRECOMMIT && TwoThirdsMajority(n.votes, n.round, Prevote) == Some(polka)
    ensures var n' := Relocked(cfg, n, polka);
            OnlyLock(n, n') && Moves(n, n') && (n'.lockedBlock.None? ==> n'.lockedRound == -1)
                && n'.lockedRound <= n.round
  {
    var n' := Relocked(cfg, n, polka);
    RelockedIs(cfg, n, polka);
    hide Relocked, TwoThirdsMajority;
    assert MajoritiesKept(n.votes, n'.votes);
    if n.lockedBlock.Some? && !HashesTo(n.lockedBlock, polka) {
      assert Releases(n, n', n.round);
    }
  }

  lemma RelockedIs(cfg: Config, n: Node, polka: BlockID)
    ensures var n' := Relocked(cfg, n, polka);
            && OnlyLock(n, n')
            && (HashesTo(n.lockedBlock, polka) ==> n'.lockedBlock == n.lockedBlock && n'.lockedRound == n.round)
            && (n'.lockedBlock.None? ==> n'.lockedRound == -1)
            && (n'.lockedRound == n.round || n'.lockedRound == -1)
  {
  }

  /** A precommit either halts, or signs after the lock was moved. */
  lemma PolkaRelocks(cfg: Config, n: Node, polka: BlockID)
    requires n.lockedBlock.None? ==> n.lockedRound == -1
    ensures var n' := PrecommitPolka(cfg, n, n.round, polka);
            || n' == Halt(n)
            || (polka.NilBlock? && n.lockedBlock.None? && n' == SignAddVote(n, Precommit, NilBlock))
            || exists b :: n' == SignAddVote(Relocked(cfg, n, polka), Precommit, b)
  {
    hide PolRound, SignAddVote;
    var n1 := Relocked(cfg, n, polka);
    assert n1 == n1.(lockedBlockParts := n1.lockedBlockParts);
    var n' := PrecommitPolka(cfg, n, n.round, polka);
    if n' != Halt(n) && !(polka.NilBlock? && n.lockedBlock.None?) {
      var b := if HashesTo(n.lockedBlock, polka) || HashesTo(n.proposalBlock, polka) then polka else NilBlock;
      assert n' == SignAddVote(n1, Precommit, b);
    }
  }

  lemma PrecommitPolkaMoves(cfg: Config, n: Node, polka: BlockID)
    requires Tracked(cfg, n) && n.step < STEP_PRECOMMIT && TwoThirdsMajority(n.votes, n.round, Prevote) == Some(polka)
    ensures var n' := PrecommitPolka(cfg, n, n.round, polka).(step := STEP_PRECOMMIT);
            Tracked(cfg, n') && Moves(n, n') && n'.votes == n.votes && n'.round == n.round
  {
    PolkaRelocks(cfg, n, polka);
    hide PrecommitPolka, Moves;
    var n0 := PrecommitPolka(cfg, n, n.round, polka);
    if n0 == Halt(n) {
      MovesQuietly(n, n0.(step := STEP_PRECOMMIT));
    } else if n0 == SignAddVote(n, Precommit, NilBlock) {
      SignMoves(n, Precommit, NilBlock);
    } else {
      RelockedMoves(cfg, n, polka);
      hide Relocked;
      var n1 := Relocked(cfg, n, polka);
      var b :| n0 == SignAddVote(n1, Precommit, b);
      SignMoves(n1, Precommit, b);
      MovesTrans(n, n1, n0.(step := STEP_PRECOMMIT));
    }
  }

  lemma EnterPrecommitPlaced(cfg: Config, n: Node, height: int, round: int)
    requires Placed(cfg, n) && round <= n.round
    ensures Placed(cfg, EnterPrecommit(cfg, n, height, round)) && Moves(n, EnterPrecommit(cfg, n, height, round))
  {
    hide PrecommitPolka, Moves;
    MovesQuietly(n, n);
    if n.halted || n.height != height || round < n.round || STEP_PRECOMMIT <= n.step {
      return;
    }
    var polka := TwoThirdsMajority(n.votes, round, Prevote);
    if polka.None? {
      SignMoves(n, Precommit, NilBlock);
    } else {
      PrecommitPolkaMoves(cfg, n, polka.value);
    }
  }

  lemma CommitBlockPlaced(cfg: Config, n: Node, block: Block)
    requires Placed(cfg, n)
    ensures Placed(cfg, CommitBlock(cfg, n, block)) && Moves(n, CommitBlock(cfg, n, block))
  {
    hide Moves;
    MovesQuietly(n, CommitBlock(cfg, n, block));
  }

  lemma TryFinalizeCommitPlaced(cfg: Config, n: Node, height: int)
    requires Placed(cfg, n)
    ensures Placed(cfg, TryFinalizeCommit(cfg, n, height)) && Moves(n, TryFinalizeCommit(cfg, n, height))
  {
    hide CommitBlock, Moves;
    MovesQuietly(n, n);
    MovesQuietly(n, Halt(n));
    if n.proposalBlock.Some? {
      var n1 := if n.saved.None? then n.(saved := n.proposalBlock) else n;
      MovesQuietly(n, n1);
      CommitBlockPlaced(cfg, n1, n.proposalBlock.value);
      MovesTrans(n, n1, CommitBlock(cfg, n1, n.proposalBlock.value));
    }
  }

  lemma EnterCommitPlaced(cfg: Config, n: Node, height: int, commitRound: int)
    requires Placed(cfg, n)
    ensures Placed(cfg, EnterCommit(cfg, n, height, commitRound)) && Moves(n, EnterCommit(cfg, n, height, commitRound))
  {
    hide TryFinalizeCommit, Moves;
    MovesQuietly(n, n);
    MovesQuietly(n, Halt(n));
    var maj := TwoThirdsMajority(n.votes, commitRound, Precommit);
    if n.halted || n.height != height || STEP_COMMIT <= n.step || maj.None? {
      return;
    }
    var n3 := CommitProposal(n, maj.value).(step := STEP_COMMIT, commitRound := commitRound);
    MovesQuietly(n, n3);
    TryFinalizeCommitPlaced(cfg, n3, height);
    MovesTrans(n, n3, TryFinalizeCommit(cfg, n3, height));
  }

  lemma UnlockOldMoves(cfg: Config, n: Node, round: int)
    requires Tracked(cfg, n) && TwoThirdsMajority(n.votes, round, Prevote).Some?
    ensures var n' := UnlockOld(n, round, TwoThirdsMajority(n.votes, round, Prevote).value);
            && Tracked(cfg, n') && OnlyLock(n, n') && n'.proposalBlock == n.proposalBlock && Moves(n, n')
  {
    var n' := UnlockOld(n, round, TwoThirdsMajority(n.votes, round, Prevote).value);
    assert MajoritiesKept(n.votes, n'.votes);
    if n.lockedBlock.Some? && n' != n {
      assert Releases(n, n', round);
    }
  }

  lemma UpdateValidPlaced(cfg: Config, n: Node, round: int)
    requires Tracked(cfg, n) && n.round <= n.votes.round && (round == n.round || ValidSeen(n))
    requires TwoThirdsMajority(n.votes, round, Prevote).Some?
    ensures var n' := UpdateValid(n, round, TwoThirdsMajority(n.votes, round, Prevote).value);
            && Placed(cfg, n') && Moves(n, n')
            && n'.votes == n.votes && n'.height == n.height && n'.round == n.round && n'.step == n.step
  {
    hide Moves, TwoThirdsMajority, HasHeader;
    MovesQuietly(n, UpdateValid(n, round, TwoThirdsMajority(n.votes, round, Prevote).value));
  }

  /** After a majority of prevotes was seen, the valid block is in step with it. */
  lemma SeePolkaPlaced(cfg: Config, n: Node, round: int)
    requires Tracked(cfg, n) && n.round <= n.votes.round && (round == n.round || ValidSeen(n))
    requires TwoThirdsMajority(n.votes, round, Prevote).Some?
    ensures var n' := SeePolka(n, round, TwoThirdsMajority(n.votes, round, Prevote).value);
            && Placed(cfg, n') && Moves(n, n')
            && n'.votes == n.votes && n'.height == n.height && n'.round == n.round && n'.step == n.step
  {
    var polka := TwoThirdsMajority(n.votes, round, Prevote).value;
    hide UnlockOld, UpdateValid, Moves, Tracked, TwoThirdsMajority;
    var n1 := UnlockOld(n, round, polka);
    UnlockOldMoves(cfg, n, round);
    UpdateValidPlaced(cfg, n1, round);
    MovesTrans(n, n1, UpdateValid(n1, round, polka));
  }

  lemma AfterPrevotePlaced(cfg: Config, n: Node, round: int)
    requires Tracked(cfg, n) && n.round <= n.votes.round && (round == n.round || ValidSeen(n))
    ensures Placed(cfg, AfterPrevote(cfg, n, round)) && Moves(n, AfterPrevote(cfg, n, round))
  {
    hide SeePolka, EnterNewRound, EnterPrecommit, EnterPrevote, EnterPrevoteWait, Moves;
    var polka := TwoThirdsMajority(n.votes, round, Prevote);
    var n1 := if polka.Some? then SeePolka(n, round, polka.value) else n;
    if polka.Some? {
      SeePolkaPlaced(cfg, n, round);
    } else {
      MovesQuietly(n, n);
    }
    assert Placed(cfg, n1);
    hide Placed;
    EnterNewRoundPlaced(cfg, n1, n1.height, round);
    MovesTrans(n, n1, EnterNewRound(cfg, n1, n1.height, round));
    if round == n1.round {
      EnterPrecommitPlaced(cfg, n1, n1.height, round);
      MovesTrans(n, n1, EnterPrecommit(cfg, n1, n1.height, round));
      EnterPrevoteWaitPlaced(cfg, n1, n1.height, round);
      MovesTrans(n, n1, EnterPrevoteWait(n1, n1.height, round));
    }
    EnterPrevotePlaced(cfg, n1, n1.height, n1.round);
    MovesTrans(n, n1, EnterPrevote(cfg, n1, n1.height, n1.round));
  }

  /** Entering a round under `Placed` does not halt, and leaves the node in that round unless it is past it. */
  lemma EnterNewRoundReaches(cfg: Config, n: Node, round: int)
    requires Placed(cfg, n) && !n.halted
    ensures var n' := EnterNewRound(cfg, n, n.height, round);
            && !n'.halted && n'.height == n.height && n'.chain == n.chain
                 && n'.round == (if n.round < round then round else n.round)
            && (n.round < round || n.step < STEP_PRECOMMIT ==> n'.step < STEP_PRECOMMIT)
            && (n.round >= round && n.step != STEP_NEW_HEIGHT ==> n' == n)
  {
    hide SetRound;
  }

  /** Entering a round and precommitting it. */
  lemma EnterAndPrecommitPlaced(cfg: Config, n: Node, round: int)
    requires Placed(cfg, n)
    ensures var n1 := EnterNewRound(cfg, n, n.height, round);
            var n2 := EnterPrecommit(cfg, n1, n.height, round);
            Placed(cfg, n1) && Moves(n, n1) && Placed(cfg, n2) && Moves(n, n2)
  {
    var n1 := EnterNewRound(cfg, n, n.height, round);
    EnterNewRoundPlaced(cfg, n, n.height, round);
    if n.halted {
      assert n1 == n;
      EnterPrecommitHalted(cfg, n, n.height, round);
    } else {
      EnterNewRoundReaches(cfg, n, round);
      hide EnterNewRound, EnterPrecommit, Placed, Moves;
      EnterPrecommitPlaced(cfg, n1, n.height, round);
      MovesTrans(n, n1, EnterPrecommit(cfg, n1, n.height, round));
    }
  }

  lemma AfterPrecommitPlaced(cfg: Config, n: Node, round: int)
    requires Placed(cfg, n)
    ensures Placed(cfg, AfterPrecommit(cfg, n, round)) && Moves(n, AfterPrecommit(cfg, n, round))
  {
    hide EnterNewRound, EnterPrecommit, EnterCommit, EnterPrecommitWait, Moves, Placed;
    MovesQuietly(n, n);
    var h := n.height;
    var n1 := EnterNewRound(cfg, n, h, round);
    var n2 := EnterPrecommit(cfg, n1, h, round);
    EnterAndPrecommitPlaced(cfg, n, round);
    EnterPrecommitWaitPlaced(cfg, n1, h, round);
    MovesTrans(n, n1, EnterPrecommitWait(n1, h, round));
    EnterPrecommitWaitPlaced(cfg, n2, h, round);
    MovesTrans(n, n2, EnterPrecommitWait(n2, h, round));
    var n3 := EnterCommit(cfg, n2, h, round);
    EnterCommitPlaced(cfg, n2, h, round);
    MovesTrans(n, n2, n3);
    EnterNewRoundPlaced(cfg, n3, n3.height, 0);
    MovesTrans(n, n3, EnterNewRound(cfg, n3, n3.height, 0));
  }

  lemma EnterPrecommitHalted(cfg: Config, n: Node, height: int, round: int)
    requires n.halted
    ensures EnterPrecommit(cfg, n, height, round) == n
  {
  }

  lemma AddVoteMsgPlaced(cfg: Config, n: Node, vote: Vote, peer: Peer, sigOk: bool)
    requires Placed(cfg, n)
    ensures Placed(cfg, AddVoteMsg(cfg, n, vote, peer, sigOk)) && Moves(n, AddVoteMsg(cfg, n, vote, peer, sigOk))
  {
    hide EnterNewRound, AfterPrevote, AfterPrecommit, AddHeightVote, AddVote, Moves;
    MovesQuietly(n, n);
    if vote.height + 1 == n.height && vote.kind.Precommit? {
      MovesQuietly(n, Halt(n));
      if n.lastCommit.Some? {
        var n1 := n.(lastCommit := Some(AddVote(n.lastCommit.value, vote, sigOk).votes));
        MovesQuietly(n, n1);
        EnterNewRoundPlaced(cfg, n1, n1.height, 0);
        MovesTrans(n, n1, EnterNewRound(cfg, n1, n1.height, 0));
      }
    } else if vote.height == n.height {
      AddHeightVoteMajority(n.votes, vote, peer, sigOk);
      var r := AddHeightVote(n.votes, vote, peer, sigOk);
      var n1 := n.(votes := r.votes);
      MovesQuietly(n, n1);
      if r.added && vote.kind.Prevote? {
        AfterPrevotePlaced(cfg, n1, vote.round);
        MovesTrans(n, n1, AfterPrevote(cfg, n1, vote.round));
      } else if r.added {
        AfterPrecommitPlaced(cfg, n1, vote.round);
        MovesTrans(n, n1, AfterPrecommit(cfg, n1, vote.round));
      }
    }
  }

  lemma ValidBlockSeen(cfg: Config, n: Node, block: Block)
    requires Placed(cfg, n)
    ensures var n1 := n.(proposalBlock := Some(block));
            var polka := TwoThirdsMajority(n1.votes, n1.round, Prevote);
            var n2 :=
              if polka.Some? && polka.value.BlockID? && n1.validRound < n1.round
                  && HashesTo(n1.proposalBlock, polka.value)
              then n1.(validRound := n1.round, validBlock := n1.proposalBlock, validBlockParts := n1.proposalBlockParts)
              else n1;
            Placed(cfg, n2) && Moves(n, n2)
  {
    hide Moves;
    var n1 := n.(proposalBlock := Some(block));
    MovesQuietly(n, n1);
    MovesQuietly(n,
        n1.(validRound := n1.round, validBlock := n1.proposalBlock, validBlockParts := n1.proposalBlockParts));
  }

  lemma CompleteProposalBlockPlaced(cfg: Config, n: Node, block: Block)
    requires Placed(cfg, n)
    ensures Placed(cfg, CompleteProposalBlock(cfg, n, block)) && Moves(n, CompleteProposalBlock(cfg, n, block))
  {
    var n1 := n.(proposalBlock := Some(block));
    var polka := TwoThirdsMajority(n1.votes, n1.round, Prevote);
    var n2 :=
      if polka.Some? && polka.value.BlockID? && n1.validRound < n1.round && HashesTo(n1.proposalBlock, polka.value) then
        n1.(validRound := n1.round, validBlock := n1.proposalBlock, validBlockParts := n1.proposalBlockParts)
      else n1;
    hide EnterPrevote, EnterPrecommit, TryFinalizeCommit, Moves, Placed;
    ValidBlockSeen(cfg, n, block);
    var n3 := EnterPrevote(cfg, n2, n2.height, n2.round);
    EnterPrevotePlaced(cfg, n2, n2.height, n2.round);
    MovesTrans(n, n2, n3);
    EnterPrecommitPlaced(cfg, n3, n2.height, n3.round);
    MovesTrans(n, n3, EnterPrecommit(cfg, n3, n2.height, n3.round));
    TryFinalizeCommitPlaced(cfg, n2, n2.height);
    MovesTrans(n, n2, TryFinalizeCommit(cfg, n2, n2.height));
  }

  /** A timeout fires late: for the node's round or an earlier one. */
  predicate Timely(n: Node, event: Event)
  {
    event.Timeout? && event.info.height == n.height ==> event.info.round <= n.round
  }

  lemma HaltPlaced(cfg: Config, n: Node)
    requires Placed(cfg, n)
    ensures Moves(n, n) && Moves(n, Halt(n)) && Placed(cfg, Halt(n)) && 0 <= n.round
  {
    MovesQuietly(n, n);
    MovesQuietly(n, Halt(n));
  }

  lemma HandleTimeoutPlaced(cfg: Config, n: Node, ti: TimeoutInfo)
    requires Placed(cfg, n) && Timely(n, Timeout(ti))
    ensures Placed(cfg, HandleTimeout(cfg, n, ti)) && Moves(n, HandleTimeout(cfg, n, ti))
  {
    hide EnterNewRound, EnterPropose, EnterPrevote, EnterPrecommit, Moves, Placed;
    HaltPlaced(cfg, n);
    if ti.height != n.height || ti.round < n.round || (ti.round == n.round && ti.step < n.step) {
      return;
    }
    EnterNewRoundPlaced(cfg, n, ti.height, 0);
    EnterProposePlaced(cfg, n, ti.height, 0);
    EnterPrevotePlaced(cfg, n, ti.height, ti.round);
    var n1 := EnterPrecommit(cfg, n, ti.height, ti.round);
    EnterPrecommitPlaced(cfg, n, ti.height, ti.round);
    EnterNewRoundPlaced(cfg, n1, ti.height, ti.round + 1);
    MovesTrans(n, n1, EnterNewRound(cfg, n1, ti.height, ti.round + 1));
  }

  lemma SetProposalPlaced(cfg: Config, n: Node, p: Proposal, sigOk: bool)
    requires Placed(cfg, n)
    ensures Placed(cfg, SetProposal(n, p, sigOk)) && Moves(n, SetProposal(n, p, sigOk))
  {
    hide Moves;
    MovesQuietly(n, SetProposal(n, p, sigOk));
  }

  /** Every event keeps or releases the lock, and every vote signed during it is for a step taken during it. */
  lemma HandleEventMoves(cfg: Config, n: Node, event: Event)
    requires Placed(cfg, n) && Timely(n, event)
    ensures Placed(cfg, HandleEvent(cfg, n, event)) && Moves(n, HandleEvent(cfg, n, event))
  {
    MovesQuietly(n, n);
    hide EnterPropose, CompleteProposalBlock, AddVoteMsg, HandleTimeout, SetHeightPeerMaj23, SetProposal, Moves;
    match event
    case TxsAvailable =>
      MovesQuietly(n, Schedule(n, n.height, 0, STEP_NEW_ROUND));
      EnterProposePlaced(cfg, n, n.height, 0);
    case ProposalMsg(p, sigOk) => SetProposalPlaced(cfg, n, p, sigOk);
    case BlockPartMsg(height, outcome) =>
      if n.proposalBlockParts.Some? {
        var n1 := n.(proposalBlockParts := Some(n.proposalBlockParts.value.(complete := true)));
        MovesQuietly(n, n1);
        if outcome.PartsComplete? {
          CompleteProposalBlockPlaced(cfg, n1, outcome.block);
          MovesTrans(n, n1, CompleteProposalBlock(cfg, n1, outcome.block));
        }
      }
    case VoteMsg(vote, peer, sigOk) => AddVoteMsgPlaced(cfg, n, vote, peer, sigOk);
    case PeerMaj23Msg(round, kind, peer, b) =>
      SetPeerMajority(n.votes, round, kind, peer, b);
      MovesQuietly(n, n.(votes := SetHeightPeerMaj23(n.votes, round, kind, peer, b)));
    case Timeout(ti) => HandleTimeoutPlaced(cfg, n, ti);
  }

  lemma InitNodePlaced(cfg: Config, v: Address)
    ensures Placed(cfg, InitNode(cfg, v))
  {
  }
}
