/**
 Why the votes of the protocol cannot decide two blocks at one height.

 The log lists every vote ever signed, in signing order. A validator is disciplined at a height when
 it votes at most once per round and type, precommits a block only after a prevote quorum for it, and
 prevotes against a block it precommitted only after a later prevote quorum for something else. These
 are facts about the log alone; Network.dfy shows that every node keeps them.
 */
module Discipline {
  import opened Quorum
  import opened VoteSets

  type Log = seq<Vote>

  predicate Matches(vote: Vote, height: int, round: int, kind: VoteType, blockID: BlockID)
  {
    vote.height == height && vote.round == round && vote.kind == kind && vote.blockID == blockID
  }

  ghost function Seen(log: Log): set<Vote>
  {
    set i | 0 <= i < |log| :: log[i]
  }

  ghost function Voters(log: Log, height: int, round: int, kind: VoteType, blockID: BlockID): set<Address>
  {
    set i | 0 <= i < |log| && Matches(log[i], height, round, kind, blockID) :: log[i].validator
  }

  ghost predicate HasQuorum(log: Log, height: int, round: int, kind: VoteType, blockID: BlockID, vals: ValidatorSet)
  {
    IsQuorum(vals, Voters(log, height, round, kind, blockID))
  }

  predicate IsFor(blockID: BlockID, hash: Hash)
  {
    blockID.BlockID? && blockID.hash == hash
  }

  /** A prevote quorum for something other than `hash`, in a round after `low` and up to `high`. */
  ghost predicate OtherPolka(log: Log, height: int, low: int, high: int, hash: Hash, vals: ValidatorSet)
  {
    exists r, b :: low < r <= high && !IsFor(b, hash) && HasQuorum(log, height, r, Prevote, b, vals)
  }

  predicate VotedAt(vote: Vote, v: Address, height: int)
  {
    vote.validator == v && vote.height == height
  }

  predicate PrecommitsBlock(vote: Vote)
  {
    vote.kind.Precommit? && vote.blockID.BlockID?
  }

  /** At most one vote per round and type. */
  ghost predicate VotesOnce(log: Log, v: Address, height: int)
  {
    forall i, j :: 0 <= i < j < |log| && VotedAt(log[i], v, height) && VotedAt(log[j], v, height) ==>
      log[i].round != log[j].round || log[i].kind != log[j].kind
  }

  /** A block is precommitted only once its prevotes in that round form a quorum. */
  ghost predicate PrecommitsPolkas(log: Log, v: Address, height: int, vals: ValidatorSet)
  {
    forall i :: 0 <= i < |log| && VotedAt(log[i], v, height) && PrecommitsBlock(log[i]) ==>
      HasQuorum(log[..i], height, log[i].round, Prevote, log[i].blockID, vals)
  }

  /**
   Prevoting against a precommitted block needs an earlier signed prevote quorum for something else, from a later
   round than the precommit.
   */
  ghost predicate KeepsLocks(log: Log, v: Address, height: int, vals: ValidatorSet)
  {
    forall i, j ::
      (&& 0 <= i < |log| && 0 <= j < |log| && VotedAt(log[i], v, height) && VotedAt(log[j], v, height)
       && PrecommitsBlock(log[i]) && log[j].kind.Prevote?
       && log[i].round < log[j].round && !IsFor(log[j].blockID, log[i].blockID.hash)) ==>
        OtherPolka(log[..j], height, log[i].round, log[j].round, log[i].blockID.hash, vals)
  }

  ghost predicate Disciplined(log: Log, v: Address, height: int, vals: ValidatorSet)
  {
    && VotesOnce(log, v, height)
    && PrecommitsPolkas(log, v, height, vals)
    && KeepsLocks(log, v, height, vals)
  }

  // ---- growth of the log ----

  lemma QuorumGrows(log: Log, log': Log, height: int, round: int, kind: VoteType, b: BlockID, vals: ValidatorSet)
    requires HasQuorum(log, height, round, kind, b, vals)
    requires Seen(log) <= Seen(log')
    ensures HasQuorum(log', height, round, kind, b, vals)
  {
    var s := Voters(log, height, round, kind, b);
    var s' := Voters(log', height, round, kind, b);
    forall v | v in s ensures v in s' {
      var i :| 0 <= i < |log| && Matches(log[i], height, round, kind, b) && log[i].validator == v;
      assert log[i] in Seen(log');
    }
    PowerMonotone(vals, s, s');
  }

  lemma OtherPolkaGrows(log: Log, log': Log, height: int, low: int, high: int, high': int, hash: Hash,
                        vals: ValidatorSet)
    requires OtherPolka(log, height, low, high, hash, vals)
    requires Seen(log) <= Seen(log') && high <= high'
    ensures OtherPolka(log', height, low, high', hash, vals)
  {
    var r, b :| low < r <= high && !IsFor(b, hash) && HasQuorum(log, height, r, Prevote, b, vals);
    QuorumGrows(log, log', height, r, Prevote, b, vals);
  }

  lemma SeenAppend(log: Log, more: Log)
    ensures Seen(log + more) == Seen(log) + Seen(more)
    ensures Seen(log) <= Seen(log + more)
  {
    var l := log + more;
    forall v | v in Seen(log) ensures v in Seen(l) {
      var i :| 0 <= i < |log| && log[i] == v;
      assert l[i] == v;
    }
    forall v | v in Seen(more) ensures v in Seen(l) {
      var i :| 0 <= i < |more| && more[i] == v;
      assert l[|log| + i] == v;
    }
    forall v | v in Seen(l) ensures v in Seen(log) + Seen(more) {
      var i :| 0 <= i < |l| && l[i] == v;
      assert if i < |log| then v == log[i] else v == more[i - |log|];
    }
  }

  /** A vote of somebody else, or at another height, keeps discipline. */
  lemma DisciplinedOther(log: Log, vote: Vote, v: Address, height: int, vals: ValidatorSet)
    requires Disciplined(log, v, height, vals)
    requires !VotedAt(vote, v, height)
    ensures Disciplined(log + [vote], v, height, vals)
  {
    var l := log + [vote];
    assert forall i :: 0 <= i < |log| ==> l[i] == log[i] && l[..i] == log[..i];
  }

  /** The first vote of a round and type, with its justification, keeps discipline. */
  lemma DisciplinedOwn(log: Log, vote: Vote, v: Address, height: int, vals: ValidatorSet)
    requires Disciplined(log, v, height, vals)
    requires VotedAt(vote, v, height)
    requires forall i :: 0 <= i < |log| && VotedAt(log[i], v, height) ==>
               log[i].round < vote.round || (log[i].round == vote.round && log[i].kind != vote.kind)
    requires PrecommitsBlock(vote) ==>
               HasQuorum(log, height, vote.round, Prevote, vote.blockID, vals)
    requires vote.kind.Prevote? ==>
               forall i ::
                 (0 <= i < |log| && VotedAt(log[i], v, height)
                  && PrecommitsBlock(log[i]) && !IsFor(vote.blockID, log[i].blockID.hash)) ==>
                   OtherPolka(log, height, log[i].round, vote.round, log[i].blockID.hash, vals)
    ensures Disciplined(log + [vote], v, height, vals)
  {
    var l := log + [vote];
    assert forall i :: 0 <= i < |log| ==> l[i] == log[i] && l[..i] == log[..i];
    assert l[..|log|] == log;
  }

  // ---- the argument ----

  ghost predicate AllDisciplined(log: Log, correct: set<Address>, height: int, vals: ValidatorSet)
  {
    forall v :: v in correct ==> Disciplined(log, v, height, vals)
  }

  lemma VoterIndex(log: Log, height: int, round: int, kind: VoteType, b: BlockID, v: Address) returns (i: nat)
    requires v in Voters(log, height, round, kind, b)
    ensures i < |log| && log[i].validator == v && Matches(log[i], height, round, kind, b)
  {
    i :| 0 <= i < |log| && Matches(log[i], height, round, kind, b) && log[i].validator == v;
  }

  /**
   Once a quorum precommits `hash` in a round, no prefix of the log holds a later prevote quorum for
   anything else. The induction is on the signing order: a correct validator that belongs to both
   quorums could only have prevoted against `hash` after such a quorum had already been signed.
   */
  lemma {:induction false} NoOtherPolka(log: Log, k: nat, correct: set<Address>, height: int, vals: ValidatorSet,
                                        round: int, b: BlockID, r: int, c: BlockID)
    requires k <= |log|
    requires FaultyMinority(vals, correct) && AllDisciplined(log, correct, height, vals)
    requires b.BlockID? && HasQuorum(log, height, round, Precommit, b, vals)
    requires round < r && !IsFor(c, b.hash)
    ensures !HasQuorum(log[..k], height, r, Prevote, c, vals)
    decreases k
  {
    if HasQuorum(log[..k], height, r, Prevote, c, vals) {
      var v := QuorumIntersection(vals, correct, Voters(log, height, round, Precommit, b),
          Voters(log[..k], height, r, Prevote, c));
      var i := VoterIndex(log, height, round, Precommit, b, v);
      var j := VoterIndex(log[..k], height, r, Prevote, c, v);
      assert log[..k][j] == log[j];
      assert Disciplined(log, v, height, vals);
      assert VotedAt(log[i], v, height) && VotedAt(log[j], v, height);
      assert OtherPolka(log[..j], height, round, r, b.hash, vals);
      var r', c' :| round < r' <= r && !IsFor(c', b.hash) && HasQuorum(log[..j], height, r', Prevote, c', vals);
      NoOtherPolka(log, j, correct, height, vals, round, b, r', c');
    }
  }

  /** Two precommit quorums at one height are for the same block, whatever their rounds. */
  lemma PrecommitQuorumsAgree(log: Log, correct: set<Address>, height: int, vals: ValidatorSet,
                              r1: int, b1: BlockID, r2: int, b2: BlockID)
    requires FaultyMinority(vals, correct) && AllDisciplined(log, correct, height, vals)
    requires b1.BlockID? && HasQuorum(log, height, r1, Precommit, b1, vals)
    requires b2.BlockID? && HasQuorum(log, height, r2, Precommit, b2, vals)
    ensures b1.hash == b2.hash
  {
    if r1 == r2 {
      var v := QuorumIntersection(vals, correct, Voters(log, height, r1, Precommit, b1),
          Voters(log, height, r2, Precommit, b2));
      var i := VoterIndex(log, height, r1, Precommit, b1, v);
      var j := VoterIndex(log, height, r2, Precommit, b2, v);
      assert Disciplined(log, v, height, vals);
      assert VotedAt(log[i], v, height) && VotedAt(log[j], v, height);
      assert i == j;
    } else if r1 < r2 {
      LaterQuorumAgrees(log, correct, height, vals, r1, b1, r2, b2);
    } else {
      LaterQuorumAgrees(log, correct, height, vals, r2, b2, r1, b1);
    }
  }

  lemma LaterQuorumAgrees(log: Log, correct: set<Address>, height: int, vals: ValidatorSet,
                          r1: int, b1: BlockID, r2: int, b2: BlockID)
    requires FaultyMinority(vals, correct) && AllDisciplined(log, correct, height, vals)
    requires b1.BlockID? && HasQuorum(log, height, r1, Precommit, b1, vals)
    requires b2.BlockID? && HasQuorum(log, height, r2, Precommit, b2, vals)
    requires r1 < r2
    ensures b1.hash == b2.hash
  {
    if b1.hash != b2.hash {
      var s := Voters(log, height, r2, Precommit, b2);
      var v := QuorumIntersection(vals, correct, s, s);
      var i := VoterIndex(log, height, r2, Precommit, b2, v);
      assert Disciplined(log, v, height, vals);
      assert VotedAt(log[i], v, height);
      NoOtherPolka(log, i, correct, height, vals, r1, b1, r2, b2);
      assert false;
    }
  }
}
