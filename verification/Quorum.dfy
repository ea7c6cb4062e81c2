/**
 Voting power and weighted quorums.

 A validator set is an ordered list of validators. Power is summed over the list, so the power of
 a set of addresses is defined by recursion on the list and every fact about it is an induction on
 the list. A quorum is a set of addresses with more than two thirds of the total power.
 */
module Quorum {
  type Address = nat

  datatype Validator = Validator(address: Address, power: nat)

  type ValidatorSet = seq<Validator>

  function Addresses(vals: ValidatorSet): (s: set<Address>)
  {
    set i | 0 <= i < |vals| :: vals[i].address
  }

  /** Sum of the powers of the listed validators whose address is in `s`. */
  function PowerOf(vals: ValidatorSet, s: set<Address>): nat
  {
    if vals == [] then 0
    else (if vals[0].address in s then vals[0].power else 0) + PowerOf(vals[1..], s)
  }

  function TotalPower(vals: ValidatorSet): nat
  {
    if vals == [] then 0 else vals[0].power + TotalPower(vals[1..])
  }

  /** The smallest tally that is a two-thirds majority. */
  function QuorumSize(vals: ValidatorSet): nat
  {
    TotalPower(vals) * 2 / 3 + 1
  }

  ghost predicate IsQuorum(vals: ValidatorSet, s: set<Address>)
  {
    3 * PowerOf(vals, s) > 2 * TotalPower(vals)
  }

  /** Every validator outside `correct` is faulty, and they hold less than a third of the power. */
  ghost predicate FaultyMinority(vals: ValidatorSet, correct: set<Address>)
  {
    3 * PowerOf(vals, Addresses(vals) - correct) < TotalPower(vals)
  }

  lemma {:induction false} PowerInclusionExclusion(vals: ValidatorSet, a: set<Address>, b: set<Address>)
    ensures PowerOf(vals, a) + PowerOf(vals, b) == PowerOf(vals, a + b) + PowerOf(vals, a * b)
  {
    if vals != [] {
      PowerInclusionExclusion(vals[1..], a, b);
    }
  }

  lemma {:induction false} PowerMonotone(vals: ValidatorSet, a: set<Address>, b: set<Address>)
    requires forall i :: 0 <= i < |vals| && vals[i].address in a ==> vals[i].address in b
    ensures PowerOf(vals, a) <= PowerOf(vals, b)
  {
    if vals != [] {
      assert forall i :: 0 <= i < |vals[1..]| ==> vals[1..][i] == vals[i + 1];
      PowerMonotone(vals[1..], a, b);
    }
  }

  lemma {:induction false} PowerBound(vals: ValidatorSet, a: set<Address>)
    ensures PowerOf(vals, a) <= TotalPower(vals)
  {
    if vals != [] {
      PowerBound(vals[1..], a);
    }
  }

  lemma {:induction false} PowerOfEmpty(vals: ValidatorSet)
    ensures PowerOf(vals, {}) == 0
  {
    if vals != [] {
      PowerOfEmpty(vals[1..]);
    }
  }

  /** Power adds up over the list, one validator at a time, and all of it is the total. */
  lemma {:induction false} PowerOfList(vals: ValidatorSet, more: ValidatorSet, s: set<Address>, v: Validator)
    ensures PowerOf([v], s) == if v.address in s then v.power else 0
    ensures PowerOf(vals + more, s) == PowerOf(vals, s) + PowerOf(more, s)
    ensures TotalPower(vals) == PowerOf(vals, Addresses(vals) + s)
  {
    assert [v][1..] == [];
    if vals == [] {
      assert vals + more == more;
    } else {
      assert (vals + more)[1..] == vals[1..] + more;
      PowerOfList(vals[1..], more, s, v);
      assert forall i :: 0 <= i < |vals[1..]| ==> vals[1..][i] == vals[i + 1];
      PowerOfOthers(vals[1..], Addresses(vals[1..]) + s, Addresses(vals) + s);
    }
  }

  lemma PowerOfOthers(vals: ValidatorSet, a: set<Address>, b: set<Address>)
    requires forall i :: 0 <= i < |vals| ==> (vals[i].address in a <==> vals[i].address in b)
    ensures PowerOf(vals, a) == PowerOf(vals, b)
  {
    PowerMonotone(vals, a, b);
    PowerMonotone(vals, b, a);
  }

  lemma PowerAdd(vals: ValidatorSet, a: set<Address>, v: Address)
    requires v !in a
    ensures PowerOf(vals, a + {v}) == PowerOf(vals, a) + PowerOf(vals, {v})
  {
    PowerInclusionExclusion(vals, a, {v});
    assert a * {v} == {};
    PowerOfEmpty(vals);
  }

  /** The tally threshold used in the code is exactly "more than two thirds". */
  lemma QuorumSizeIsTwoThirds(vals: ValidatorSet, tally: nat)
    ensures tally >= QuorumSize(vals) <==> 3 * tally > 2 * TotalPower(vals)
    ensures tally > TotalPower(vals) * 2 / 3 <==> 3 * tally > 2 * TotalPower(vals)
  {
  }

  /** A set holding more power than the faulty validators contains a correct validator. */
  lemma CorrectMember(vals: ValidatorSet, correct: set<Address>, s: set<Address>) returns (v: Address)
    requires PowerOf(vals, s) > PowerOf(vals, Addresses(vals) - correct)
    ensures v in s && v in correct && v in Addresses(vals)
  {
    if forall i :: 0 <= i < |vals| && vals[i].address in s ==> vals[i].address !in correct {
      PowerMonotone(vals, s, Addresses(vals) - correct);
      assert false;
    }
    var i :| 0 <= i < |vals| && vals[i].address in s && vals[i].address in correct;
    v := vals[i].address;
  }

  /** Any two quorums share a correct validator when the faulty ones hold less than a third. */
  lemma QuorumIntersection(vals: ValidatorSet, correct: set<Address>, a: set<Address>, b: set<Address>)
    returns (v: Address)
    requires FaultyMinority(vals, correct)
    requires IsQuorum(vals, a) && IsQuorum(vals, b)
    ensures v in a && v in b && v in correct && v in Addresses(vals)
  {
    PowerInclusionExclusion(vals, a, b);
    PowerBound(vals, a + b);
    v := CorrectMember(vals, correct, a * b);
  }

  /** More than a third of the power always includes a correct validator. */
  lemma ThirdHasCorrect(vals: ValidatorSet, correct: set<Address>, s: set<Address>) returns (v: Address)
    requires FaultyMinority(vals, correct)
    requires 3 * PowerOf(vals, s) > TotalPower(vals)
    ensures v in s && v in correct && v in Addresses(vals)
  {
    v := CorrectMember(vals, correct, s);
  }
}
