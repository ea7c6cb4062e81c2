/**
 The light client around the header checks: bisection, sequential verification, replacement of the
 primary, the trusted store, and the search for the point where two traces part.

 Providers are an oracle indexed by the number of requests made so far, so a provider may answer the
 same question differently each time. What the witnesses send to the divergence detector is an oracle
 too, in any order of arrival.
 */
module LightClient {
  import opened Wrappers
  import opened LightVerifier

  type Provider = nat

  /** What arrives on the channel of the divergence detector; witnesses are named by their index. */
  datatype Reply =
    | Match
    | Conflict(index: nat, block: LightBlock)
    | Bad(index: nat, invalidBlock: bool)

  datatype Env = Env(
    fetch: (nat, Provider, int) -> Option<LightBlock>,
    replies: (nat, nat) -> seq<Reply>)

  datatype Failure =
    | VerificationFailed(from: int, to: int, reason: Verdict)
    | FetchFailed
    | NoWitnesses
    | SingleBlockTrace
    | Attack
    | NotCrossReferenced
    | BadHeight
    | HeaderMismatch
    | Backwards

  datatype Skip = Traced(trace: seq<LightBlock>) | Failed(why: Failure)

  datatype Outcome = Accepted | Rejected(why: Failure)

  datatype Examined = Bifurcation(trace: seq<LightBlock>, block: LightBlock) | NoBifurcation

  const SKIPPING_NUMERATOR := 9
  const SKIPPING_DENOMINATOR := 16

  function Pivot(verified: int, upper: int): (h: int)
    requires upper >= verified + 2
    ensures verified < h < upper
    ensures 16 * (h - verified) <= 9 * (upper - verified) < 16 * (h - verified + 1)
  {
    verified + (upper - verified) * SKIPPING_NUMERATOR / SKIPPING_DENOMINATOR
  }

  // ---- assumptions about providers ----

  /** Index of the witness a reply complains about. */
  function Complaint(r: Reply): Option<nat>
  {
    match r
    case Match => None
    case Conflict(i, _) => Some(i)
    case Bad(i, _) => Some(i)
  }

  /** The witnesses to remove: those that sent an invalid block, or a conflicting one that leads to no attack. */
  function Offenders(rs: seq<Reply>): set<nat>
  {
    set i | 0 <= i < |rs| && (rs[i].Conflict? || (rs[i].Bad? && rs[i].invalidBlock)) :: rs[i].index
  }

  lemma NoOffenders()
    ensures Offenders([]) == {}
  {
  }

  lemma OffendersStep(rs: seq<Reply>, r: Reply)
    ensures Offenders(rs + [r]) ==
            Offenders(rs) + if r.Conflict? || (r.Bad? && r.invalidBlock) then {r.index} else {}
  {
    var more := rs + [r];
    forall k ensures k in Offenders(more) <==>
        k in Offenders(rs) || ((r.Conflict? || (r.Bad? && r.invalidBlock)) && k == r.index) {
      if k in Offenders(rs) {
        var i :| 0 <= i < |rs| && (rs[i].Conflict? || (rs[i].Bad? && rs[i].invalidBlock)) && rs[i].index == k;
        assert more[i] == rs[i];
      }
      assert more[|rs|] == r;
    }
  }

  /** One reply is read per witness, and no witness is complained about twice. */
  ghost predicate RepliesOk(rs: seq<Reply>, n: nat)
  {
    && |rs| == n
    && (forall i :: 0 <= i < n && Complaint(rs[i]).Some? ==> Complaint(rs[i]).value < n)
    && (forall i, j :: 0 <= i < j < n && Complaint(rs[i]).Some? ==> Complaint(rs[i]) != Complaint(rs[j]))
  }

  lemma ComplaintInRange(rs: seq<Reply>, n: nat, i: nat)
    requires RepliesOk(rs, n) && i < |rs| && Complaint(rs[i]).Some?
    ensures Complaint(rs[i]).value < n
  {
  }

  /** A provider answers for the height it was asked for (0 asks for its latest block). */
  ghost predicate AnswersAsked(env: Env)
  {
    && (forall q, p, h :: h != 0 && env.fetch(q, p, h).Some? ==> env.fetch(q, p, h).value.Height() == h)
    && (forall q, n :: RepliesOk(env.replies(q, n), n))
  }

  ghost predicate Fetched(env: Env, b: LightBlock)
  {
    exists q, p, h :: env.fetch(q, p, h) == Some(b)
  }

  /**
   Every block handed out names its own validators, and holds no signature of a correct validator on
   a block that is not canonical; faulty validators hold less than a third while trust lasts.
   */
  ghost predicate TrustHolds(w: World, env: Env, p: Params, now: int)
  {
    && FaultyBelowThird(w, p.trustingPeriod, now)
    && forall b :: Fetched(env, b) ==> HonestCommit(w, b.signed.commit) && b.Head().validators == Some(b.vals)
  }

  // ---- traces ----

  ghost predicate Chain(trace: seq<LightBlock>, p: Params, now: int)
  {
    forall i :: 0 <= i < |trace| - 1 ==> Verify(trace[i], trace[i + 1], p, now).Verified?
  }

  ghost predicate ValidTrace(trace: seq<LightBlock>, from: LightBlock, to: LightBlock, p: Params, now: int)
  {
    && |trace| >= 2
    && trace[0] == from
    && trace[|trace| - 1] == to
    && Chain(trace, p, now)
  }

  /** The blocks strictly inside a trace came from providers. */
  ghost predicate FetchedInside(trace: seq<LightBlock>, env: Env)
  {
    forall i :: 0 < i < |trace| - 1 ==> Fetched(env, trace[i])
  }

  // ---- what bisection asks for, and how it fails ----

  /** `b` answered one of the first `n` requests, which started with request `q` and asked for these heights. */
  ghost predicate Answered(env: Env, source: Provider, q: nat, asked: seq<int>, n: nat, b: LightBlock)
  {
    exists j :: 0 <= j < n && j < |asked| && env.fetch(q + j, source, asked[j]) == Some(b)
  }

  lemma AnsweredGrows(env: Env, source: Provider, q: nat, asked: seq<int>, height: int, b: LightBlock)
    ensures Answered(env, source, q, asked, |asked|, b) ==>
              Answered(env, source, q, asked + [height], |asked| + 1, b)
    ensures env.fetch(q + |asked|, source, height) == Some(b) ==>
              Answered(env, source, q, asked + [height], |asked| + 1, b)
  {
    var more := asked + [height];
    if env.fetch(q + |asked|, source, height) == Some(b) {
      assert more[|asked|] == height;
    } else if Answered(env, source, q, asked, |asked|, b) {
      var j :| 0 <= j < |asked| && env.fetch(q + j, source, asked[j]) == Some(b);
      assert more[j] == asked[j];
    }
  }

  lemma AnsweredPrefix(env: Env, source: Provider, q: nat, asked: seq<int>, height: int, n: nat, b: LightBlock)
    requires n <= |asked|
    ensures Answered(env, source, q, asked, n, b) ==> Answered(env, source, q, asked + [height], n, b)
  {
    if Answered(env, source, q, asked, n, b) {
      var j :| 0 <= j < n && j < |asked| && env.fetch(q + j, source, asked[j]) == Some(b);
      assert (asked + [height])[j] == asked[j];
    }
  }

  /** A height that bisection has to ask for: the pivot of two blocks at hand that are too far apart. */
  ghost predicate Needed(env: Env, p: Params, now: int, source: Provider, trusted: LightBlock, target: LightBlock,
                         q: nat, asked: seq<int>, i: nat)
    requires i < |asked|
  {
    exists a, b ::
      && (a == trusted || Answered(env, source, q, asked, i, a))
      && (b == target || Answered(env, source, q, asked, i, b))
      && Verify(a, b, p, now).NewValSetCantBeTrusted?
      && trusted.Height() <= a.Height() && a.Height() + 2 <= b.Height() <= target.Height()
      && asked[i] == Pivot(a.Height(), b.Height())
  }

  ghost predicate AllNeeded(env: Env, p: Params, now: int, source: Provider, trusted: LightBlock, target: LightBlock,
                            q: nat, asked: seq<int>)
  {
    forall i :: 0 <= i < |asked| ==> Needed(env, p, now, source, trusted, target, q, asked, i)
  }

  lemma NeededGrows(env: Env, p: Params, now: int, source: Provider, trusted: LightBlock, target: LightBlock,
                    q: nat, asked: seq<int>, height: int, a: LightBlock, b: LightBlock)
    requires AllNeeded(env, p, now, source, trusted, target, q, asked)
    requires a == trusted || Answered(env, source, q, asked, |asked|, a)
    requires b == target || Answered(env, source, q, asked, |asked|, b)
    requires Verify(a, b, p, now).NewValSetCantBeTrusted?
    requires trusted.Height() <= a.Height() && a.Height() + 2 <= b.Height() <= target.Height()
    requires height == Pivot(a.Height(), b.Height())
    ensures AllNeeded(env, p, now, source, trusted, target, q, asked + [height])
  {
    hide Verify;
    var more := asked + [height];
    forall i | 0 <= i < |more| ensures Needed(env, p, now, source, trusted, target, q, more, i) {
      var c, d := a, b;
      if i < |asked| {
        assert Needed(env, p, now, source, trusted, target, q, asked, i);
        c, d :| && (c == trusted || Answered(env, source, q, asked, i, c))
                && (d == target || Answered(env, source, q, asked, i, d))
                && Verify(c, d, p, now).NewValSetCantBeTrusted?
                && trusted.Height() <= c.Height() && c.Height() + 2 <= d.Height() <= target.Height()
                && asked[i] == Pivot(c.Height(), d.Height());
      }
      AnsweredPrefix(env, source, q, asked, height, i, c);
      AnsweredPrefix(env, source, q, asked, height, i, d);
    }
  }

  /** A verified chain from `from` whose last block fails for good against the one before. */
  ghost predicate StuckAt(stuck: seq<LightBlock>, from: LightBlock, reason: Verdict, p: Params, now: int)
  {
    && |stuck| >= 2 && stuck[0] == from && Chain(stuck[..|stuck| - 1], p, now)
    && Verify(stuck[|stuck| - 2], stuck[|stuck| - 1], p, now) == reason
    && !reason.Verified? && !reason.NewValSetCantBeTrusted?
  }

  /** A request of `source`, one of those numbered `q0` to `q1`, got no answer for a height strictly between two. */
  ghost predicate Unanswered(env: Env, source: Provider, q0: nat, q1: nat, low: int, high: int)
  {
    exists q, h :: q0 <= q < q1 && low < h < high && env.fetch(q, source, h).None?
  }

  /** A verified chain from `from` fails for good at `to` or at a block that `source` sent. */
  ghost predicate FailsForGood(env: Env, p: Params, now: int, source: Provider, q0: nat, q1: nat, from: LightBlock,
                               to: LightBlock)
  {
    exists stuck, reason ::
      && StuckAt(stuck, from, reason, p, now)
      && (stuck[|stuck| - 1] == to || SentBy(env, source, q0, q1, stuck[|stuck| - 1]))
  }

  ghost predicate SentBy(env: Env, source: Provider, q0: nat, q1: nat, b: LightBlock)
  {
    exists q, h :: q0 <= q < q1 && env.fetch(q, source, h) == Some(b)
  }

  ghost predicate SkipFails(env: Env, p: Params, now: int, source: Provider, q0: nat, q1: nat, from: LightBlock,
                            to: LightBlock)
  {
    || Unanswered(env, source, q0, q1, from.Height(), to.Height())
    || FailsForGood(env, p, now, source, q0, q1, from, to)
  }

  /** A witness with a conflicting header was asked for its blocks, and no parting was found. */
  ghost predicate Cleared(trace: seq<LightBlock>, witnesses: seq<Provider>, index: nat, q0: nat, q1: nat, env: Env,
                          p: Params, now: int)
  {
    index < |witnesses| && exists a, b :: q0 <= a <= b <= q1 && NoParting(trace, witnesses[index], a, b, env, p, now)
  }

  /** All witnesses of conflicts among the first `n` replies were cleared. */
  ghost predicate ClearedUpTo(trace: seq<LightBlock>, witnesses: seq<Provider>, rs: seq<Reply>, n: nat, q0: nat,
                              q1: nat, env: Env, p: Params, now: int)
  {
    forall i :: 0 <= i < n <= |rs| && rs[i].Conflict? ==>
      Cleared(trace, witnesses, rs[i].index, q0, q1, env, p, now)
  }

  lemma AllCleared(trace: seq<LightBlock>, witnesses: seq<Provider>, rs: seq<Reply>, n: nat, q0: nat, q: nat, q1: nat,
                   env: Env, p: Params, now: int)
    requires n < |rs| && rs[n].Conflict? && q0 <= q <= q1
    requires ClearedUpTo(trace, witnesses, rs, n, q0, q, env, p, now)
    requires Cleared(trace, witnesses, rs[n].index, q, q1, env, p, now)
    ensures ClearedUpTo(trace, witnesses, rs, n + 1, q0, q1, env, p, now)
  {
    hide NoParting;
  }

  lemma NotConflicting(trace: seq<LightBlock>, witnesses: seq<Provider>, rs: seq<Reply>, n: nat, q0: nat, q1: nat,
                       env: Env, p: Params, now: int)
    ensures ClearedUpTo(trace, witnesses, rs, 0, q0, q1, env, p, now)
    ensures n < |rs| && !rs[n].Conflict? && ClearedUpTo(trace, witnesses, rs, n, q0, q1, env, p, now) ==>
              ClearedUpTo(trace, witnesses, rs, n + 1, q0, q1, env, p, now)
  {
    hide Cleared;
  }

  lemma SkipFailsLonger(env: Env, p: Params, now: int, source: Provider, q: nat, q0: nat, q1: nat, from: LightBlock,
                        to: LightBlock)
    requires q0 <= q && SkipFails(env, p, now, source, q, q1, from, to)
    ensures SkipFails(env, p, now, source, q0, q1, from, to)
  {
    hide StuckAt;
  }

  lemma LastUnanswered(env: Env, p: Params, now: int, source: Provider, trusted: LightBlock, target: LightBlock,
                       q: nat, asked: seq<int>)
    requires AllNeeded(env, p, now, source, trusted, target, q, asked) && |asked| > 0
    requires env.fetch(q + |asked| - 1, source, asked[|asked| - 1]).None?
    ensures Unanswered(env, source, q, q + |asked|, trusted.Height(), target.Height())
  {
    hide Verify;
    assert Needed(env, p, now, source, trusted, target, q, asked, |asked| - 1);
    var k, h := q + |asked| - 1, asked[|asked| - 1];
    assert q <= k < q + |asked| && env.fetch(k, source, h).None?;
  }

  lemma AnsweredIsSent(env: Env, source: Provider, q: nat, asked: seq<int>, b: LightBlock)
    requires Answered(env, source, q, asked, |asked|, b)
    ensures SentBy(env, source, q, q + |asked|, b)
  {
    var j :| 0 <= j < |asked| && env.fetch(q + j, source, asked[j]) == Some(b);
    var k, h := q + j, asked[j];
    assert q <= k < q + |asked| && env.fetch(k, source, h) == Some(b);
  }

  /**
   Why no parting of `source` from a trace is found: its blocks agree with the trace all the way, or up to
   a height for which it did not answer, or where its own block does not verify against the one before; or
   already its first block is another one.
   */
  ghost predicate NoParting(trace: seq<LightBlock>, source: Provider, q0: nat, q1: nat, env: Env, p: Params, now: int)
  {
    exists n: nat, agreed, hops ::
      && Agrees(trace, n, agreed, hops, env, p, now)
      && (n == |trace| || BreaksOff(trace, n, agreed, source, q0, q1, env, p, now))
  }

  ghost predicate BreaksOff(trace: seq<LightBlock>, n: nat, agreed: seq<LightBlock>, source: Provider, q0: nat,
                            q1: nat, env: Env, p: Params, now: int)
    requires n < |trace| && |agreed| == n
  {
    exists q :: q0 <= q < q1 &&
      var answer := env.fetch(q, source, trace[n].Height());
      || answer.None?
      || (n == 0 && answer.value.Head() != trace[0].Head())
      || (n > 0 && SkipFails(env, p, now, source, q0, q1, agreed[n - 1], answer.value))
  }

  lemma NoneNeeded(env: Env, p: Params, now: int, source: Provider, trusted: LightBlock, target: LightBlock, q: nat)
    ensures AllNeeded(env, p, now, source, trusted, target, q, [])
  {
  }

  lemma AnsweredInside(env: Env, source: Provider, q: nat, asked: seq<int>, trace: seq<LightBlock>)
    requires TailAnswered(env, source, q, asked, trace)
    ensures forall i :: 0 < i < |trace| ==> Fetched(env, trace[i])
  {
    forall i | 0 < i < |trace| ensures Fetched(env, trace[i]) {
      var j :| 0 <= j < |asked| && env.fetch(q + j, source, asked[j]) == Some(trace[i]);
      FetchedBy(env, q + j, source, asked[j], trace[i]);
    }
  }

  lemma FetchedBy(env: Env, q: nat, source: Provider, height: int, b: LightBlock)
    requires env.fetch(q, source, height) == Some(b)
    ensures Fetched(env, b)
  {
  }

  /** All but the first were asked for. */
  ghost predicate TailAnswered(env: Env, source: Provider, q: nat, asked: seq<int>, bs: seq<LightBlock>)
  {
    forall i :: 0 < i < |bs| ==> Answered(env, source, q, asked, |asked|, bs[i])
  }

  ghost predicate Descending(bs: seq<LightBlock>)
  {
    forall i, j :: 0 <= i < j < |bs| ==> bs[j].Height() < bs[i].Height()
  }

  lemma TailAt(env: Env, source: Provider, q: nat, asked: seq<int>, bs: seq<LightBlock>, i: nat)
    requires TailAnswered(env, source, q, asked, bs) && i < |bs|
    ensures bs[i] == bs[0] || Answered(env, source, q, asked, |asked|, bs[i])
    ensures TailAnswered(env, source, q, asked, bs[..i])
  {
    hide Answered;
  }

  lemma AllTail(env: Env, source: Provider, q: nat, asked: seq<int>, bs: seq<LightBlock>)
    requires TailAnswered(env, source, q, asked, bs)
    ensures forall i :: 0 < i < |bs| ==> Answered(env, source, q, asked, |asked|, bs[i])
  {
    hide Answered;
  }

  lemma OneAnswered(env: Env, source: Provider, q: nat, b: LightBlock)
    ensures TailAnswered(env, source, q, [], [b]) && Descending([b])
  {
  }

  lemma TailMore(env: Env, source: Provider, q: nat, asked: seq<int>, bs: seq<LightBlock>, b: LightBlock)
    requires TailAnswered(env, source, q, asked, bs)
    requires bs == [] || Answered(env, source, q, asked, |asked|, b)
    ensures TailAnswered(env, source, q, asked, bs + [b])
  {
    hide Answered;
  }

  lemma TailLater(env: Env, source: Provider, q: nat, asked: seq<int>, asked': seq<int>, bs: seq<LightBlock>)
    requires TailAnswered(env, source, q, asked, bs)
    requires forall b :: Answered(env, source, q, asked, |asked|, b) ==>
               Answered(env, source, q, asked', |asked'|, b)
    ensures TailAnswered(env, source, q, asked', bs)
  {
    hide Answered;
  }

  lemma Descends(bs: seq<LightBlock>, i: nat, b: LightBlock)
    requires Descending(bs) && i < |bs|
    ensures bs[|bs| - 1].Height() <= bs[i].Height() <= bs[0].Height()
    ensures i > 0 ==> Descending(bs[..i]) && bs[i].Height() < bs[i - 1].Height()
    ensures i + 1 < |bs| ==> bs[i + 1].Height() < bs[i].Height()
    ensures b.Height() < bs[|bs| - 1].Height() ==> Descending(bs + [b])
  {
    assert forall j :: 0 <= j < |bs| ==> bs[|bs| - 1].Height() <= bs[j].Height();
  }

  lemma StuckHere(trace: seq<LightBlock>, b: LightBlock, reason: Verdict, p: Params, now: int)
    requires |trace| > 0 && Chain(trace, p, now) && Verify(trace[|trace| - 1], b, p, now) == reason
    requires !reason.Verified? && !reason.NewValSetCantBeTrusted?
    ensures StuckAt(trace + [b], trace[0], reason, p, now)
  {
    hide Verify, Chain;
    assert (trace + [b])[..|trace|] == trace;
  }

  lemma TraceFound(trace: seq<LightBlock>, from: LightBlock, to: LightBlock, env: Env, p: Params, now: int)
    requires |trace| > 0 && trace[0] == from && Chain(trace + [to], p, now)
    requires forall i :: 0 < i < |trace| ==> Fetched(env, trace[i])
    ensures ValidTrace(trace + [to], from, to, p, now) && FetchedInside(trace + [to], env)
  {
    hide Chain;
  }

  lemma ChainOne(b: LightBlock, p: Params, now: int)
    ensures Chain([b], p, now)
  {
  }

  lemma ChainAppend(trace: seq<LightBlock>, b: LightBlock, p: Params, now: int)
    requires Chain(trace, p, now) && |trace| > 0 && Verify(trace[|trace| - 1], b, p, now).Verified?
    ensures Chain(trace + [b], p, now)
  {
    hide Verify;
  }

  lemma VerifiedIsHigher(a: LightBlock, b: LightBlock, p: Params, now: int)
    requires Verify(a, b, p, now).Verified?
    ensures b.Height() > a.Height()
  {
  }

  /** Heights increase along a trace. */
  lemma {:induction false} TraceIncreases(trace: seq<LightBlock>, p: Params, now: int, i: nat, j: nat)
    requires Chain(trace, p, now) && i < j < |trace|
    ensures trace[i].Height() < trace[j].Height()
    decreases j
  {
    VerifiedIsHigher(trace[j - 1], trace[j], p, now);
    if i < j - 1 {
      TraceIncreases(trace, p, now, i, j - 1);
    }
  }

  /** Every block of a trace that starts at a trusted block is trusted. */
  lemma {:induction false} TraceTrusted(w: World, env: Env, trace: seq<LightBlock>, p: Params, now: int, k: nat)
    requires TrustHolds(w, env, p, now)
    requires |trace| > 0 && Trusted(w, trace[0]) && Chain(trace, p, now)
    requires forall i :: 0 < i < |trace| ==> Fetched(env, trace[i])
    requires k < |trace|
    ensures Trusted(w, trace[k])
  {
    if k > 0 {
      TraceTrusted(w, env, trace, p, now, k - 1);
      VerifySound(w, trace[k - 1], trace[k], p, now);
    }
  }

  lemma TargetTrusted(w: World, env: Env, trace: seq<LightBlock>, from: LightBlock, to: LightBlock, p: Params, now: int)
    requires TrustHolds(w, env, p, now) && Trusted(w, from)
    requires ValidTrace(trace, from, to, p, now) && FetchedInside(trace, env) && Fetched(env, to)
    ensures Trusted(w, to)
  {
    TraceTrusted(w, env, trace, p, now, |trace| - 1);
  }

  // ---- where two traces part ----

  /**
   `other` is a verified trace that starts at a block with the header of `trace[k - 1]` and ends at the
   height of `trace[k]` with another header; `agreed` are the source's own blocks up to there, with the
   same headers as `trace`, each reached from the one before by a verified trace in `hops`.
   */
  ghost predicate PartsAt(trace: seq<LightBlock>, other: seq<LightBlock>, k: nat, agreed: seq<LightBlock>,
                          hops: seq<seq<LightBlock>>, env: Env, p: Params, now: int)
  {
    && 0 < k < |trace| && Agrees(trace, k, agreed, hops, env, p, now)
    && |other| >= 2 && ValidTrace(other, agreed[k - 1], other[|other| - 1], p, now) && FetchedInside(other, env)
    && Fetched(env, other[|other| - 1])
    && other[|other| - 1].Height() == trace[k].Height()
    && other[|other| - 1].Head() != trace[k].Head()
  }

  ghost predicate Agrees(trace: seq<LightBlock>, k: nat, agreed: seq<LightBlock>, hops: seq<seq<LightBlock>>,
                         env: Env, p: Params, now: int)
  {
    && |agreed| == k <= |trace| && |hops| == k
    && (forall j :: 0 <= j < k ==> agreed[j].Head() == trace[j].Head() && Fetched(env, agreed[j]))
    && (forall j :: 0 < j < k ==> ValidTrace(hops[j], agreed[j - 1], agreed[j], p, now) && FetchedInside(hops[j], env))
  }

  ghost predicate Parts(trace: seq<LightBlock>, other: seq<LightBlock>, block: LightBlock, env: Env, p: Params,
                        now: int)
  {
    exists k: nat, agreed, hops :: PartsAt(trace, other, k, agreed, hops, env, p, now) && block == trace[k]
  }

  /** While trust holds, no trace of trusted blocks can part from another: the detector never raises a false alarm. */
  lemma TrustedTracesDoNotPart(w: World, env: Env, trace: seq<LightBlock>, other: seq<LightBlock>, block: LightBlock,
                               p: Params, now: int)
    requires TrustHolds(w, env, p, now)
    requires forall i :: 0 <= i < |trace| ==> Trusted(w, trace[i])
    ensures !Parts(trace, other, block, env, p, now)
  {
    if Parts(trace, other, block, env, p, now) {
      var k: nat, agreed: seq<LightBlock>, hops :|
        PartsAt(trace, other, k, agreed, hops, env, p, now) && block == trace[k];
      assert Fetched(env, agreed[k - 1]) && Trusted(w, trace[k - 1]);
      TargetTrusted(w, env, other, agreed[k - 1], other[|other| - 1], p, now);
    }
  }

  // ---- why a request is refused ----

  /** A verified trace of provided blocks leads from `trusted` to a block with the target's header. */
  ghost predicate Establishes(trace: seq<LightBlock>, trusted: LightBlock, target: LightBlock, env: Env, p: Params,
                              now: int)
  {
    && |trace| >= 2 && trace[0] == trusted && Chain(trace, p, now)
    && (forall i :: 0 < i < |trace| ==> Fetched(env, trace[i]))
    && trace[|trace| - 1].Head() == target.Head()
  }

  /** None of the providers, asked one after the other from request `q` on, answers. */
  ghost predicate Silent(env: Env, ps: seq<Provider>, q: nat, height: int)
  {
    forall j :: 0 <= j < |ps| ==> env.fetch(q + j, ps[j], height).None?
  }

  lemma NoneSilent(env: Env, q: nat, height: int)
    ensures Silent(env, [], q, height)
  {
  }

  lemma SilentFirst(env: Env, first: Provider, ps: seq<Provider>, q: nat, height: int)
    requires env.fetch(q, first, height).None? && Silent(env, ps, q + 1, height)
    ensures Silent(env, [first] + ps, q, height)
  {
    forall j | 0 <= j < |[first] + ps| ensures env.fetch(q + j, ([first] + ps)[j], height).None? {
      if j > 0 {
        assert env.fetch(q + 1 + (j - 1), ps[j - 1], height).None?;
      }
    }
  }

  ghost predicate SentToClient(env: Env, q0: nat, q1: nat, b: LightBlock)
  {
    exists q, source, h :: q0 <= q < q1 && env.fetch(q, source, h) == Some(b)
  }

  /** A witness confirmed the header in answer to a comparison. */
  ghost predicate Confirmed(env: Env, q0: nat, q1: nat)
  {
    exists q, n :: q0 <= q <= q1 && Match in env.replies(q, n)
  }

  ghost predicate NotConfirmed(env: Env, q0: nat, q1: nat)
  {
    exists q, n :: q0 <= q <= q1 && 0 < n && Match !in env.replies(q, n)
  }

  /** A verified trace to the target's header was found, and another provider's blocks part from it. */
  ghost predicate Attacked(env: Env, p: Params, now: int, trusted: LightBlock, target: LightBlock)
  {
    exists trace, other, block ::
      Establishes(trace, trusted, target, env, p, now) && Parts(trace, other, block, env, p, now)
  }

  /** There is no other provider to turn to, or the next one does not answer or has another target. */
  ghost predicate NoReplacement(env: Env, target: LightBlock, q0: nat, q1: nat, n: nat)
  {
    || n <= 1
    || exists q, source :: q0 <= q < q1 &&
         var answer := env.fetch(q, source, target.Height());
         answer.None? || answer.value.Head() != target.Head()
  }

  /** The last block of a verified chain from the trusted block fails; it is the target or was sent on the way. */
  ghost predicate BlockFails(env: Env, p: Params, now: int, trusted: LightBlock, target: LightBlock,
                             stuck: seq<LightBlock>, why: Failure, q0: nat, q1: nat)
    requires why.VerificationFailed?
  {
    && StuckAt(stuck, trusted, why.reason, p, now)
    && why.from == stuck[|stuck| - 2].Height() && why.to == stuck[|stuck| - 1].Height()
    && (stuck[|stuck| - 1].Head() == target.Head() || SentToClient(env, q0, q1, stuck[|stuck| - 1]))
  }

  ghost predicate FailsAt(env: Env, p: Params, now: int, trusted: LightBlock, target: LightBlock, why: Failure,
                          q0: nat, q1: nat)
  {
    match why
    case VerificationFailed(_, _, _) => exists stuck :: BlockFails(env, p, now, trusted, target, stuck, why, q0, q1)
    case FetchFailed =>
      exists q, source, h ::
        q0 <= q < q1 && trusted.Height() < h < target.Height() && env.fetch(q, source, h).None?
    case _ => false
  }

  predicate Retriable(target: LightBlock, why: Failure)
  {
    why.VerificationFailed? && why.reason.InvalidHeader? && why.to != target.Height()
  }

  /**
   A refusal has its reason in what happened during the request, made of the requests `q0` to `q1` and
   left with `n` witnesses. For a block on the way with an invalid header the primary was replaced first.
   */
  ghost predicate Refused(env: Env, p: Params, now: int, trusted: LightBlock, target: LightBlock, why: Failure,
                          q0: nat, q1: nat, n: nat)
  {
    match why
    case VerificationFailed(_, _, _) =>
      && FailsAt(env, p, now, trusted, target, why, q0, q1)
      && (Retriable(target, why) ==> NoReplacement(env, target, q0, q1, n))
    case FetchFailed => FailsAt(env, p, now, trusted, target, why, q0, q1)
    case NoWitnesses => n == 0
    case SingleBlockTrace => target.Height() <= trusted.Height()
    case Attack => Attacked(env, p, now, trusted, target)
    case NotCrossReferenced => NotConfirmed(env, q0, q1)
    case _ => false
  }

  /** The outcome of verifying `target` against `trusted` has its grounds. */
  ghost predicate Judged(env: Env, p: Params, now: int, trusted: LightBlock, target: LightBlock, sequential: bool,
                         trace: seq<LightBlock>, r: Outcome, q0: nat, q1: nat, n: nat)
  {
    if r.Rejected? then Refused(env, p, now, trusted, target, r.why, q0, q1, n)
    else
      && Establishes(trace, trusted, target, env, p, now) && Confirmed(env, q0, q1)
      && (sequential ==> forall i :: 0 <= i < |trace| ==> trace[i].Height() == trusted.Height() + i)
  }

  /** Backwards if the block is below the whole store; else it is verified against the closest one below. */
  ghost predicate Decided(env: Env, p: Params, now: int, store: map<int, LightBlock>, l: LightBlock, sequential: bool,
                          trace: seq<LightBlock>, r: Outcome, q0: nat, q1: nat, n: nat)
  {
    if forall g :: g in store ==> l.Height() < g then r == Rejected(Backwards)
    else exists h :: HighestBelow(store, l.Height(), h)
           && Judged(env, p, now, store[h], l, sequential, trace, r, q0, q1, n)
  }

  /** `kept` is the store with the block if it was accepted, down to the size allowed. */
  ghost predicate SavedIfAccepted(store: map<int, LightBlock>, l: LightBlock, r: Outcome, pruningSize: nat,
                                  kept: map<int, LightBlock>)
  {
    if r.Rejected? then kept == store
    else
      && KeepsHighest(store[l.Height() := l], kept)
      && |kept| == if 0 < pruningSize < |store| + 1 then pruningSize else |store| + 1
  }

  /** The block fetched for a request was decided about; or no provider had one. */
  ghost predicate Answers(env: Env, p: Params, now: int, store: map<int, LightBlock>, height: int, l: LightBlock,
                          sequential: bool, pruningSize: nat, r: Outcome, q0: nat, q1: nat, n: nat,
                          kept: map<int, LightBlock>)
  {
    && SentToClient(env, q0, q1, l) && (height != 0 ==> l.Height() == height)
    && SavedIfAccepted(store, l, r, pruningSize, kept)
    && exists trace, q :: q0 <= q <= q1 && Decided(env, p, now, store, l, sequential, trace, r, q, q1, n)
  }

  /** No provider but the last witness is left, and the primary did not answer. */
  ghost predicate NoneAnswered(env: Env, height: int, q1: nat, primary: Provider, n: nat)
  {
    n <= 1 && 0 < q1 && env.fetch(q1 - 1, primary, height).None?
  }

  lemma EstablishedFacts(trace: seq<LightBlock>, trusted: LightBlock, target: LightBlock, env: Env, p: Params, now: int)
    requires Establishes(trace, trusted, target, env, p, now) && trusted.Height() > 0
    ensures |trace| >= 2 && forall i :: 0 <= i < |trace| ==> trace[i].Height() > 0
  {
    hide Verify;
    TracePositive(trace, p, now);
  }

  lemma TraceEstablishes(trace: seq<LightBlock>, trusted: LightBlock, target: LightBlock, env: Env, p: Params, now: int)
    requires ValidTrace(trace, trusted, target, p, now) && FetchedInside(trace, env) && Fetched(env, target)
    ensures Establishes(trace, trusted, target, env, p, now)
  {
    hide Verify;
  }

  lemma FailsAtLonger(env: Env, p: Params, now: int, trusted: LightBlock, target: LightBlock, why: Failure,
                      q0: nat, q: nat, q': nat, q1: nat)
    requires q0 <= q <= q' <= q1 && FailsAt(env, p, now, trusted, target, why, q, q')
    ensures FailsAt(env, p, now, trusted, target, why, q0, q1)
  {
    hide StuckAt;
    if why.VerificationFailed? {
      var stuck :| BlockFails(env, p, now, trusted, target, stuck, why, q, q');
      assert BlockFails(env, p, now, trusted, target, stuck, why, q0, q1);
    }
  }

  /** What a part of a request shows holds of the whole request. */
  lemma Later(env: Env, p: Params, now: int, trusted: LightBlock, target: LightBlock, r: Outcome, q0: nat, q: nat,
              q1: nat, n: nat)
    requires q0 <= q <= q1
    ensures r.Accepted? && Confirmed(env, q, q1) ==> Confirmed(env, q0, q1)
    ensures r.Rejected? && Refused(env, p, now, trusted, target, r.why, q, q1, n) ==>
              Refused(env, p, now, trusted, target, r.why, q0, q1, n)
  {
    hide FailsAt, Attacked;
    if r.Rejected? && FailsAt(env, p, now, trusted, target, r.why, q, q1) {
      FailsAtLonger(env, p, now, trusted, target, r.why, q0, q, q1, q1);
    }
  }

  lemma SkipRefused(env: Env, p: Params, now: int, source: Provider, trusted: LightBlock, target: LightBlock,
                    why: Failure, q: nat, asked: seq<int>, stuck: seq<LightBlock>)
    requires AllNeeded(env, p, now, source, trusted, target, q, asked)
    requires why.VerificationFailed? || why.FetchFailed?
    requires why.FetchFailed? ==> |asked| > 0 && env.fetch(q + |asked| - 1, source, asked[|asked| - 1]).None?
    requires why.VerificationFailed? ==>
               && StuckAt(stuck, trusted, why.reason, p, now)
               && why.from == stuck[|stuck| - 2].Height() && why.to == stuck[|stuck| - 1].Height()
               && (stuck[|stuck| - 1] == target || Answered(env, source, q, asked, |asked|, stuck[|stuck| - 1]))
    ensures FailsAt(env, p, now, trusted, target, why, q, q + |asked|)
  {
    hide Verify, AllNeeded, Answered, Chain;
    if why.FetchFailed? {
      LastUnanswered(env, p, now, source, trusted, target, q, asked);
    } else {
      if stuck[|stuck| - 1] != target {
        AnsweredIsSent(env, source, q, asked, stuck[|stuck| - 1]);
      }
      assert BlockFails(env, p, now, trusted, target, stuck, why, q, q + |asked|);
    }
  }

  lemma FailedOtherwise(env: Env, p: Params, now: int, trusted: LightBlock, target: LightBlock, why: Failure,
                        q0: nat, q1: nat, n: nat)
    requires FailsAt(env, p, now, trusted, target, why, q0, q1) && !Retriable(target, why)
    ensures Refused(env, p, now, trusted, target, why, q0, q1, n)
  {
  }

  lemma NotReplaced(env: Env, p: Params, now: int, trusted: LightBlock, target: LightBlock, why: Failure,
                    q0: nat, q: nat, q1: nat, n: nat)
    requires q0 <= q <= q1 && FailsAt(env, p, now, trusted, target, why, q0, q)
    requires NoReplacement(env, target, q, q1, n)
    ensures Refused(env, p, now, trusted, target, why, q0, q1, n)
  {
    FailsAtLonger(env, p, now, trusted, target, why, q0, q0, q, q1);
    hide FailsAt;
  }

  /** A replacement with the target's header stands for the target. */
  lemma SameTarget(env: Env, p: Params, now: int, trusted: LightBlock, replacement: LightBlock, target: LightBlock,
                   trace: seq<LightBlock>, r: Outcome, q0: nat, q1: nat, n: nat)
    requires replacement.Head() == target.Head()
    ensures Establishes(trace, trusted, replacement, env, p, now) ==> Establishes(trace, trusted, target, env, p, now)
    ensures r.Rejected? && Refused(env, p, now, trusted, replacement, r.why, q0, q1, n) ==>
              Refused(env, p, now, trusted, target, r.why, q0, q1, n)
  {
    hide StuckAt, Chain, Parts, Verify;
    if r.Rejected? && Attacked(env, p, now, trusted, replacement) {
      var t, other, block :|
        Establishes(t, trusted, replacement, env, p, now) && Parts(t, other, block, env, p, now);
      assert Establishes(t, trusted, target, env, p, now);
    }
    if r.Rejected? && r.why.VerificationFailed? && FailsAt(env, p, now, trusted, replacement, r.why, q0, q1) {
      var stuck :| BlockFails(env, p, now, trusted, replacement, stuck, r.why, q0, q1);
      assert BlockFails(env, p, now, trusted, target, stuck, r.why, q0, q1);
    }
  }

  lemma NotFetched(env: Env, p: Params, now: int, trusted: LightBlock, target: LightBlock, q0: nat, q1: nat, n: nat,
                   source: Provider, height: int)
    requires q0 < q1 && trusted.Height() < height < target.Height() && env.fetch(q1 - 1, source, height).None?
    ensures Refused(env, p, now, trusted, target, FetchFailed, q0, q1, n)
  {
    var q: nat := q1 - 1;
    assert env.fetch(q, source, height).None?;
  }

  lemma AdjacentStuck(path: seq<LightBlock>, b: LightBlock, p: Params, now: int)
    requires |path| > 0 && Chain(path, p, now)
    requires b.Height() == path[|path| - 1].Height() + 1
    requires !VerifyAdjacent(path[|path| - 1].signed, b.signed, b.vals, p, now).Verified?
    ensures StuckAt(path + [b], path[0], VerifyAdjacent(path[|path| - 1].signed, b.signed, b.vals, p, now), p, now)
  {
    hide Chain;
    assert (path + [b])[..|path|] == path;
  }

  lemma BlockRefused(env: Env, p: Params, now: int, trusted: LightBlock, target: LightBlock, stuck: seq<LightBlock>,
                     why: Failure, q0: nat, q1: nat)
    requires why.VerificationFailed? && BlockFails(env, p, now, trusted, target, stuck, why, q0, q1)
    ensures FailsAt(env, p, now, trusted, target, why, q0, q1)
  {
  }

  lemma NothingAbove(env: Env, p: Params, now: int, trusted: LightBlock, target: LightBlock, q0: nat, q1: nat, n: nat)
    requires target.Height() <= trusted.Height()
    ensures Refused(env, p, now, trusted, target, SingleBlockTrace, q0, q1, n)
  {
  }

  // ---- the trusted store ----

  predicate Lowest(store: map<int, LightBlock>, h: int)
  {
    h in store && forall g :: g in store ==> h <= g
  }

  ghost predicate Highest(store: map<int, LightBlock>, h: int)
  {
    h in store && forall g :: g in store ==> g <= h
  }

  lemma SomeKey<K, V>(m: map<K, V>) returns (k: K)
    requires |m| > 0
    ensures k in m
  {
    assert |m.Keys| > 0;
    k :| k in m.Keys;
  }

  lemma {:induction false} HasLowest(store: map<int, LightBlock>) returns (h: int)
    requires |store| > 0
    ensures Lowest(store, h)
    decreases |store|
  {
    h := SomeKey(store);
    var rest := map g | g in store && g != h :: store[g];
    if rest != map[] {
      assert rest.Keys == store.Keys - {h};
      assert |rest.Keys| == |rest| && |store.Keys| == |store|;
      var g := HasLowest(rest);
      assert forall k :: k in store && k != h ==> k in rest;
      h := if h < g then h else g;
    } else {
      assert forall k :: k in store && k != h ==> k in rest;
    }
  }

  lemma {:induction false} HasHighestBelow(store: map<int, LightBlock>, bound: int) returns (h: int)
    requires exists g :: g in store && g < bound
    ensures HighestBelow(store, bound, h)
    decreases |store|
  {
    h :| h in store && h < bound;
    var rest := map g | g in store && g != h :: store[g];
    assert forall k :: k in store && k != h ==> k in rest;
    if g :| g in rest && g < bound {
      assert rest.Keys == store.Keys - {h};
      assert |rest.Keys| == |rest| && |store.Keys| == |store|;
      var k := HasHighestBelow(rest, bound);
      h := if h < k then k else h;
    }
  }

  predicate HighestBelow(store: map<int, LightBlock>, bound: int, h: int)
  {
    h in store && h < bound && forall g :: g in store && g < bound ==> g <= h
  }

  /** `kept` holds the highest entries of `store`: a suffix in height. */
  ghost predicate KeepsHighest(store: map<int, LightBlock>, kept: map<int, LightBlock>)
  {
    && (forall h :: h in kept ==> h in store && kept[h] == store[h])
    && (forall h, g :: h in kept && g in store && g >= h ==> g in kept)
  }

  ghost predicate AllTrusted(w: World, store: map<int, LightBlock>)
  {
    forall h :: h in store ==> Trusted(w, store[h])
  }

  datatype Request = AtHeight(height: int) | ForHeader(header: Header) | Latest

  class Client {
    const env: Env
    const params: Params
    const sequential: bool
    const pruningSize: nat
    var primary: Provider
    var witnesses: seq<Provider>
    var store: map<int, LightBlock>
    var size: nat
    var latest: LightBlock
    var queries: nat

    /**
     The store holds blocks under their own positive heights, its counter is right, and `latest` is its highest
     block.
     */
    ghost predicate Valid()
      reads this
    {
      && AnswersAsked(env) && ValidTrustLevel(params.trustLevel)
      && size == |store|
      && (forall h :: h in store ==> h > 0 && store[h].Height() == h)
      && Highest(store, latest.Height()) && store[latest.Height()] == latest
    }

    ghost predicate StoreTrusted(w: World)
      reads this
    {
      AllTrusted(w, store)
    }

    constructor (env: Env, params: Params, sequential: bool, pruningSize: nat, primary: Provider,
                 witnesses: seq<Provider>,
                 first: LightBlock)
      requires AnswersAsked(env) && ValidTrustLevel(params.trustLevel) && first.Height() > 0
      ensures Valid() && store == map[first.Height() := first] && this.witnesses == witnesses
      ensures this.env == env && this.params == params && this.pruningSize == pruningSize
      ensures this.sequential == sequential
    {
      this.env, this.params, this.sequential, this.pruningSize := env, params, sequential, pruningSize;
      this.primary, this.witnesses := primary, witnesses;
      store, size, latest, queries := map[first.Height() := first], 1, first, 0;
    }

    method Fetch(source: Provider, height: int) returns (r: Option<LightBlock>)
      modifies this`queries
      ensures r == env.fetch(old(queries), source, height) && queries == old(queries) + 1
      ensures r.Some? ==> Fetched(env, r.value)
      ensures AnswersAsked(env) && r.Some? && height != 0 ==> r.value.Height() == height
    {
      r := env.fetch(queries, source, height);
      queries := queries + 1;
    }

    // ---- bisection ----

    /**
     On success the trace runs from `trusted` to `target` and every consecutive pair passes `Verify`.
     On a failed check `stuck` ends with the block that failed against the last verified one. Only pivots
     of blocks too far apart are asked for, in order, and `FetchFailed` means that the last one asked for
     did not come.
     */
    method VerifySkipping(source: Provider, trusted: LightBlock, target: LightBlock, now: int)
      returns (r: Skip, ghost stuck: seq<LightBlock>, ghost asked: seq<int>)
      requires AnswersAsked(env) && trusted.Height() > 0
      modifies this`queries
      ensures queries == old(queries) + |asked|
      ensures AllNeeded(env, params, now, source, trusted, target, old(queries), asked)
      ensures forall i :: 0 <= i < |asked| ==>
                (env.fetch(old(queries) + i, source, asked[i]).None? <==> i == |asked| - 1 && r == Failed(FetchFailed))
      ensures r == Failed(FetchFailed) ==> |asked| > 0
      ensures r.Traced? ==> ValidTrace(r.trace, trusted, target, params, now) && FetchedInside(r.trace, env)
      ensures r.Traced? ==> forall i :: 0 < i < |r.trace| - 1 ==>
                Answered(env, source, old(queries), asked, |asked|, r.trace[i])
      ensures r.Failed? ==> r.why.VerificationFailed? || r.why.FetchFailed?
      ensures r.Failed? && r.why.VerificationFailed? ==>
                && StuckAt(stuck, trusted, r.why.reason, params, now)
                && r.why.from == stuck[|stuck| - 2].Height() && r.why.to == stuck[|stuck| - 1].Height()
                && (forall i :: 0 < i < |stuck| - 1 ==> Answered(env, source, old(queries), asked, |asked|, stuck[i]))
                && (stuck[|stuck| - 1] == target
                    || Answered(env, source, old(queries), asked, |asked|, stuck[|stuck| - 1]))
    {
      hide Verify, Fetched, Chain, Answered, Needed, AllNeeded, StuckAt, ValidTrace, FetchedInside;
      hide TailAnswered, Descending;
      ChainOne(trusted, params, now);
      var cache, depth := [target], 0;
      var verified := trusted;
      var trace := [trusted];
      stuck, asked := [], [];
      NoneNeeded(env, params, now, source, trusted, target, queries);
      OneAnswered(env, source, queries, trusted);
      OneAnswered(env, source, queries, target);
      while true
        invariant 0 <= depth < |cache| && cache[0] == target
        invariant queries == old(queries) + |asked|
        invariant AllNeeded(env, params, now, source, trusted, target, old(queries), asked)
        invariant forall i :: 0 <= i < |asked| ==> env.fetch(old(queries) + i, source, asked[i]).Some?
        invariant TailAnswered(env, source, old(queries), asked, cache) && Descending(cache)
        invariant (verified == trusted && |cache| == 1) || verified.Height() < cache[|cache| - 1].Height()
        invariant |trace| > 0 && trace[0] == trusted && trace[|trace| - 1] == verified && Chain(trace, params, now)
        invariant TailAnswered(env, source, old(queries), asked, trace)
        invariant 0 < trusted.Height() <= verified.Height()
        decreases target.Height() - verified.Height(), cache[depth].Height() - verified.Height()
      {
        TailAt(env, source, old(queries), asked, cache, depth);
        TailAt(env, source, old(queries), asked, trace, |trace| - 1);
        Descends(cache, depth, cache[0]);
        var verdict := Verify(verified, cache[depth], params, now);
        if verdict.Verified? {
          VerifiedIsHigher(verified, cache[depth], params, now);
          ChainAppend(trace, cache[depth], params, now);
          if depth == 0 {
            AnsweredInside(env, source, old(queries), asked, trace);
            AllTail(env, source, old(queries), asked, trace);
            TraceFound(trace, trusted, target, env, params, now);
            return Traced(trace + [target]), stuck, asked;
          }
          Descends(cache, depth - 1, cache[0]);
          TailMore(env, source, old(queries), asked, trace, cache[depth]);
          trace := trace + [cache[depth]];
          verified := cache[depth];
          cache := cache[..depth];
          depth := 0;
        } else if verdict.NewValSetCantBeTrusted? {
          CantBeTrustedLeavesRoom(verified, cache[depth], params, now);
          if depth == |cache| - 1 {
            var interim;
            ghost var before := asked;
            interim, asked := FetchPivot(source, trusted, target, verified, cache[depth], now, old(queries), asked);
            TailLater(env, source, old(queries), before, asked, cache);
            TailLater(env, source, old(queries), before, asked, trace);
            AllTail(env, source, old(queries), asked, trace);
            if interim.None? {
              return Failed(FetchFailed), stuck, asked;
            }
            Descends(cache, depth, interim.value);
            TailMore(env, source, old(queries), asked, cache, interim.value);
            cache := cache + [interim.value];
          }
          depth := depth + 1;
        } else {
          stuck := trace + [cache[depth]];
          AllTail(env, source, old(queries), asked, trace);
          StuckHere(trace, cache[depth], verdict, params, now);
          return Failed(VerificationFailed(verified.Height(), cache[depth].Height(), verdict)), stuck, asked;
        }
      }
    }

    /** Ask for the pivot of two blocks that are too far apart. */
    method FetchPivot(source: Provider, ghost trusted: LightBlock, ghost target: LightBlock, lower: LightBlock,
                      upper: LightBlock, now: int, ghost q: nat, ghost asked: seq<int>)
      returns (interim: Option<LightBlock>, ghost asked': seq<int>)
      requires AnswersAsked(env) && queries == q + |asked|
      requires AllNeeded(env, params, now, source, trusted, target, q, asked)
      requires lower == trusted || Answered(env, source, q, asked, |asked|, lower)
      requires upper == target || Answered(env, source, q, asked, |asked|, upper)
      requires Verify(lower, upper, params, now).NewValSetCantBeTrusted?
      requires 0 < trusted.Height() <= lower.Height() && lower.Height() + 2 <= upper.Height() <= target.Height()
      modifies this`queries
      ensures asked' == asked + [Pivot(lower.Height(), upper.Height())] && queries == q + |asked'|
      ensures AllNeeded(env, params, now, source, trusted, target, q, asked')
      ensures interim == env.fetch(q + |asked|, source, asked'[|asked|])
      ensures interim.Some? ==>
                && interim.value.Height() == asked'[|asked|]
                && Answered(env, source, q, asked', |asked'|, interim.value)
      ensures forall b :: Answered(env, source, q, asked, |asked|, b) ==>
                Answered(env, source, q, asked', |asked'|, b)
    {
      hide Verify, AllNeeded, Answered;
      var pivot := Pivot(lower.Height(), upper.Height());
      NeededGrows(env, params, now, source, trusted, target, q, asked, pivot, lower, upper);
      interim := Fetch(source, pivot);
      asked' := asked + [pivot];
      if interim.Some? {
        AnsweredGrows(env, source, q, asked, pivot, interim.value);
      }
      forall b | Answered(env, source, q, asked, |asked|, b) ensures Answered(env, source, q, asked', |asked'|, b) {
        AnsweredGrows(env, source, q, asked, pivot, b);
      }
    }

    // ---- providers ----

    method ReplacePrimaryProvider() returns (ok: bool)
      modifies this`primary, this`witnesses
      ensures ok <==> |old(witnesses)| > 1
      ensures ok ==> [primary] + witnesses == old(witnesses)
      ensures !ok ==> witnesses == old(witnesses) && primary == old(primary)
    {
      if |witnesses| <= 1 {
        return false;
      }
      primary, witnesses := witnesses[0], witnesses[1..];
      return true;
    }

    /** The primary, and the witnesses that may replace it, in order. */
    function Providers(): seq<Provider>
      reads this
    {
      [primary] + witnesses
    }

    /**
     The block of the first provider that answers, which is then the primary; none if all of them but the
     last witness failed to answer.
     */
    method LightBlockFromPrimary(height: int) returns (r: Option<LightBlock>)
      modifies this`primary, this`witnesses, this`queries
      ensures |witnesses| <= |old(witnesses)|
      ensures var dropped := |old(witnesses)| - |witnesses|;
              && Providers() == old(Providers())[dropped..] && queries == old(queries) + dropped + 1
              && Silent(env, old(Providers())[..dropped], old(queries), height)
      ensures r == env.fetch(queries - 1, primary, height)
      ensures r.None? ==> |witnesses| <= 1
      ensures r.Some? ==> Fetched(env, r.value)
      ensures AnswersAsked(env) && r.Some? && height != 0 ==> r.value.Height() == height
      decreases |witnesses|
    {
      ghost var all, q := Providers(), queries;
      hide Silent;
      NoneSilent(env, q, height);
      r := Fetch(primary, height);
      if r.None? {
        var replaced := ReplacePrimaryProvider();
        if replaced {
          assert Providers() == all[1..];
          r := LightBlockFromPrimary(height);
          ghost var dropped := |old(witnesses)| - |witnesses|;
          SilentFirst(env, all[0], all[1..][..dropped - 1], q, height);
          assert [all[0]] + all[1..][..dropped - 1] == all[..dropped];
        }
      }
    }

    /** Replace the primary and ask the new one for a block with the target's header. */
    method RetryTarget(target: LightBlock) returns (r: Option<LightBlock>)
      modifies this`primary, this`witnesses, this`queries
      ensures r.Some? ==> |witnesses| < |old(witnesses)| && r.value.Head() == target.Head() && Fetched(env, r.value)
      ensures |witnesses| <= |old(witnesses)| && queries >= old(queries)
      ensures r.None? ==> NoReplacement(env, target, old(queries), queries, |witnesses|)
    {
      var replaced := ReplacePrimaryProvider();
      if !replaced {
        return None;
      }
      r := LightBlockFromPrimary(target.Height());
      ghost var last := queries - 1;
      assert r == env.fetch(last, primary, target.Height());
      if r.Some? && r.value.Head() != target.Head() {
        r := None;
      }
    }

    // ---- divergence ----

    /** Follow a trace with another provider's blocks, up to the first block whose header differs. */
    method ExamineConflictingHeaderAgainstTrace(trace: seq<LightBlock>, source: Provider, now: int)
      returns (r: Examined)
      requires AnswersAsked(env) && |trace| > 0
      requires forall i :: 0 <= i < |trace| ==> trace[i].Height() > 0
      modifies this`queries
      ensures queries >= old(queries)
      ensures r.Bifurcation? ==> Parts(trace, r.trace, r.block, env, params, now)
      ensures r.NoBifurcation? ==> NoParting(trace, source, old(queries), queries, env, params, now)
    {
      hide Verify, FetchedInside, Chain, SkipFails, AllNeeded, Answered;
      ghost var agreed, hops := [], [];
      var previous := trace[0];
      var idx := 0;
      while idx < |trace|
        invariant idx <= |trace| && queries >= old(queries)
        invariant Agrees(trace, idx, agreed, hops, env, params, now)
        invariant idx > 0 ==> previous == agreed[idx - 1]
      {
        ghost var asked := queries;
        var fetched := Fetch(source, trace[idx].Height());
        if fetched.None? {
          assert BreaksOff(trace, idx, agreed, source, old(queries), queries, env, params, now);
          return NoBifurcation;
        }
        var block := fetched.value;
        if idx == 0 {
          if block.Head() != trace[0].Head() {
            assert BreaksOff(trace, idx, agreed, source, old(queries), queries, env, params, now);
            return NoBifurcation;
          }
          agreed, hops := [block], [[]];
        } else {
          var skip := SkipTo(source, previous, block, now);
          if skip.Failed? {
            SkipFailsLonger(env, params, now, source, asked + 1, old(queries), queries, previous, block);
            assert BreaksOff(trace, idx, agreed, source, old(queries), queries, env, params, now);
            return NoBifurcation;
          }
          if block.Head() != trace[idx].Head() {
            assert PartsAt(trace, skip.trace, idx, agreed, hops, env, params, now);
            return Bifurcation(skip.trace, trace[idx]);
          }
          agreed, hops := agreed + [block], hops + [skip.trace];
        }
        previous := block;
        idx := idx + 1;
      }
      return NoBifurcation;
    }

    /** Bisection, with the reason for a failure. */
    method SkipTo(source: Provider, trusted: LightBlock, target: LightBlock, now: int) returns (r: Skip)
      requires AnswersAsked(env) && trusted.Height() > 0
      modifies this`queries
      ensures queries >= old(queries)
      ensures r.Traced? ==> ValidTrace(r.trace, trusted, target, params, now) && FetchedInside(r.trace, env)
      ensures r.Failed? ==> SkipFails(env, params, now, source, old(queries), queries, trusted, target)
    {
      hide Verify, Chain, FetchedInside, AllNeeded, Answered;
      ghost var stuck, asked;
      r, stuck, asked := VerifySkipping(source, trusted, target, now);
      if r == Failed(FetchFailed) {
        LastUnanswered(env, params, now, source, trusted, target, old(queries), asked);
      } else if r.Failed? {
        if stuck[|stuck| - 1] != target {
          AnsweredIsSent(env, source, old(queries), asked, stuck[|stuck| - 1]);
        }
        assert FailsForGood(env, params, now, source, old(queries), queries, trusted, target);
      }
    }

    /** Remove one witness: the last one takes its place. */
    method RemoveWitness(idx: nat)
      requires idx < |witnesses|
      modifies this`witnesses
      ensures |witnesses| == |old(witnesses)| - 1
      ensures witnesses[..idx] == old(witnesses)[..idx]
      ensures multiset(witnesses[idx..]) == multiset(old(witnesses)[idx + 1..])
    {
      var n := |witnesses|;
      if n == 1 {
        witnesses := [];
      } else {
        var last := witnesses[n - 1];
        witnesses := witnesses[idx := last][..n - 1];
        if idx < n - 1 {
          assert witnesses[idx..] == [last] + old(witnesses)[idx + 1..n - 1];
          assert old(witnesses)[idx + 1..] == old(witnesses)[idx + 1..n - 1] + [last];
        }
      }
    }

    /** Remove the witnesses at the given positions, highest position first. */
    method RemoveWitnesses(positions: set<nat>)
      requires forall i :: i in positions ==> i < |witnesses|
      modifies this`witnesses
      ensures multiset(witnesses) == multiset(Others(old(witnesses), positions))
      ensures |witnesses| <= |old(witnesses)|
    {
      var i := |witnesses|;
      assert witnesses[..i] == witnesses && witnesses[i..] == [];
      while i > 0
        invariant 0 <= i <= |witnesses| <= |old(witnesses)|
        invariant witnesses[..i] == old(witnesses)[..i]
        invariant multiset(Others(old(witnesses), positions)) ==
            multiset(Others(old(witnesses)[..i], positions)) + multiset(witnesses[i..])
      {
        i := i - 1;
        ghost var was := witnesses;
        OthersStep(old(witnesses), was, i, positions);
        if i in positions {
          RemoveWitness(i);
        }
      }
      assert witnesses == witnesses[i..];
    }

    /**
     Compare the end of a verified trace with what the witnesses sent. An attack is reported only when
     some witness's blocks part from the trace; otherwise the trace is accepted exactly on a match, and
     exactly the witnesses whose blocks were invalid or could not be verified are removed.
     */
    method DetectDivergence(trace: seq<LightBlock>, now: int) returns (r: Outcome)
      requires AnswersAsked(env)
      requires forall i :: 0 <= i < |trace| ==> trace[i].Height() > 0
      modifies this`queries, this`witnesses
      ensures |witnesses| <= |old(witnesses)| && queries >= old(queries)
      ensures |trace| < 2 ==> r == Rejected(SingleBlockTrace) && witnesses == old(witnesses)
      ensures |trace| >= 2 && |old(witnesses)| == 0 ==> r == Rejected(NoWitnesses) && witnesses == old(witnesses)
      ensures |trace| >= 2 && |old(witnesses)| > 0 && r != Rejected(Attack) ==>
                var replies := env.replies(old(queries), |old(witnesses)|);
                && r == (if Match in replies then Accepted else Rejected(NotCrossReferenced))
                && multiset(witnesses) == multiset(Others(old(witnesses), Offenders(replies)))
                && ClearedUpTo(trace, old(witnesses), replies, |replies|, old(queries), queries, env, params, now)
      ensures r == Rejected(Attack) ==>
                && (exists b, i :: Conflict(i, b) in env.replies(old(queries), |old(witnesses)|))
                && witnesses == old(witnesses) && exists other, block :: Parts(trace, other, block, env, params, now)
    {
      if |trace| < 2 {
        return Rejected(SingleBlockTrace);
      }
      if |witnesses| == 0 {
        return Rejected(NoWitnesses);
      }
      hide Parts, RepliesOk, ClearedUpTo, Offenders, Others;
      var attack, headerMatched, toRemove := HandleReplies(trace, env.replies(queries, |witnesses|), now);
      if attack {
        return Rejected(Attack);
      }
      RemoveWitnesses(toRemove);
      return if headerMatched then Accepted else Rejected(NotCrossReferenced);
    }

    /** Go through what the witnesses sent, until an attack shows. */
    method HandleReplies(trace: seq<LightBlock>, replies: seq<Reply>, now: int)
      returns (attack: bool, headerMatched: bool, toRemove: set<nat>)
      requires AnswersAsked(env) && |trace| > 0 && RepliesOk(replies, |witnesses|)
      requires forall i :: 0 <= i < |trace| ==> trace[i].Height() > 0
      modifies this`queries
      ensures queries >= old(queries)
      ensures attack ==>
                && (exists b, i :: Conflict(i, b) in replies)
                && exists other, block :: Parts(trace, other, block, env, params, now)
      ensures !attack ==>
                && (headerMatched <==> Match in replies)
                && toRemove == Offenders(replies) && (forall j :: j in toRemove ==> j < |witnesses|)
                && ClearedUpTo(trace, witnesses, replies, |replies|, old(queries), queries, env, params, now)
    {
      hide Parts, Cleared, ClearedUpTo, Offenders, RepliesOk, AnswersAsked;
      var i := 0;
      attack, headerMatched, toRemove := false, false, {};
      assert replies[..0] == [];
      NoOffenders();
      NotConflicting(trace, witnesses, replies, 0, queries, queries, env, params, now);
      while i < |replies|
        invariant i <= |replies| && queries >= old(queries)
        invariant ClearedUpTo(trace, witnesses, replies, i, old(queries), queries, env, params, now)
        invariant headerMatched <==> Match in replies[..i]
        invariant toRemove == Offenders(replies[..i]) && forall j :: j in toRemove ==> j < |witnesses|
      {
        assert replies[..i + 1] == replies[..i] + [replies[i]];
        OffendersStep(replies[..i], replies[i]);
        NotConflicting(trace, witnesses, replies, i, old(queries), queries, env, params, now);
        match replies[i] {
        case Match =>
          headerMatched := true;
        case Conflict(index, _) =>
          ComplaintInRange(replies, |witnesses|, i);
          ghost var asked := queries;
          attack := ExamineWitness(trace, index, now);
          if attack {
            assert replies[i] in replies;
            return;
          }
          AllCleared(trace, witnesses, replies, i, old(queries), asked, queries, env, params, now);
          toRemove := toRemove + {index};
        case Bad(index, invalidBlock) =>
          ComplaintInRange(replies, |witnesses|, i);
          if invalidBlock {
            toRemove := toRemove + {index};
          }
        }
        i := i + 1;
      }
      assert replies[..|replies|] == replies;
    }

    /** Ask a witness with a conflicting header for its blocks. */
    method ExamineWitness(trace: seq<LightBlock>, index: nat, now: int) returns (attack: bool)
      requires AnswersAsked(env) && |trace| > 0 && index < |witnesses|
      requires forall i :: 0 <= i < |trace| ==> trace[i].Height() > 0
      modifies this`queries
      ensures queries >= old(queries)
      ensures attack ==> exists other, block :: Parts(trace, other, block, env, params, now)
      ensures !attack ==> Cleared(trace, witnesses, index, old(queries), queries, env, params, now)
    {
      hide Parts, NoParting;
      var examined := ExamineConflictingHeaderAgainstTrace(trace, witnesses[index], now);
      if examined.Bifurcation? {
        ReverseExamination(trace, examined.trace, examined.block, now);
        return true;
      }
      return false;
    }

    /** Follow the witness's trace with the primary's blocks; the primary may be the one that is right. */
    method ReverseExamination(trace: seq<LightBlock>, other: seq<LightBlock>, block: LightBlock, now: int)
      requires AnswersAsked(env) && Parts(trace, other, block, env, params, now)
      requires forall i :: 0 <= i < |trace| ==> trace[i].Height() > 0
      modifies this`queries
      ensures queries >= old(queries)
    {
      OtherTracePositive(trace, other, block, env, params, now);
      var _ := ExamineConflictingHeaderAgainstTrace(other, primary, now);
    }

    // ---- verification against the primary ----

    /** The witnesses decide about a verified trace. */
    method CrossReference(trace: seq<LightBlock>, trusted: LightBlock, target: LightBlock, now: int)
      returns (r: Outcome)
      requires AnswersAsked(env) && Establishes(trace, trusted, target, env, params, now) && trusted.Height() > 0
      modifies this`queries, this`witnesses
      ensures queries >= old(queries) && |witnesses| <= |old(witnesses)|
      ensures r.Accepted? ==> Confirmed(env, old(queries), queries)
      ensures r.Rejected? ==>
                Refused(env, params, now, trusted, target, r.why, old(queries), queries, |witnesses|)
    {
      hide Verify, Establishes, Parts;
      EstablishedFacts(trace, trusted, target, env, params, now);
      ghost var n := |witnesses|;
      r := DetectDivergence(trace, now);
      if r != Rejected(Attack) && n > 0 {
        assert Match in env.replies(old(queries), n) || Match !in env.replies(old(queries), n);
      }
      if r == Rejected(Attack) {
        ghost var other, block :| Parts(trace, other, block, env, params, now);
        assert Attacked(env, params, now, trusted, target);
      }
    }

    method VerifySkippingAgainstPrimary(trusted: LightBlock, target: LightBlock, now: int)
      returns (r: Outcome, ghost trace: seq<LightBlock>)
      requires AnswersAsked(env) && trusted.Height() > 0 && Fetched(env, target)
      modifies this`primary, this`witnesses, this`queries
      ensures queries >= old(queries) && |witnesses| <= |old(witnesses)|
      ensures r.Accepted? ==> Establishes(trace, trusted, target, env, params, now)
      ensures r.Accepted? ==> Confirmed(env, old(queries), queries)
      ensures r.Rejected? ==>
                Refused(env, params, now, trusted, target, r.why, old(queries), queries, |witnesses|)
      decreases |witnesses|
    {
      hide Verify, AllNeeded, Answered, Chain, Confirmed, Refused, Establishes;
      trace := [];
      var skip, stuck, asked := VerifySkipping(primary, trusted, target, now);
      match skip
      case Traced(found) =>
        trace := found;
        TraceEstablishes(found, trusted, target, env, params, now);
        ghost var q := queries;
        r := CrossReference(found, trusted, target, now);
        Later(env, params, now, trusted, target, r, old(queries), q, queries, |witnesses|);
      case Failed(why) =>
        r := Rejected(why);
        SkipRefused(env, params, now, primary, trusted, target, why, old(queries), asked, stuck);
        if why.VerificationFailed? && why.reason.InvalidHeader? && why.to != target.Height() {
          ghost var q := queries;
          var replacement := RetryTarget(target);
          if replacement.Some? {
            ghost var q' := queries;
            r, trace := VerifySkippingAgainstPrimary(trusted, replacement.value, now);
            SameTarget(env, params, now, trusted, replacement.value, target, trace, r, q', queries, |witnesses|);
            Later(env, params, now, trusted, target, r, old(queries), q', queries, |witnesses|);
          } else {
            NotReplaced(env, params, now, trusted, target, why, old(queries), q, queries, |witnesses|);
          }
        } else {
          FailedOtherwise(env, params, now, trusted, target, why, old(queries), queries, |witnesses|);
        }
    }

    /** The next block of a sequential verification: the target itself at its height, else from the primary. */
    method InterimBlock(height: int, trusted: LightBlock, target: LightBlock, now: int) returns (b: Option<LightBlock>)
      requires AnswersAsked(env) && 0 < trusted.Height() < height <= target.Height() && Fetched(env, target)
      modifies this`primary, this`witnesses, this`queries
      ensures queries >= old(queries) && |witnesses| <= |old(witnesses)|
      ensures b.None? ==> Refused(env, params, now, trusted, target, FetchFailed, old(queries), queries, |witnesses|)
      ensures b.Some? ==>
                && b.value.Height() == height && Fetched(env, b.value)
                && if height == target.Height() then b.value == target
                   else SentToClient(env, old(queries), queries, b.value)
    {
      if height == target.Height() {
        return Some(target);
      }
      hide Refused;
      b := LightBlockFromPrimary(height);
      if b.None? {
        NotFetched(env, params, now, trusted, target, old(queries), queries, |witnesses|, primary, height);
      } else {
        WasSent(env, old(queries), queries, primary, height, b.value);
      }
    }

    method VerifySequential(trusted: LightBlock, target: LightBlock, now: int)
      returns (r: Outcome, ghost trace: seq<LightBlock>)
      requires AnswersAsked(env) && trusted.Height() > 0 && Fetched(env, target)
      modifies this`primary, this`witnesses, this`queries
      ensures queries >= old(queries) && |witnesses| <= |old(witnesses)|
      ensures r.Accepted? ==> Establishes(trace, trusted, target, env, params, now)
      ensures r.Accepted? ==> forall i :: 0 <= i < |trace| ==> trace[i].Height() == trusted.Height() + i
      ensures r.Accepted? ==> Confirmed(env, old(queries), queries)
      ensures r.Rejected? ==>
                Refused(env, params, now, trusted, target, r.why, old(queries), queries, |witnesses|)
    {
      hide Verify, Refused, Confirmed, FailsAt, NoReplacement, Silent;
      var verified := trusted;
      var path := [trusted];
      var height := trusted.Height() + 1;
      trace := [];
      while height <= target.Height()
        invariant verified.Height() == height - 1 && height > trusted.Height()
        invariant height <= target.Height() + 1 || (height == trusted.Height() + 1 && verified == trusted)
        invariant |path| == height - trusted.Height() && path[0] == trusted && path[|path| - 1] == verified
        invariant Chain(path, params, now) && (forall i :: 0 < i < |path| ==> Fetched(env, path[i]))
        invariant forall i :: 0 <= i < |path| ==> path[i].Height() == trusted.Height() + i
        invariant height == target.Height() + 1 && |path| > 1 ==> verified == target
        invariant queries >= old(queries) && |witnesses| <= |old(witnesses)|
        decreases target.Height() - height, |witnesses|
      {
        ghost var q := queries;
        var next := InterimBlock(height, trusted, target, now);
        if next.None? {
          Later(env, params, now, trusted, target, Rejected(FetchFailed), old(queries), q, queries, |witnesses|);
          return Rejected(FetchFailed), [];
        }
        var interim := next.value;
        var verdict := VerifyAdjacent(verified.signed, interim.signed, interim.vals, params, now);
        if !verdict.Verified? {
          var failure := VerificationFailed(verified.Height(), interim.Height(), verdict);
          AdjacentStuck(path, interim, params, now);
          BlockRefused(env, params, now, trusted, target, path + [interim], failure, q, queries);
          FailsAtLonger(env, params, now, trusted, target, failure, old(queries), q, queries, queries);
          if !verdict.InvalidHeader? || interim.Height() == target.Height() {
            FailedOtherwise(env, params, now, trusted, target, failure, old(queries), queries, |witnesses|);
            return Rejected(failure), [];
          }
          ghost var q' := queries;
          var replacement := RetryTarget(target);
          if replacement.None? {
            NotReplaced(env, params, now, trusted, target, failure, old(queries), q', queries, |witnesses|);
            return Rejected(failure), [];
          }
        } else {
          AdjacentVerified(verified, interim, params, now);
          path := path + [interim];
          verified := interim;
          height := height + 1;
        }
      }
      trace := path;
      if |path| < 2 {
        r := DetectDivergence(path, now);
        NothingAbove(env, params, now, trusted, target, old(queries), queries, |witnesses|);
      } else {
        ghost var q := queries;
        r := CrossReference(path, trusted, target, now);
        Later(env, params, now, trusted, target, r, old(queries), q, queries, |witnesses|);
      }
    }

    // ---- the store ----

    /** Keep only the `n` highest blocks. */
    method Prune(n: nat)
      requires size == |store|
      modifies this`store, this`size
      ensures KeepsHighest(old(store), store)
      ensures size == |store| == if |old(store)| <= n then |old(store)| else n
    {
      if size <= n {
        return;
      }
      var numToPrune := size - n;
      while numToPrune > 0
        invariant 0 <= numToPrune && |store| == n + numToPrune
        invariant KeepsHighest(old(store), store)
      {
        ghost var least := HasLowest(store);
        assert exists h :: Lowest(store, h);
        var h :| Lowest(store, h);
        ghost var was := store;
        store := store - {h};
        assert store.Keys == was.Keys - {h};
        assert |store.Keys| == |store| && |was.Keys| == |was|;
        numToPrune := numToPrune - 1;
      }
      size := n;
    }

    method UpdateTrustedLightBlock(l: LightBlock)
      requires Valid() && l.Height() > 0 && l.Height() !in store
      modifies this`store, this`size, this`latest
      ensures Valid() && latest == if l.Height() > old(latest.Height()) then l else old(latest)
      ensures KeepsHighest(old(store)[l.Height() := l], store)
      ensures |store| == if pruningSize > 0 && |old(store)| + 1 > pruningSize then pruningSize else |old(store)| + 1
    {
      ghost var top := if l.Height() > latest.Height() then l.Height() else latest.Height();
      store := store[l.Height() := l];
      assert store.Keys == old(store.Keys) + {l.Height()};
      assert |store.Keys| == |store| && |old(store.Keys)| == |old(store)|;
      size := size + 1;
      ghost var full := store;
      assert Highest(full, top);
      if pruningSize > 0 {
        Prune(pruningSize);
        TopKept(full, store, top);
      }
      if l.Height() > latest.Height() {
        latest := l;
      }
    }

    /** The highest stored block below a height. */
    method LightBlockBefore(height: int) returns (b: LightBlock)
      requires exists g :: g in store && g < height
      ensures exists h :: HighestBelow(store, height, h) && b == store[h]
    {
      ghost var _ := HasHighestBelow(store, height);
      assert exists h :: HighestBelow(store, height, h);
      var h :| HighestBelow(store, height, h);
      b := store[h];
    }

    /** The stored block to start from: the latest one, or the closest one below; none below the whole store. */
    method ClosestTrusted(height: int) returns (b: Option<LightBlock>)
      requires Valid() && height !in store
      ensures b.None? <==> forall g :: g in store ==> height < g
      ensures b.Some? ==> HighestBelow(store, height, b.value.Height()) && store[b.value.Height()] == b.value
    {
      if height >= latest.Height() {
        return Some(latest);
      }
      if forall g :: g in store ==> height < g {
        return None;
      }
      assert exists g :: g in store && g < height;
      var closest := LightBlockBefore(height);
      return Some(closest);
    }

    // ---- requests ----

    /** What was asked of the store and of the trust assumption, before and after one request. */
    twostate predicate Kept(w: World, now: int)
      reads this
    {
      && Valid()
      && (TrustHolds(w, env, params, now) && old(StoreTrusted(w)) ==> StoreTrusted(w))
      && latest.Height() >= old(latest.Height())
    }

    method RunVerification(trusted: LightBlock, target: LightBlock, now: int)
      returns (r: Outcome, ghost trace: seq<LightBlock>)
      requires AnswersAsked(env) && trusted.Height() > 0 && Fetched(env, target)
      modifies this`primary, this`witnesses, this`queries
      ensures queries >= old(queries)
      ensures Judged(env, params, now, trusted, target, sequential, trace, r, old(queries), queries, |witnesses|)
    {
      hide Establishes, Confirmed, Refused;
      if sequential {
        r, trace := VerifySequential(trusted, target, now);
      } else {
        r, trace := VerifySkippingAgainstPrimary(trusted, target, now);
      }
    }

    /**
     Verify a block the primary provided and save it. It is saved exactly when it is accepted, and then
     a verified trace leads to its header from the closest block below it in the store.
     */
    method VerifyLightBlock(l: LightBlock, now: int, ghost w: World) returns (r: Outcome, ghost trace: seq<LightBlock>)
      requires Valid() && Fetched(env, l) && l.Height() > 0 && l.Height() !in store
      modifies this
      ensures Kept(w, now) && queries >= old(queries)
      ensures Decided(env, params, now, old(store), l, sequential, trace, r, old(queries), queries, |witnesses|)
      ensures SavedIfAccepted(old(store), l, r, pruningSize, store)
      ensures latest == if r.Accepted? && l.Height() > old(latest.Height()) then l else old(latest)
    {
      hide Verify, Judged, Establishes, TrustHolds;
      var closest := ClosestTrusted(l.Height());
      if closest.None? {
        return Rejected(Backwards), [];
      }
      var trusted := closest.value;
      r, trace := RunVerification(trusted, l, now);
      assert HighestBelow(store, l.Height(), trusted.Height()) && store[trusted.Height()] == trusted;
      if r.Accepted? {
        JudgedTrusted(w, env, params, now, store, trusted, l, sequential, trace, old(queries), queries, |witnesses|);
        UpdateTrustedLightBlock(l);
        KeptTrusted(w, old(store), l, store);
      }
    }

    /** A stored block is returned as it is; another one is fetched and verified first. */
    method VerifyLightBlockAtHeight(height: int, now: int, ghost w: World) returns (r: Outcome)
      requires Valid()
      modifies this
      ensures Kept(w, now) && queries >= old(queries)
      ensures height <= 0 ==> r == Rejected(BadHeight) && store == old(store)
      ensures height > 0 && height in old(store) ==> r == Accepted && store == old(store)
      ensures height > 0 && height !in old(store) ==>
                || (r == Rejected(FetchFailed) && store == old(store)
                    && NoneAnswered(env, height, queries, primary, |witnesses|))
                || exists l: LightBlock :: Answers(env, params, now, old(store), height, l, sequential, pruningSize, r,
                                       old(queries), queries, |witnesses|, store)
    {
      hide Answers, NoneAnswered, SentToClient, TrustHolds, AllTrusted;
      if height <= 0 {
        return Rejected(BadHeight);
      }
      if height in store {
        return Accepted;
      }
      ghost var l;
      r, l := FetchAndVerify(height, None, now, w);
    }

    /** Accepts a header only if it is the stored one or the one verified now; while trust holds it is canonical. */
    method VerifyHeader(header: Header, now: int, ghost w: World) returns (r: Outcome)
      requires Valid()
      modifies this
      ensures Kept(w, now) && queries >= old(queries)
      ensures header.height <= 0 ==> r == Rejected(BadHeight) && store == old(store)
      ensures header.height > 0 && header.height in old(store) ==>
                && store == old(store)
                && r == if old(store)[header.height].Head() == header then Accepted else Rejected(HeaderMismatch)
      ensures header.height > 0 && header.height !in old(store) ==>
                || (r == Rejected(FetchFailed) && store == old(store)
                    && NoneAnswered(env, header.height, queries, primary, |witnesses|))
                || (r == Rejected(HeaderMismatch) && store == old(store)
                    && exists l: LightBlock ::
                         && SentToClient(env, old(queries), queries, l)
                         && l.Height() == header.height && l.Head() != header)
                || exists l: LightBlock :: l.Head() == header
                     && Answers(env, params, now, old(store), header.height, l, sequential, pruningSize, r,
                                old(queries), queries, |witnesses|, store)
      ensures r.Accepted? && TrustHolds(w, env, params, now) && old(StoreTrusted(w)) ==> IsCanonical(w, header)
    {
      hide Answers, NoneAnswered, SentToClient, TrustHolds;
      if header.height <= 0 {
        return Rejected(BadHeight);
      }
      if header.height in store {
        return if store[header.height].Head() == header then Accepted else Rejected(HeaderMismatch);
      }
      ghost var l;
      r, l := FetchAndVerify(header.height, Some(header), now, w);
    }

    /** Fetch the block of a height that is not stored, and verify it if it has the header wanted. */
    method FetchAndVerify(height: int, wanted: Option<Header>, now: int, ghost w: World)
      returns (r: Outcome, ghost l: Option<LightBlock>)
      requires Valid() && height > 0 && height !in store
      modifies this
      ensures Kept(w, now) && queries >= old(queries)
      ensures l.None? ==>
                && r == Rejected(FetchFailed) && store == old(store)
                && NoneAnswered(env, height, queries, primary, |witnesses|)
      ensures l.Some? ==> SentToClient(env, old(queries), queries, l.value) && l.value.Height() == height
      ensures l.Some? ==>
                if wanted.Some? && l.value.Head() != wanted.value then
                  r == Rejected(HeaderMismatch) && store == old(store)
                else Answers(env, params, now, old(store), height, l.value, sequential, pruningSize, r,
                             old(queries), queries, |witnesses|, store)
      ensures l.Some? && r.Accepted? && TrustHolds(w, env, params, now) && old(StoreTrusted(w)) ==>
                IsCanonical(w, l.value.Head())
    {
      hide Decided, SavedIfAccepted, Answers, TrustHolds, Silent, NoneAnswered, SentToClient, AllTrusted;
      var fetched := LightBlockFromPrimary(height);
      l := fetched;
      if fetched.None? {
        NoAnswer(env, height, queries, primary, |witnesses|);
        return Rejected(FetchFailed), l;
      }
      ghost var q := queries;
      WasSent(env, old(queries), q, primary, height, fetched.value);
      if wanted.Some? && fetched.value.Head() != wanted.value {
        return Rejected(HeaderMismatch), l;
      }
      ghost var trace;
      r, trace := VerifyLightBlock(fetched.value, now, w);
      SentBefore(env, old(queries), q, queries, fetched.value);
      BlockAnswers(env, params, now, old(store), height, fetched.value, sequential, pruningSize, trace, r,
                   old(queries), q, queries, |witnesses|, store);
      if r.Accepted? && TrustHolds(w, env, params, now) && old(StoreTrusted(w)) {
        DecidedTrusted(w, env, params, now, old(store), fetched.value, sequential, trace, q, queries, |witnesses|);
      }
    }

    /** Move to the primary's latest block if it is above the store. */
    method Update(now: int, ghost w: World) returns (r: Outcome)
      requires Valid()
      modifies this
      ensures Kept(w, now) && queries >= old(queries)
      ensures || (r == Rejected(FetchFailed) && store == old(store)
                  && NoneAnswered(env, 0, queries, primary, |witnesses|))
              || (r == Accepted && store == old(store)
                  && exists l: LightBlock ::
                       SentToClient(env, old(queries), queries, l) && l.Height() <= latest.Height())
              || exists l: LightBlock :: l.Height() > old(latest.Height())
                   && Answers(env, params, now, old(store), 0, l, sequential, pruningSize, r,
                              old(queries), queries, |witnesses|, store)
    {
      hide Answers, NoneAnswered, SentToClient, TrustHolds, AllTrusted;
      ghost var l;
      r, l := FetchLatest(now, w);
    }

    /** Fetch the primary's latest block, and verify it if it is above the store. */
    method FetchLatest(now: int, ghost w: World) returns (r: Outcome, ghost l: Option<LightBlock>)
      requires Valid()
      modifies this
      ensures Kept(w, now) && queries >= old(queries)
      ensures l.None? ==>
                && r == Rejected(FetchFailed) && store == old(store)
                && NoneAnswered(env, 0, queries, primary, |witnesses|)
      ensures l.Some? ==> SentToClient(env, old(queries), queries, l.value)
      ensures l.Some? ==>
                if l.value.Height() <= old(latest.Height()) then
                  r == Accepted && store == old(store) && latest == old(latest)
                else Answers(env, params, now, old(store), 0, l.value, sequential, pruningSize, r,
                             old(queries), queries, |witnesses|, store)
    {
      hide Decided, SavedIfAccepted, Answers, TrustHolds, Silent, NoneAnswered, SentToClient, AllTrusted;
      var fetched := LightBlockFromPrimary(0);
      l := fetched;
      if fetched.None? {
        NoAnswer(env, 0, queries, primary, |witnesses|);
        return Rejected(FetchFailed), l;
      }
      ghost var q := queries;
      WasSent(env, old(queries), q, primary, 0, fetched.value);
      if fetched.value.Height() <= latest.Height() {
        return Accepted, l;
      }
      ghost var trace;
      r, trace := VerifyLightBlock(fetched.value, now, w);
      SentBefore(env, old(queries), q, queries, fetched.value);
      BlockAnswers(env, params, now, old(store), 0, fetched.value, sequential, pruningSize, trace, r,
                   old(queries), q, queries, |witnesses|, store);
    }

    /** Any sequence of requests at times while trust holds keeps every stored block canonical. */
    method Serve(requests: seq<(Request, int)>, ghost w: World)
      requires Valid() && StoreTrusted(w)
      requires forall i :: 0 <= i < |requests| ==> TrustHolds(w, env, params, requests[i].1)
      modifies this
      ensures Valid() && StoreTrusted(w) && latest.Height() >= old(latest.Height())
    {
      hide Verify, TrustHolds;
      for i := 0 to |requests|
        invariant Valid() && StoreTrusted(w) && latest.Height() >= old(latest.Height())
      {
        var now := requests[i].1;
        match requests[i].0
        case AtHeight(height) => var _ := VerifyLightBlockAtHeight(height, now, w);
        case ForHeader(header) => var _ := VerifyHeader(header, now, w);
        case Latest => var _ := Update(now, w);
      }
    }
  }

  lemma WasSent(env: Env, q0: nat, q1: nat, source: Provider, height: int, b: LightBlock)
    requires q0 < q1 && env.fetch(q1 - 1, source, height) == Some(b)
    ensures SentToClient(env, q0, q1, b)
  {
    var q: nat := q1 - 1;
    assert env.fetch(q, source, height) == Some(b);
  }

  lemma BlockAnswers(env: Env, p: Params, now: int, store: map<int, LightBlock>, height: int, l: LightBlock,
                     sequential: bool, pruningSize: nat, trace: seq<LightBlock>, r: Outcome, q0: nat, q: nat, q1: nat,
                     n: nat, kept: map<int, LightBlock>)
    requires q0 <= q <= q1 && SentToClient(env, q0, q, l) && (height != 0 ==> l.Height() == height)
    requires SavedIfAccepted(store, l, r, pruningSize, kept)
    requires Decided(env, p, now, store, l, sequential, trace, r, q, q1, n)
    ensures Answers(env, p, now, store, height, l, sequential, pruningSize, r, q0, q1, n, kept)
  {
    hide Decided, SavedIfAccepted;
    SentBefore(env, q0, q, q1, l);
  }

  lemma NoAnswer(env: Env, height: int, q1: nat, primary: Provider, n: nat)
    requires n <= 1 && 0 < q1 && env.fetch(q1 - 1, primary, height).None?
    ensures NoneAnswered(env, height, q1, primary, n)
  {
  }

  lemma SentBefore(env: Env, q0: nat, q: nat, q1: nat, b: LightBlock)
    requires SentToClient(env, q0, q, b) && q <= q1
    ensures SentToClient(env, q0, q1, b)
  {
  }

  lemma JudgedTrusted(w: World, env: Env, p: Params, now: int, store: map<int, LightBlock>, trusted: LightBlock,
                      l: LightBlock, sequential: bool, trace: seq<LightBlock>, q0: nat, q1: nat, n: nat)
    requires Judged(env, p, now, trusted, l, sequential, trace, Accepted, q0, q1, n) && Fetched(env, l)
    requires trusted.Height() in store && store[trusted.Height()] == trusted
    ensures TrustHolds(w, env, p, now) && AllTrusted(w, store) ==> Trusted(w, l)
  {
    hide Verify, Fetched;
    if TrustHolds(w, env, p, now) && AllTrusted(w, store) {
      EstablishedTrusted(w, env, trace, trusted, l, p, now);
    }
  }

  lemma DecidedTrusted(w: World, env: Env, p: Params, now: int, store: map<int, LightBlock>, l: LightBlock,
                       sequential: bool, trace: seq<LightBlock>, q0: nat, q1: nat, n: nat)
    requires Decided(env, p, now, store, l, sequential, trace, Accepted, q0, q1, n) && Fetched(env, l)
    requires TrustHolds(w, env, p, now) && AllTrusted(w, store)
    ensures IsCanonical(w, l.Head())
  {
    hide Verify, Fetched, TrustHolds, Judged;
    var h :| HighestBelow(store, l.Height(), h)
             && Judged(env, p, now, store[h], l, sequential, trace, Accepted, q0, q1, n);
    JudgedEstablishes(env, p, now, store[h], l, sequential, trace, q0, q1, n);
    EstablishedTrusted(w, env, trace, store[h], l, p, now);
  }

  lemma JudgedEstablishes(env: Env, p: Params, now: int, trusted: LightBlock, l: LightBlock, sequential: bool,
                          trace: seq<LightBlock>, q0: nat, q1: nat, n: nat)
    requires Judged(env, p, now, trusted, l, sequential, trace, Accepted, q0, q1, n)
    ensures Establishes(trace, trusted, l, env, p, now)
  {
  }

  lemma KeptTrusted(w: World, store: map<int, LightBlock>, l: LightBlock, kept: map<int, LightBlock>)
    requires KeepsHighest(store[l.Height() := l], kept)
    ensures AllTrusted(w, store) && Trusted(w, l) ==> AllTrusted(w, kept)
  {
  }

  lemma TopKept(full: map<int, LightBlock>, kept: map<int, LightBlock>, top: int)
    requires Highest(full, top) && KeepsHighest(full, kept) && |kept| > 0
    ensures Highest(kept, top) && kept[top] == full[top]
  {
    var h := HasLowest(kept);
  }

  lemma AdjacentVerified(a: LightBlock, b: LightBlock, p: Params, now: int)
    requires VerifyAdjacent(a.signed, b.signed, b.vals, p, now).Verified?
    ensures Verify(a, b, p, now).Verified?
  {
  }

  lemma TracePositive(trace: seq<LightBlock>, p: Params, now: int)
    requires Chain(trace, p, now) && |trace| > 0 && trace[0].Height() > 0
    ensures forall i :: 0 <= i < |trace| ==> trace[i].Height() > 0
  {
    forall i | 0 < i < |trace| ensures trace[i].Height() > 0 {
      TraceIncreases(trace, p, now, 0, i);
    }
  }

  lemma OtherTracePositive(trace: seq<LightBlock>, other: seq<LightBlock>, block: LightBlock, env: Env, p: Params,
                           now: int)
    requires Parts(trace, other, block, env, p, now)
    requires forall i :: 0 <= i < |trace| ==> trace[i].Height() > 0
    ensures |other| > 0 && forall i :: 0 <= i < |other| ==> other[i].Height() > 0
  {
    hide Verify;
    var k: nat, agreed: seq<LightBlock>, hops :|
      PartsAt(trace, other, k, agreed, hops, env, p, now) && block == trace[k];
    assert agreed[k - 1].Head() == trace[k - 1].Head();
    TracePositive(other, p, now);
  }

  lemma EstablishedTrusted(w: World, env: Env, trace: seq<LightBlock>, trusted: LightBlock, target: LightBlock,
                           p: Params, now: int)
    requires TrustHolds(w, env, p, now) && Trusted(w, trusted) && Fetched(env, target)
    requires Establishes(trace, trusted, target, env, p, now)
    ensures Trusted(w, target)
  {
    TraceTrusted(w, env, trace, p, now, |trace| - 1);
  }

  lemma OthersStep(all: seq<Provider>, was: seq<Provider>, i: nat, positions: set<nat>)
    requires i < |all| && i < |was| && was[..i + 1] == all[..i + 1]
    ensures was[..i] == all[..i]
    ensures i in positions ==> Others(all[..i + 1], positions) == Others(all[..i], positions)
    ensures i !in positions ==>
              multiset(Others(all[..i + 1], positions)) + multiset(was[i + 1..]) ==
                  multiset(Others(all[..i], positions)) + multiset(was[i..])
  {
    var upTo := all[..i + 1];
    assert upTo[..i] == all[..i] && was[..i + 1][..i] == was[..i];
    assert upTo[i] == was[..i + 1][i] == was[i];
    if i in positions {
      assert Others(upTo, positions) == Others(all[..i], positions);
    } else {
      assert Others(upTo, positions) == Others(all[..i], positions) + [was[i]];
      assert multiset(Others(upTo, positions)) == multiset(Others(all[..i], positions)) + multiset([was[i]]);
      assert was[i..] == [was[i]] + was[i + 1..];
      assert multiset(was[i..]) == multiset([was[i]]) + multiset(was[i + 1..]);
    }
  }

  /** The witnesses at positions not in the set. */
  ghost function Others(ws: seq<Provider>, positions: set<nat>): seq<Provider>
  {
    if ws == [] then []
    else Others(ws[..|ws| - 1], positions) + (if |ws| - 1 in positions then [] else [ws[|ws| - 1]])
  }
}
