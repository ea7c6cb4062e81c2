/**
 Header verification of the light client, and why it is sound.

 Hashes are injective, so a header stands for its own hash and a validator set for its own hash. A
 signature is a record of who signed what; one that does not verify is `Garbage` or a record of
 something else.
 */
module LightVerifier {
  import opened Wrappers
  import opened Quorum

  /** `None` in a hash field is the empty hash. */
  datatype Header = Header(
    chainID: nat,
    height: int,
    time: int,
    validators: Option<ValidatorSet>,
    nextValidators: Option<ValidatorSet>,
    content: nat)

  datatype Signature = Garbage | Signature(signer: Address, block: Header)

  datatype CommitSig = CommitSig(forBlock: bool, address: Address, sig: Signature)

  datatype Commit = Commit(height: int, block: Header, sigs: seq<CommitSig>)

  /** `basicOk` is the outcome of the field checks of the header and the commit on their own. */
  datatype SignedHeader = SignedHeader(header: Header, commit: Commit, basicOk: bool)

  datatype LightBlock = LightBlock(signed: SignedHeader, vals: ValidatorSet)
  {
    function Head(): Header { signed.header }
    function Height(): int { signed.header.height }
  }

  datatype Fraction = Fraction(numerator: nat, denominator: nat)

  datatype Verdict =
    | Verified
    | OldHeaderExpired
    | InvalidHeader
    | NewValSetCantBeTrusted
    | WrongArguments
    | Panicked

  datatype Params = Params(trustingPeriod: int, maxClockDrift: int, trustLevel: Fraction)

  const ZERO_TIME := 0

  // ---- commits ----

  datatype CommitCheck = CommitOk | NotEnoughPower | BadCommit

  predicate SignedBy(v: Address, c: Commit, s: CommitSig)
  {
    s.sig == Signature(v, c.block)
  }

  /** Count the signatures for the block from index `idx` on, validators and signatures matching one to one. */
  function LightTally(vals: ValidatorSet, c: Commit, idx: nat, tally: nat, needed: nat): CommitCheck
    requires |vals| == |c.sigs| && idx <= |vals|
    decreases |vals| - idx
  {
    if idx == |vals| then NotEnoughPower
    else if !c.sigs[idx].forBlock then LightTally(vals, c, idx + 1, tally, needed)
    else if !SignedBy(vals[idx].address, c, c.sigs[idx]) then BadCommit
    else if tally + vals[idx].power > needed then CommitOk
    else LightTally(vals, c, idx + 1, tally + vals[idx].power, needed)
  }

  function VerifyCommitLight(vals: ValidatorSet, height: int, c: Commit): CommitCheck
  {
    if |vals| != |c.sigs| || height != c.height then BadCommit
    else LightTally(vals, c, 0, 0, TotalPower(vals) * 2 / 3)
  }

  /** The position of an address in the set, or -1. */
  function IndexOf(vals: ValidatorSet, v: Address): (i: int)
    ensures -1 <= i < |vals| && (i >= 0 ==> vals[i].address == v)
    ensures forall j :: 0 <= j < (if i < 0 then |vals| else i) ==> vals[j].address != v
  {
    if vals == [] then -1
    else if vals[0].address == v then 0
    else var i := IndexOf(vals[1..], v); if i < 0 then -1 else i + 1
  }

  /**
   Count the signatures of known validators for the block from index `idx` on; `seen` holds the positions already
   counted.
   */
  function TrustingTally(vals: ValidatorSet, c: Commit, idx: nat, seen: set<int>, tally: nat, needed: nat): CommitCheck
    requires idx <= |c.sigs|
    decreases |c.sigs| - idx
  {
    if idx == |c.sigs| then NotEnoughPower
    else
      var i := IndexOf(vals, c.sigs[idx].address);
      if !c.sigs[idx].forBlock || i < 0 then TrustingTally(vals, c, idx + 1, seen, tally, needed)
      else if i in seen then BadCommit
      else if !SignedBy(vals[i].address, c, c.sigs[idx]) then BadCommit
      else if tally + vals[i].power > needed then CommitOk
      else TrustingTally(vals, c, idx + 1, seen + {i}, tally + vals[i].power, needed)
  }

  function VerifyCommitLightTrusting(vals: ValidatorSet, c: Commit, level: Fraction): CommitCheck
  {
    if level.denominator == 0 then BadCommit
    else TrustingTally(vals, c, 0, {}, 0, TotalPower(vals) * level.numerator / level.denominator)
  }

  // ---- headers ----

  predicate ValidTrustLevel(level: Fraction)
  {
    !(level.numerator * 3 < level.denominator || level.numerator > level.denominator || level.denominator == 0)
  }

  predicate HeaderExpired(h: Header, trustingPeriod: int, now: int)
  {
    !(h.time + trustingPeriod > now)
  }

  predicate ValidateBasic(s: SignedHeader, chainID: nat)
  {
    && s.basicOk
    && s.header.chainID == chainID
    && s.commit.height == s.header.height
    && s.commit.block == s.header
  }

  predicate NewHeaderAndValsOk(untrusted: SignedHeader, vals: ValidatorSet, trusted: SignedHeader, now: int,
                               maxClockDrift: int)
  {
    && ValidateBasic(untrusted, trusted.header.chainID)
    && untrusted.header.height > trusted.header.height
    && untrusted.header.time > trusted.header.time
    && untrusted.header.time < now + maxClockDrift
    && untrusted.header.validators == Some(vals)
  }

  predicate RequiredFields(h: Header)
  {
    h.height != 0 && h.time != ZERO_TIME && h.chainID != 0
  }

  function VerifyNonAdjacent(trusted: SignedHeader, trustedVals: ValidatorSet, untrusted: SignedHeader,
                             vals: ValidatorSet,
                             p: Params, now: int): Verdict
  {
    if !RequiredFields(trusted.header) then Panicked
    else if untrusted.header.height == trusted.header.height + 1 then WrongArguments
    else if !ValidTrustLevel(p.trustLevel) then WrongArguments
    else if HeaderExpired(trusted.header, p.trustingPeriod, now) then OldHeaderExpired
    else if !NewHeaderAndValsOk(untrusted, vals, trusted, now, p.maxClockDrift) then InvalidHeader
    else
      match VerifyCommitLightTrusting(trustedVals, untrusted.commit, p.trustLevel)
      case NotEnoughPower => NewValSetCantBeTrusted
      case BadCommit => InvalidHeader
      case CommitOk =>
        if VerifyCommitLight(vals, untrusted.header.height, untrusted.commit).CommitOk? then Verified
        else InvalidHeader
  }

  function VerifyAdjacent(trusted: SignedHeader, untrusted: SignedHeader, vals: ValidatorSet, p: Params,
                          now: int): Verdict
  {
    if !RequiredFields(trusted.header) || trusted.header.nextValidators.None? then Panicked
    else if untrusted.header.height != trusted.header.height + 1 then WrongArguments
    else if HeaderExpired(trusted.header, p.trustingPeriod, now) then OldHeaderExpired
    else if !NewHeaderAndValsOk(untrusted, vals, trusted, now, p.maxClockDrift) then InvalidHeader
    else if untrusted.header.validators != trusted.header.nextValidators then InvalidHeader
    else if VerifyCommitLight(vals, untrusted.header.height, untrusted.commit).CommitOk? then Verified
    else InvalidHeader
  }

  function Verify(trusted: LightBlock, untrusted: LightBlock, p: Params, now: int): Verdict
  {
    if untrusted.Height() != trusted.Height() + 1 then
      VerifyNonAdjacent(trusted.signed, trusted.vals, untrusted.signed, untrusted.vals, p, now)
    else VerifyAdjacent(trusted.signed, untrusted.signed, untrusted.vals, p, now)
  }

  // ---- tallies are power of signers ----

  /** Power of the validators at the positions in `at`, from position `i` on. */
  ghost function PowerAt(vals: ValidatorSet, at: set<int>, i: nat): nat
    decreases |vals| - i
  {
    if i >= |vals| then 0 else (if i in at then vals[i].power else 0) + PowerAt(vals, at, i + 1)
  }

  lemma {:induction false} PowerAtAdd(vals: ValidatorSet, at: set<int>, k: nat, i: nat)
    requires k !in at && k < |vals|
    ensures PowerAt(vals, at + {k}, i) == PowerAt(vals, at, i) + (if i <= k then vals[k].power else 0)
    decreases |vals| - i
  {
    if i < |vals| {
      PowerAtAdd(vals, at, k, i + 1);
    }
  }

  lemma {:induction false} PowerAtEmpty(vals: ValidatorSet, i: nat)
    ensures PowerAt(vals, {}, i) == 0
    decreases |vals| - i
  {
    if i < |vals| {
      PowerAtEmpty(vals, i + 1);
    }
  }

  lemma {:induction false} PowerAtBound(vals: ValidatorSet, at: set<int>, s: set<Address>, i: nat)
    requires i <= |vals|
    requires forall k :: k in at && 0 <= k < |vals| ==> vals[k].address in s
    ensures PowerAt(vals, at, i) <= PowerOf(vals[i..], s)
    decreases |vals| - i
  {
    if i < |vals| {
      PowerAtBound(vals, at, s, i + 1);
      assert vals[i..][1..] == vals[i + 1..];
    }
  }

  /** The addresses whose signature on the committed block is in the commit. */
  ghost function Signers(c: Commit): set<Address>
  {
    set i | 0 <= i < |c.sigs| && c.sigs[i].sig.Signature? && c.sigs[i].sig.block == c.block :: c.sigs[i].sig.signer
  }

  lemma {:induction false} LightTallySound(vals: ValidatorSet, c: Commit, idx: nat, tally: nat, needed: nat,
                                           at: set<int>)
    requires |vals| == |c.sigs| && idx <= |vals|
    requires forall k :: k in at ==> 0 <= k < idx && vals[k].address in Signers(c)
    requires tally == PowerAt(vals, at, 0)
    requires LightTally(vals, c, idx, tally, needed).CommitOk?
    ensures PowerOf(vals, Signers(c)) > needed
    decreases |vals| - idx
  {
    if !c.sigs[idx].forBlock {
      LightTallySound(vals, c, idx + 1, tally, needed, at);
    } else {
      assert SignedBy(vals[idx].address, c, c.sigs[idx]);
      PowerAtAdd(vals, at, idx, 0);
      if tally + vals[idx].power > needed {
        PowerAtBound(vals, at + {idx}, Signers(c), 0);
        assert vals[0..] == vals;
      } else {
        LightTallySound(vals, c, idx + 1, tally + vals[idx].power, needed, at + {idx});
      }
    }
  }

  lemma {:induction false} TrustingTallySound(vals: ValidatorSet, c: Commit, idx: nat, seen: set<int>, tally: nat,
                                              needed: nat)
    requires idx <= |c.sigs|
    requires forall k :: k in seen ==> 0 <= k < |vals| && vals[k].address in Signers(c)
    requires tally == PowerAt(vals, seen, 0)
    requires TrustingTally(vals, c, idx, seen, tally, needed).CommitOk?
    ensures PowerOf(vals, Signers(c)) > needed
    decreases |c.sigs| - idx
  {
    var i := IndexOf(vals, c.sigs[idx].address);
    if !c.sigs[idx].forBlock || i < 0 {
      TrustingTallySound(vals, c, idx + 1, seen, tally, needed);
    } else {
      assert SignedBy(vals[i].address, c, c.sigs[idx]);
      PowerAtAdd(vals, seen, i, 0);
      if tally + vals[i].power > needed {
        PowerAtBound(vals, seen + {i}, Signers(c), 0);
        assert vals[0..] == vals;
      } else {
        TrustingTallySound(vals, c, idx + 1, seen + {i}, tally + vals[i].power, needed);
      }
    }
  }

  /** An accepted commit carries signatures of more than two thirds of the set. */
  lemma CommitLightSound(vals: ValidatorSet, height: int, c: Commit)
    requires VerifyCommitLight(vals, height, c).CommitOk?
    ensures IsQuorum(vals, Signers(c))
  {
    PowerAtEmpty(vals, 0);
    LightTallySound(vals, c, 0, 0, TotalPower(vals) * 2 / 3, {});
    QuorumSizeIsTwoThirds(vals, PowerOf(vals, Signers(c)));
  }

  /** A commit accepted at a valid trust level carries signatures of more than a third of the trusted set. */
  lemma CommitTrustingSound(vals: ValidatorSet, c: Commit, level: Fraction)
    requires ValidTrustLevel(level) && VerifyCommitLightTrusting(vals, c, level).CommitOk?
    ensures 3 * PowerOf(vals, Signers(c)) > TotalPower(vals)
  {
    PowerAtEmpty(vals, 0);
    var needed := TotalPower(vals) * level.numerator / level.denominator;
    TrustingTallySound(vals, c, 0, {}, 0, needed);
    ThirdOfPower(TotalPower(vals), level, PowerOf(vals, Signers(c)));
  }

  lemma ThirdOfPower(total: nat, level: Fraction, power: nat)
    requires ValidTrustLevel(level)
    requires power > total * level.numerator / level.denominator
    ensures 3 * power > total
  {
    var n, d := level.numerator, level.denominator;
    var q := total * n / d;
    assert total * n < (q + 1) * d;
    assert (q + 1) * d <= power * d by { MulMonotone(q + 1, power, d); }
    assert total * d <= total * (3 * n) by { MulMonotone(d, 3 * n, total); }
    if 3 * power <= total {
      MulMonotone(3 * power, total, d);
      assert false;
    }
  }

  lemma MulMonotone(a: int, b: int, c: nat)
    requires a <= b
    ensures a * c <= b * c && c * a <= c * b
  {
  }

  // ---- what the checks answer, exactly ----

  /** The first `k` signatures for the block are right, validators and signatures matching one to one. */
  ghost predicate SignedUpTo(vals: ValidatorSet, c: Commit, k: nat)
    requires k <= |vals| == |c.sigs|
  {
    forall i :: 0 <= i < k && c.sigs[i].forBlock ==> c.sigs[i].sig == Signature(vals[i].address, c.block)
  }

  /** The power behind them. */
  ghost function PowerUpTo(vals: ValidatorSet, c: Commit, k: nat): nat
    requires k <= |vals| == |c.sigs|
  {
    if k == 0 then 0 else PowerUpTo(vals, c, k - 1) + if c.sigs[k - 1].forBlock then vals[k - 1].power else 0
  }

  lemma {:induction false} PowerUpToGrows(vals: ValidatorSet, c: Commit, j: nat, k: nat)
    requires j <= k <= |vals| == |c.sigs|
    ensures PowerUpTo(vals, c, j) <= PowerUpTo(vals, c, k)
    decreases k
  {
    if j < k {
      PowerUpToGrows(vals, c, j, k - 1);
    }
  }

  lemma {:induction false} LightTallyExact(vals: ValidatorSet, c: Commit, idx: nat, needed: nat)
    requires idx <= |vals| == |c.sigs| && SignedUpTo(vals, c, idx) && PowerUpTo(vals, c, idx) <= needed
    ensures var r := LightTally(vals, c, idx, PowerUpTo(vals, c, idx), needed);
            && (r.CommitOk? <==>
                  exists k :: 0 <= k <= |vals| && SignedUpTo(vals, c, k) && PowerUpTo(vals, c, k) > needed)
            && (r.NotEnoughPower? <==> SignedUpTo(vals, c, |vals|) && PowerUpTo(vals, c, |vals|) <= needed)
    decreases |vals| - idx
  {
    forall k | 0 <= k <= idx ensures PowerUpTo(vals, c, k) <= needed {
      PowerUpToGrows(vals, c, k, idx);
    }
    if idx < |vals| {
      if c.sigs[idx].forBlock && !SignedBy(vals[idx].address, c, c.sigs[idx]) {
        assert forall k :: idx < k <= |vals| ==> !SignedUpTo(vals, c, k);
      } else {
        assert SignedUpTo(vals, c, idx + 1);
        if PowerUpTo(vals, c, idx + 1) > needed {
          PowerUpToGrows(vals, c, idx + 1, |vals|);
        } else {
          LightTallyExact(vals, c, idx + 1, needed);
        }
      }
    }
  }

  /** Some front part of the commit has right signatures of more than two thirds of the set. */
  ghost predicate TwoThirdsSigned(vals: ValidatorSet, height: int, c: Commit)
  {
    && |vals| == |c.sigs| && height == c.height
    && exists k :: 0 <= k <= |vals| && SignedUpTo(vals, c, k) && 3 * PowerUpTo(vals, c, k) > 2 * TotalPower(vals)
  }

  lemma CommitLightExact(vals: ValidatorSet, height: int, c: Commit)
    ensures VerifyCommitLight(vals, height, c).CommitOk? <==> TwoThirdsSigned(vals, height, c)
  {
    if |vals| == |c.sigs| {
      LightTallyExact(vals, c, 0, TotalPower(vals) * 2 / 3);
      forall k | 0 <= k <= |vals|
        ensures PowerUpTo(vals, c, k) > TotalPower(vals) * 2 / 3 <==> 3 * PowerUpTo(vals, c, k) > 2 * TotalPower(vals)
      {
        QuorumSizeIsTwoThirds(vals, PowerUpTo(vals, c, k));
      }
    }
  }

  /** Signature `i` is for the block and its address is in the set. */
  predicate Counts(vals: ValidatorSet, c: Commit, i: nat)
    requires i < |c.sigs|
  {
    c.sigs[i].forBlock && exists j :: 0 <= j < |vals| && vals[j].address == c.sigs[i].address
  }

  /** The first `k` signatures that count are right, and no two are of one validator. */
  ghost predicate KnownSignedUpTo(vals: ValidatorSet, c: Commit, k: nat)
    requires k <= |c.sigs|
  {
    && (forall i :: 0 <= i < k && Counts(vals, c, i) ==> c.sigs[i].sig == Signature(c.sigs[i].address, c.block))
    && (forall i, j :: 0 <= i < j < k && Counts(vals, c, i) && Counts(vals, c, j) ==>
          c.sigs[i].address != c.sigs[j].address)
  }

  ghost function KnownPowerUpTo(vals: ValidatorSet, c: Commit, k: nat): nat
    requires k <= |c.sigs|
  {
    if k == 0 then 0
    else
      KnownPowerUpTo(vals, c, k - 1) +
      if Counts(vals, c, k - 1) then vals[IndexOf(vals, c.sigs[k - 1].address)].power else 0
  }

  lemma {:induction false} KnownPowerGrows(vals: ValidatorSet, c: Commit, j: nat, k: nat)
    requires j <= k <= |c.sigs|
    ensures KnownPowerUpTo(vals, c, j) <= KnownPowerUpTo(vals, c, k)
    decreases k
  {
    if j < k {
      KnownPowerGrows(vals, c, j, k - 1);
    }
  }

  /** The positions counted so far. */
  ghost function SeenUpTo(vals: ValidatorSet, c: Commit, k: nat): set<int>
    requires k <= |c.sigs|
  {
    set i | 0 <= i < k && Counts(vals, c, i) :: IndexOf(vals, c.sigs[i].address)
  }

  lemma SeenStep(vals: ValidatorSet, c: Commit, k: nat)
    requires k < |c.sigs|
    ensures Counts(vals, c, k) <==> c.sigs[k].forBlock && IndexOf(vals, c.sigs[k].address) >= 0
    ensures SeenUpTo(vals, c, k + 1) ==
            SeenUpTo(vals, c, k) + if Counts(vals, c, k) then {IndexOf(vals, c.sigs[k].address)} else {}
    ensures Counts(vals, c, k) ==>
              (IndexOf(vals, c.sigs[k].address) in SeenUpTo(vals, c, k) <==>
               exists i :: 0 <= i < k && Counts(vals, c, i) && c.sigs[i].address == c.sigs[k].address)
  {
  }

  /** One signature more: it is refused, decides, or is counted. */
  lemma TrustingTallyStep(vals: ValidatorSet, c: Commit, idx: nat, needed: nat)
    requires idx < |c.sigs| && KnownSignedUpTo(vals, c, idx) && KnownPowerUpTo(vals, c, idx) <= needed
    ensures TrustingTally(vals, c, idx, SeenUpTo(vals, c, idx), KnownPowerUpTo(vals, c, idx), needed) ==
            if !KnownSignedUpTo(vals, c, idx + 1) then BadCommit
            else if KnownPowerUpTo(vals, c, idx + 1) > needed then CommitOk
            else TrustingTally(vals, c, idx + 1, SeenUpTo(vals, c, idx + 1), KnownPowerUpTo(vals, c, idx + 1), needed)
  {
    SeenStep(vals, c, idx);
    hide SeenUpTo;
    var at := IndexOf(vals, c.sigs[idx].address);
    if Counts(vals, c, idx) {
      assert vals[at].address == c.sigs[idx].address;
    }
    hide Counts;
    if !Counts(vals, c, idx) {
      assert KnownSignedUpTo(vals, c, idx + 1);
      assert KnownPowerUpTo(vals, c, idx + 1) == KnownPowerUpTo(vals, c, idx);
      assert SeenUpTo(vals, c, idx + 1) == SeenUpTo(vals, c, idx);
    } else if at in SeenUpTo(vals, c, idx) {
      var i :| 0 <= i < idx && Counts(vals, c, i) && c.sigs[i].address == c.sigs[idx].address;
      assert !KnownSignedUpTo(vals, c, idx + 1);
    }
  }

  lemma {:induction false} TrustingTallyExact(vals: ValidatorSet, c: Commit, idx: nat, needed: nat)
    requires idx <= |c.sigs| && KnownSignedUpTo(vals, c, idx) && KnownPowerUpTo(vals, c, idx) <= needed
    ensures var r := TrustingTally(vals, c, idx, SeenUpTo(vals, c, idx), KnownPowerUpTo(vals, c, idx), needed);
            && (r.CommitOk? <==>
                  exists k :: 0 <= k <= |c.sigs| && KnownSignedUpTo(vals, c, k) && KnownPowerUpTo(vals, c, k) > needed)
            && (r.NotEnoughPower? <==>
                  KnownSignedUpTo(vals, c, |c.sigs|) && KnownPowerUpTo(vals, c, |c.sigs|) <= needed)
    decreases |c.sigs| - idx
  {
    forall k | 0 <= k <= idx ensures KnownPowerUpTo(vals, c, k) <= needed {
      KnownPowerGrows(vals, c, k, idx);
    }
    if idx < |c.sigs| {
      TrustingTallyStep(vals, c, idx, needed);
      hide SeenUpTo, Counts, TrustingTally;
      if KnownSignedUpTo(vals, c, idx + 1) {
        if KnownPowerUpTo(vals, c, idx + 1) > needed {
          KnownPowerGrows(vals, c, idx + 1, |c.sigs|);
        } else {
          TrustingTallyExact(vals, c, idx + 1, needed);
        }
      } else {
        assert forall k :: idx < k <= |c.sigs| ==> !KnownSignedUpTo(vals, c, k);
      }
    }
  }

  /** Some front part of the commit has right signatures of more than the trust level of a trusted set. */
  ghost predicate TrustLevelSigned(vals: ValidatorSet, c: Commit, level: Fraction)
  {
    exists k :: 0 <= k <= |c.sigs| && KnownSignedUpTo(vals, c, k)
                && KnownPowerUpTo(vals, c, k) * level.denominator > TotalPower(vals) * level.numerator
  }

  /** All its signatures are right, and too few. */
  ghost predicate TooFewSigned(vals: ValidatorSet, c: Commit, level: Fraction)
  {
    && KnownSignedUpTo(vals, c, |c.sigs|)
    && KnownPowerUpTo(vals, c, |c.sigs|) * level.denominator <= TotalPower(vals) * level.numerator
  }

  lemma CommitTrustingExact(vals: ValidatorSet, c: Commit, level: Fraction)
    requires level.denominator > 0
    ensures VerifyCommitLightTrusting(vals, c, level).CommitOk? <==> TrustLevelSigned(vals, c, level)
    ensures VerifyCommitLightTrusting(vals, c, level).NotEnoughPower? <==> TooFewSigned(vals, c, level)
  {
    var needed := TotalPower(vals) * level.numerator / level.denominator;
    assert SeenUpTo(vals, c, 0) == {};
    TrustingTallyExact(vals, c, 0, needed);
    forall k | 0 <= k <= |c.sigs|
      ensures KnownPowerUpTo(vals, c, k) > needed <==>
              KnownPowerUpTo(vals, c, k) * level.denominator > TotalPower(vals) * level.numerator
    {
      AboveQuotient(TotalPower(vals) * level.numerator, level.denominator, KnownPowerUpTo(vals, c, k));
    }
  }

  lemma AboveQuotient(a: nat, d: nat, p: nat)
    requires d > 0
    ensures p > a / d <==> p * d > a
  {
    var q := a / d;
    assert a == q * d + a % d;
    if p > q {
      MulMonotone(q + 1, p, d);
    } else {
      MulMonotone(p, q, d);
    }
  }

  /** The new header follows the trusted one: same chain, later and not from the future, and its own validators. */
  ghost predicate Follows(t: LightBlock, u: LightBlock, p: Params, now: int)
  {
    && u.signed.basicOk && u.Head().chainID == t.Head().chainID
    && u.signed.commit.height == u.Height() && u.signed.commit.block == u.Head()
    && t.Height() < u.Height() && t.Head().time < u.Head().time < now + p.maxClockDrift
    && u.Head().validators == Some(u.vals)
  }

  /** The arguments are such that the checks are made at all. */
  ghost predicate Checkable(t: LightBlock, u: LightBlock, p: Params)
  {
    && t.Height() != 0 && t.Head().time != ZERO_TIME && t.Head().chainID != 0
    && if u.Height() == t.Height() + 1 then t.Head().nextValidators.Some?
       else p.trustLevel.denominator > 0
            && p.trustLevel.denominator <= 3 * p.trustLevel.numerator <= 3 * p.trustLevel.denominator
  }

  /**
   When each verdict is given. An expired trusted header is never verified against. A block is verified
   exactly when it follows and either has the validators announced and two thirds of their power, or
   has the trust level of the trusted set's power and two thirds of its own.
   */
  lemma VerifyExact(t: LightBlock, u: LightBlock, p: Params, now: int)
    ensures var v := Verify(t, u, p, now);
            var unexpired := t.Head().time + p.trustingPeriod > now;
            var signed := TwoThirdsSigned(u.vals, u.Height(), u.signed.commit);
            && (v.Panicked? || v.WrongArguments? <==> !Checkable(t, u, p))
            && (v.OldHeaderExpired? <==> Checkable(t, u, p) && t.Head().time + p.trustingPeriod <= now)
            && (v.Verified? <==>
                  && Checkable(t, u, p) && unexpired && Follows(t, u, p, now) && signed
                  && if u.Height() == t.Height() + 1 then u.Head().validators == t.Head().nextValidators
                     else TrustLevelSigned(t.vals, u.signed.commit, p.trustLevel))
            && (v.NewValSetCantBeTrusted? <==>
                  && Checkable(t, u, p) && unexpired && Follows(t, u, p, now) && u.Height() != t.Height() + 1
                  && TooFewSigned(t.vals, u.signed.commit, p.trustLevel))
  {
    CommitLightExact(u.vals, u.Height(), u.signed.commit);
    if p.trustLevel.denominator > 0 {
      CommitTrustingExact(t.vals, u.signed.commit, p.trustLevel);
    }
    hide VerifyCommitLight, VerifyCommitLightTrusting, TwoThirdsSigned, TrustLevelSigned, TooFewSigned;
  }

  /** Each of the two checks refuses the heights that are the other's. */
  lemma HeightsAreChecked(t: LightBlock, u: LightBlock, p: Params, now: int)
    requires t.Height() != 0 && t.Head().time != ZERO_TIME && t.Head().chainID != 0
    ensures u.Height() == t.Height() + 1 ==>
              VerifyNonAdjacent(t.signed, t.vals, u.signed, u.vals, p, now).WrongArguments?
    ensures t.Head().nextValidators.Some? && u.Height() != t.Height() + 1 ==>
              VerifyAdjacent(t.signed, u.signed, u.vals, p, now).WrongArguments?
  {
  }

  // ---- soundness of one verification ----

  /**
   The trust assumption: `canonical` is the chain, the validators in `correct` sign only canonical
   blocks, and faulty validators hold less than a third of the validators and next validators of every
   canonical header that has not expired.
   */
  datatype World = World(canonical: int -> Header, correct: set<Address>)

  ghost predicate IsCanonical(w: World, h: Header)
  {
    w.canonical(h.height) == h
  }

  ghost predicate HonestCommit(w: World, c: Commit)
  {
    forall i :: 0 <= i < |c.sigs| && c.sigs[i].sig.Signature? && c.sigs[i].sig.signer in w.correct ==>
        IsCanonical(w, c.sigs[i].sig.block)
  }

  ghost predicate FaultyBelowThird(w: World, trustingPeriod: int, now: int)
  {
    forall height :: var h := w.canonical(height);
      h.time + trustingPeriod > now ==>
        && (h.validators.Some? ==> FaultyMinority(h.validators.value, w.correct))
        && (h.nextValidators.Some? ==> FaultyMinority(h.nextValidators.value, w.correct))
  }

  /** A block whose header is canonical and whose validator set is the one the header names. */
  ghost predicate Trusted(w: World, b: LightBlock)
  {
    IsCanonical(w, b.Head()) && b.Head().validators == Some(b.vals)
  }

  lemma CorrectSigner(w: World, vals: ValidatorSet, c: Commit)
    requires FaultyMinority(vals, w.correct) && HonestCommit(w, c)
    requires 3 * PowerOf(vals, Signers(c)) > TotalPower(vals)
    ensures IsCanonical(w, c.block)
  {
    var v := ThirdHasCorrect(vals, w.correct, Signers(c));
    var i :| 0 <= i < |c.sigs| && c.sigs[i].sig.Signature? && c.sigs[i].sig.block == c.block
        && c.sigs[i].sig.signer == v;
  }

  /** A block that verifies against a trusted block is trusted, at every valid trust level. */
  lemma VerifySound(w: World, trusted: LightBlock, untrusted: LightBlock, p: Params, now: int)
    requires FaultyBelowThird(w, p.trustingPeriod, now)
    requires Trusted(w, trusted) && HonestCommit(w, untrusted.signed.commit)
    requires Verify(trusted, untrusted, p, now).Verified?
    ensures Trusted(w, untrusted) && untrusted.Height() > trusted.Height()
  {
    var c := untrusted.signed.commit;
    var h := trusted.Head();
    assert w.canonical(h.height) == h && !HeaderExpired(h, p.trustingPeriod, now);
    if untrusted.Height() == trusted.Height() + 1 {
      CommitLightSound(untrusted.vals, untrusted.Height(), c);
      CorrectSigner(w, untrusted.vals, c);
    } else {
      CommitTrustingSound(trusted.vals, c, p.trustLevel);
      CorrectSigner(w, trusted.vals, c);
    }
  }

  /**
   "Cannot be trusted yet" is answered only for a block at least two heights above, so there is a height in
   between.
   */
  lemma CantBeTrustedLeavesRoom(trusted: LightBlock, untrusted: LightBlock, p: Params, now: int)
    requires Verify(trusted, untrusted, p, now).NewValSetCantBeTrusted?
    ensures untrusted.Height() >= trusted.Height() + 2
  {
  }
}
