/** The static parameter set and its parts-per-million arithmetic. Every rule is one integer
    expression; the lemmas say what the roundings add up to over many tasks and many epochs. */
module Governance {
  import opened Types

  const PPM: nat := 1_000_000

  datatype ParamSet = ParamSet(
    issuanceRatePpm: nat,
    feePpm: nat,
    spRatePpm: nat,
    efficiencyMultPpm: nat,
    decayRatePpm: nat,
    stakeBasePpm: nat,
    discountMaxPpm: nat,
    spRef: int,
    clawbackEpochs: nat,
    fineMultPpm: nat,
    challengerRewardPpm: nat,
    bondMinPpm: nat)

  /** Parameters under which `PPM - reduction` and `PPM - decayRate` do not go below zero. */
  type Params = p: ParamSet | p.discountMaxPpm <= PPM && p.decayRatePpm <= PPM
    witness Devnet()

  function Devnet(): ParamSet {
    ParamSet(10_000, 1_000, 1_000_000, 1_000_000, 20_000, 500_000, 800_000,
             1_000 * UCU_SCALE, 32, 2_000_000, 500_000, 250_000)
  }

  function Fee(p: Params, maxUcu: nat): nat {
    maxUcu * p.feePpm / PPM
  }

  function Issuance(p: Params, u: nat): nat {
    u * p.issuanceRatePpm / PPM
  }

  function StandingAccrual(p: Params, u: nat, efficiencyMultPpm: nat): nat {
    u * p.spRatePpm / PPM * efficiencyMultPpm / PPM
  }

  /** The accrual at settlement, where the multiplier is the parameter. */
  function Accrual(p: Params, u: nat): nat {
    StandingAccrual(p, u, p.efficiencyMultPpm)
  }

  function StakeBase(p: Params, maxUcu: nat): nat {
    maxUcu * p.stakeBasePpm / PPM
  }

  function DiscountReductionPpm(p: Params, sp: int): (r: nat)
    ensures r <= PPM
  {
    if p.spRef <= 0 then 0
    else
      var spPos := if sp < 0 then 0 else sp;
      Min(spPos * PPM / p.spRef, p.discountMaxPpm)
  }

  function ClaimStake(p: Params, maxUcu: nat, sp: int): nat {
    StakeBase(p, maxUcu) * (PPM - DiscountReductionPpm(p, sp)) / PPM
  }

  function Fine(p: Params, paid: nat): nat {
    paid * p.fineMultPpm / PPM
  }

  function ChallengerReward(p: Params, fine: nat): nat {
    fine * p.challengerRewardPpm / PPM
  }

  function BondMin(p: Params, paid: nat): nat {
    paid * p.bondMinPpm / PPM
  }

  /** Signed machine division: the quotient is cut towards zero. */
  function TruncDiv(a: int, b: int): int
    requires b > 0
  {
    if a >= 0 then a / b else -((-a) / b)
  }

  function Decay(p: Params, sp: int): int {
    TruncDiv(sp * (PPM - p.decayRatePpm), PPM)
  }

  // ---- stakes, discounts ----

  /** More Standing never raises the stake, and the stake stays between the capped discount and
      the undiscounted base. */
  lemma ClaimStakeRange(p: Params, maxUcu: nat, sp: int, sp': int)
    requires sp <= sp'
    ensures ClaimStake(p, maxUcu, sp') <= ClaimStake(p, maxUcu, sp)
    ensures StakeBase(p, maxUcu) * (PPM - p.discountMaxPpm) / PPM <= ClaimStake(p, maxUcu, sp) <= StakeBase(p, maxUcu)
  {
    var base := StakeBase(p, maxUcu);
    var r, r' := DiscountReductionPpm(p, sp), DiscountReductionPpm(p, sp');
    assert r <= r' by {
      if p.spRef > 0 {
        var a, a' := if sp < 0 then 0 else sp, if sp' < 0 then 0 else sp';
        DivMonotone(a * PPM, a' * PPM, p.spRef);
      }
    }
    MulMonotone(base, PPM - r', PPM - r);
    DivMonotone(base * (PPM - r'), base * (PPM - r), PPM);
    MulMonotone(base, PPM - p.discountMaxPpm, PPM - r);
    DivMonotone(base * (PPM - p.discountMaxPpm), base * (PPM - r), PPM);
    MulMonotone(base, PPM - r, PPM);
    DivMonotone(base * (PPM - r), base * PPM, PPM);
  }

  lemma MulMonotone(a: nat, b: int, c: int)
    requires b <= c
    ensures a * b <= a * c
  {
  }

  lemma DivMonotone(a: int, b: int, d: int)
    requires a <= b && d > 0
    ensures a / d <= b / d
  {
    DivBounds(a, d);
    DivBounds(b, d);
    if b / d < a / d {
      MulMonotone(d, b / d + 1, a / d);
    }
  }

  lemma DivBounds(a: int, d: int)
    requires d > 0
    ensures d * (a / d) <= a < d * (a / d) + d
  {
  }

  // ---- issuance over split work ----

  function Total(us: seq<nat>): nat {
    if us == [] then 0 else us[0] + Total(us[1..])
  }

  function TotalIssuance(p: Params, us: seq<nat>): nat {
    if us == [] then 0 else Issuance(p, us[0]) + TotalIssuance(p, us[1..])
  }

  /** Splitting work into tasks never mints more than one task of the total work would, and loses
      less than one base unit per task. */
  lemma {:induction false} SplitIssuance(p: Params, us: seq<nat>)
    ensures TotalIssuance(p, us) <= Issuance(p, Total(us))
    ensures us != [] ==> Issuance(p, Total(us)) < TotalIssuance(p, us) + |us|
  {
    if us != [] {
      SplitIssuance(p, us[1..]);
      var a, b := us[0] * p.issuanceRatePpm, Total(us[1..]) * p.issuanceRatePpm;
      assert Total(us) * p.issuanceRatePpm == a + b;
      assert a / PPM + b / PPM <= (a + b) / PPM <= a / PPM + b / PPM + 1;
      if us[1..] == [] {
        assert Total(us[1..]) == 0 && b == 0;
      }
    }
  }

  // ---- decay ----

  /** Truncation and the documented floor agree exactly when Standing is not negative or the
      product happens to be a whole number of points. */
  lemma DecayIsFloorIff(p: Params, sp: int)
    ensures Decay(p, sp) == sp * (PPM - p.decayRatePpm) / PPM
            <==> (sp >= 0 || sp * (PPM - p.decayRatePpm) % PPM == 0)
  {
    var k := PPM - p.decayRatePpm;
    if sp >= 0 {
      MulMonotone(sp, 0, k);
    } else {
      MulMonotone(k, sp, 0);
      TruncVersusFloor(sp * k, PPM);
    }
  }

  lemma TruncVersusFloor(x: int, d: int)
    requires x <= 0 && d > 0
    ensures TruncDiv(x, d) == x / d <==> x % d == 0
  {
    var q, r := x / d, x % d;
    assert x == d * q + r;
    if r == 0 {
      QuotientUnique(-x, d, -q, 0);
    } else {
      QuotientUnique(-x, d, -q - 1, d - r);
    }
    if x == 0 {
      assert q == 0;
    }
  }

  lemma QuotientUnique(x: int, d: int, q: int, r: int)
    requires d > 0 && 0 <= r < d && x == d * q + r
    ensures x / d == q
  {
    var q', r' := x / d, x % d;
    assert d * (q - q') == r' - r;
    if q > q' {
      MulMonotone(d, 1, q - q');
    } else if q < q' {
      MulMonotone(d, 1, q' - q);
    }
  }

  function Pow(b: nat, n: nat): nat {
    if n == 0 then 1 else b * Pow(b, n - 1)
  }

  /** Standing after `n` epoch boundaries. */
  function DecayN(p: Params, sp: nat, n: nat): (r: nat)
    ensures r <= sp
  {
    if n == 0 then sp
    else
      var s := DecayN(p, sp, n - 1);
      DecayStep(p, s);
      Decay(p, s)
  }

  lemma DecayStep(p: Params, s: nat)
    ensures 0 <= Decay(p, s) <= s
    ensures PPM * Decay(p, s) <= s * (PPM - p.decayRatePpm) < PPM * Decay(p, s) + PPM
    ensures p.decayRatePpm > 0 && s > 0 ==> Decay(p, s) < s
  {
    var k := PPM - p.decayRatePpm;
    MulMonotone(s, 0, k);
    MulMonotone(s, k, PPM);
    DivBounds(s * k, PPM);
    if p.decayRatePpm > 0 && s > 0 {
      MulMonotone(s, k, PPM - 1);
    }
  }

  /** Iterated rounding never gains on exact geometric decay, its loss stays below `PPM / d`
      however many epochs pass, and Standing reaches zero: with a positive rate at least one point
      goes at every boundary. */
  lemma {:induction false} DecayOverEpochs(p: Params, sp: nat, n: nat)
    ensures var k := PPM - p.decayRatePpm;
            var s := DecayN(p, sp, n);
            && s * Pow(PPM, n) <= sp * Pow(k, n)
            && p.decayRatePpm * (sp * Pow(k, n) - s * Pow(PPM, n)) <= PPM * (Pow(PPM, n) - Pow(k, n))
    ensures p.decayRatePpm > 0 ==> DecayN(p, sp, n) <= if sp > n then sp - n else 0
  {
    if n > 0 {
      DecayOverEpochs(p, sp, n - 1);
      var d, k := p.decayRatePpm, PPM - p.decayRatePpm;
      var s, s' := DecayN(p, sp, n - 1), DecayN(p, sp, n);
      DecayStep(p, s);
      DecayLossStep(d, k, sp, s, s', Pow(PPM, n - 1), Pow(k, n - 1));
    }
  }

  /** One step of the loss bound: `e` is the scaled loss so far and `r` the new remainder. */
  lemma DecayLossStep(d: nat, k: nat, sp: nat, s: nat, s': nat, pn: nat, kn: nat)
    requires d + k == PPM
    requires PPM * s' <= s * k <= PPM * s' + PPM
    requires s * pn <= sp * kn
    requires d * (sp * kn - s * pn) <= PPM * (pn - kn)
    ensures s' * (PPM * pn) <= sp * (k * kn)
    ensures d * (sp * (k * kn) - s' * (PPM * pn)) <= PPM * (PPM * pn - k * kn)
  {
    var e, r := sp * kn - s * pn, s * k - PPM * s';
    LossRecurrence(k, sp, s, s', pn, kn, e, r);
    MulMonotone(k, 0, e);
    MulMonotone(pn, 0, r);
    LossBound(d, k, pn, kn, e, r);
  }

  lemma LossRecurrence(k: nat, sp: nat, s: nat, s': nat, pn: nat, kn: nat, e: int, r: int)
    requires e == sp * kn - s * pn && r == s * k - PPM * s'
    ensures sp * (k * kn) - s' * (PPM * pn) == k * e + pn * r
  {
    Distribute(k, sp * kn, s * pn);
    Distribute(pn, s * k, PPM * s');
    Rotate(k, sp, kn);
    Rotate(k, s, pn);
    Rotate(pn, s, k);
    Rotate(pn, PPM, s');
  }

  lemma Distribute(a: int, b: int, c: int)
    ensures a * (b - c) == a * b - a * c
  {
  }

  lemma Rotate(a: int, b: int, c: int)
    ensures a * (b * c) == b * (a * c) == c * (a * b) == c * (b * a) == b * (c * a) == a * (c * b)
  {
  }

  lemma LossBound(d: nat, k: nat, pn: nat, kn: nat, e: int, r: int)
    requires d + k == PPM && r <= PPM
    requires d * e <= PPM * (pn - kn)
    ensures d * (k * e + pn * r) <= PPM * (PPM * pn - k * kn)
  {
    MulMonotone(k, d * e, PPM * (pn - kn));
    MulMonotone(d * pn, r, PPM);
    Distribute(k, PPM * pn, PPM * kn);
    Rotate(d, k, e);
    Rotate(k, d, e);
    assert d * (pn * r) == (d * pn) * r;
    assert d * (k * e + pn * r) == d * (k * e) + d * (pn * r);
    assert (d + k) * pn == d * pn + k * pn;
  }

  // ---- what the rules compute ----

  /** `q` is `a / b` rounded down. */
  predicate IsFloor(q: int, a: int, b: int) {
    q * b <= a < (q + 1) * b
  }

  lemma FloorUnique(q: int, r: int, a: int, b: int)
    requires b > 0 && IsFloor(q, a, b) && IsFloor(r, a, b)
    ensures q == r
  {
    if q < r {
      MulMonotone(b, q + 1, r);
    } else if r < q {
      MulMonotone(b, r + 1, q);
    }
  }

  /** Every rule takes its own rate, in millionths, of its own amount and rounds down; the accrual does
      so twice. */
  lemma RatesAreFloors(p: Params, n: nat)
    ensures IsFloor(Fee(p, n), n * p.feePpm, 1_000_000)
    ensures IsFloor(Issuance(p, n), n * p.issuanceRatePpm, 1_000_000)
    ensures IsFloor(StakeBase(p, n), n * p.stakeBasePpm, 1_000_000)
    ensures IsFloor(Fine(p, n), n * p.fineMultPpm, 1_000_000)
    ensures IsFloor(ChallengerReward(p, n), n * p.challengerRewardPpm, 1_000_000)
    ensures IsFloor(BondMin(p, n), n * p.bondMinPpm, 1_000_000)
    ensures exists base: nat :: IsFloor(base, n * p.spRatePpm, 1_000_000)
              && IsFloor(Accrual(p, n), base * p.efficiencyMultPpm, 1_000_000)
  {
    var base := n * p.spRatePpm / PPM;
    assert IsFloor(base, n * p.spRatePpm, 1_000_000) && IsFloor(Accrual(p, n), base * p.efficiencyMultPpm, 1_000_000);
  }

  /** The discount by Standing: none without Standing or without a reference, the full cap from the
      point on where Standing over its reference reaches it, and that quotient in between. */
  lemma DiscountCases(p: Params, sp: int)
    ensures p.spRef <= 0 || sp <= 0 ==> DiscountReductionPpm(p, sp) == 0
    ensures p.spRef > 0 && sp > 0 && sp * 1_000_000 >= p.discountMaxPpm * p.spRef ==>
              DiscountReductionPpm(p, sp) == p.discountMaxPpm
    ensures p.spRef > 0 && sp > 0 && sp * 1_000_000 < p.discountMaxPpm * p.spRef ==>
              IsFloor(DiscountReductionPpm(p, sp), sp * 1_000_000, p.spRef)
  {
    if p.spRef > 0 && sp > 0 {
      CappedQuotient(sp * PPM, p.spRef, p.discountMaxPpm);
    } else if p.spRef > 0 {
      assert 0 * PPM / p.spRef == 0;
    }
  }

  /** A capped quotient is the cap from the point on where the division reaches it. */
  lemma CappedQuotient(a: nat, b: nat, cap: nat)
    requires b > 0
    ensures if a >= cap * b then Min(a / b, cap) == cap else IsFloor(Min(a / b, cap), a, b)
  {
    var q := a / b;
    DivBounds(a, b);
    if cap <= q {
      MulMonotone(b, cap, q);
    } else {
      MulMonotone(b, q + 1, cap);
    }
  }

  /** The stake is the base less its discount, rounded down. */
  lemma ClaimStakeIsFloor(p: Params, maxUcu: nat, sp: int)
    ensures IsFloor(ClaimStake(p, maxUcu, sp), StakeBase(p, maxUcu) * (1_000_000 - DiscountReductionPpm(p, sp)),
            1_000_000)
    ensures p.spRef <= 0 || sp <= 0 ==> ClaimStake(p, maxUcu, sp) == StakeBase(p, maxUcu)
  {
    DiscountCases(p, sp);
  }
}
