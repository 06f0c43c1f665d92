/** Payout, exposure and the stake cap in int64 arithmetic (internal/game/wheel.go).
    `m` is the wheel's largest multiplier, which the Go functions fetch with MaxMultBP. */
module StakeCap {
  import opened Basics
  import opened Wheel

  function Payout(stake: int, multBP: int): int {
    TruncDiv(Wrap64(stake * multBP), 10000)
  }

  function MaxSafeStake(m: nat): nat {
    if m == 0 then MAX_INT64 else MAX_INT64 / m
  }

  function MaxExposure(m: nat, stake: int): int {
    if stake > MaxSafeStake(m) then MAX_INT64 else Payout(stake, m)
  }

  function MaxAffordableStake(m: nat, bankroll: int): int {
    if m == 0 || bankroll <= 0 then 0 else
      var stake :=
        if bankroll > MAX_INT64 / 10000 then Wrap64(bankroll / m * 10000) else Wrap64(bankroll * 10000) / m;
      if stake > MaxSafeStake(m) then MaxSafeStake(m) else stake
  }

  method ValidateStakeCeiling(m: nat, maxStake: int) returns (ok: bool)
    requires IsInt64(maxStake)
    ensures ok <==> maxStake > 0 && maxStake * m <= MAX_INT64
  {
    if maxStake > 0 && m > 0 {
      FloorDiv(MAX_INT64, m, maxStake);
    }
    return maxStake > 0 && maxStake <= MaxSafeStake(m);
  }

  /** Up to the safe stake nothing wraps, and no segment pays more than the exposure. */
  lemma PayoutCovered(m: nat, stake: int, multBP: int)
    requires 0 <= stake <= MaxSafeStake(m) && 0 <= multBP <= m
    ensures IsInt64(stake * multBP)
    ensures Payout(stake, multBP) == stake * multBP / 10000
    ensures 0 <= Payout(stake, multBP) <= MaxExposure(m, stake)
  {
    if m > 0 {
      FloorDiv(MAX_INT64, m, stake);
    }
    MulMono(multBP, m, stake);
    MulMono(0, multBP, stake);
  }

  /** Above the safe stake admission fails closed for every bankroll but the largest int64. */
  lemma UnsafeStakeVetoed(m: nat, stake: int, bankroll: int)
    requires stake > MaxSafeStake(m) && IsInt64(bankroll)
    ensures bankroll < MaxExposure(m, stake) <==> bankroll != MAX_INT64
  {
  }

  /** Dividing first and scaling afterwards leaves the int64 range in its negative half. */
  predicate CapWraps(m: nat, bankroll: int) {
    m > 0 && bankroll > MAX_INT64 / 10000 && bankroll / m * 10000 % 0x1_0000_0000_0000_0000 >= 0x8000_0000_0000_0000
  }

  /** For every wheel and bankroll: the cap is never a stake the exposure would reject as unsafe, it is negative exactly
      when its product wraps, which takes a top multiplier below 1x, and otherwise the bankroll it was computed from
      covers its worst case. */
  lemma CapCovered(m: nat, bankroll: int)
    requires 0 <= bankroll <= MAX_INT64
    ensures var cap := MaxAffordableStake(m, bankroll);
            && cap <= MaxSafeStake(m)
            && (cap < 0 <==> CapWraps(m, bankroll)) && (CapWraps(m, bankroll) ==> m < 10000)
            && (cap >= 0 ==> MaxExposure(m, cap) <= bankroll)
  {
    var cap := MaxAffordableStake(m, bankroll);
    if m >= 10000 && bankroll > 0 {
      DivideFirst(m, bankroll);
    }
    if m > 0 && bankroll > 0 {
      CapIsSafe(m, bankroll);
      if cap >= 0 {
        CapBelowQuotient(m, bankroll);
        Covers(m, bankroll, cap);
      }
    }
  }

  lemma CapIsSafe(m: nat, bankroll: int)
    requires m > 0 && 0 < bankroll <= MAX_INT64
    requires m >= 10000 ==> 0 <= bankroll / m * 10000 <= MAX_INT64
    ensures var cap := MaxAffordableStake(m, bankroll);
            cap <= MaxSafeStake(m) && (cap < 0 <==> CapWraps(m, bankroll)) && (CapWraps(m, bankroll) ==> m < 10000)
  {
    FloorDiv(MAX_INT64, m, 0);
    FloorDiv(bankroll * 10000, m, 0);
    WrapSign(bankroll / m * 10000);
  }

  lemma WrapSign(x: int)
    ensures Wrap64(x) < 0 <==> x % 0x1_0000_0000_0000_0000 >= 0x8000_0000_0000_0000
    ensures x >= 0 ==> Wrap64(x) <= x
  {
  }

  /** What the cap is computed from, before it wraps or is limited to the safe stake. */
  function Unclamped(m: nat, bankroll: int): int
    requires m > 0
  {
    if bankroll > MAX_INT64 / 10000 then bankroll / m * 10000 else bankroll * 10000 / m
  }

  lemma CapBelowQuotient(m: nat, bankroll: int)
    requires m > 0 && 0 < bankroll <= MAX_INT64
    ensures MaxAffordableStake(m, bankroll) * m <= bankroll * 10000
  {
    assert MaxAffordableStake(m, bankroll) <= Unclamped(m, bankroll) by {
      FloorDiv(bankroll, m, 0);
      WrapSign(bankroll / m * 10000);
    }
    QuotientFits(m, bankroll);
    hide Unclamped, MaxAffordableStake;
    MulMono(MaxAffordableStake(m, bankroll), Unclamped(m, bankroll), m);
  }

  lemma QuotientFits(m: nat, bankroll: int)
    requires m > 0 && 0 < bankroll <= MAX_INT64
    ensures Unclamped(m, bankroll) * m <= bankroll * 10000
  {
    var q := bankroll / m;
    FloorDiv(bankroll, m, q);
    FloorDiv(bankroll * 10000, m, bankroll * 10000 / m);
    assert q * 10000 * m == q * m * 10000;
  }

  lemma Covers(m: nat, bankroll: int, cap: int)
    requires m > 0 && 0 <= cap <= MaxSafeStake(m) && cap * m <= bankroll * 10000
    ensures MaxExposure(m, cap) <= bankroll
  {
    FloorDiv(MAX_INT64, m, cap);
    MulMono(0, cap, m);
  }

  lemma CapValue(m: nat, bankroll: int)
    requires m >= 10000 && 0 < bankroll <= MAX_INT64
    ensures 0 <= Unclamped(m, bankroll) <= bankroll * 10000 / m
    ensures bankroll * 10000 / m - Unclamped(m, bankroll) < 10000
    ensures bankroll <= MAX_INT64 / 10000 ==> Unclamped(m, bankroll) == bankroll * 10000 / m
    ensures MaxAffordableStake(m, bankroll) ==
            if Unclamped(m, bankroll) > MaxSafeStake(m) then MaxSafeStake(m) else Unclamped(m, bankroll)
  {
    DivideFirst(m, bankroll);
  }

  /** Dividing before scaling by 10000 gives up less than 10000 and still fits an int64. */
  lemma DivideFirst(m: int, b: int)
    requires m >= 10000 && 0 < b <= MAX_INT64
    ensures 0 <= b / m * 10000 <= b * 10000 / m < b / m * 10000 + 10000
    ensures b / m * 10000 <= b
  {
    var q := b / m;
    FloorDiv(b, m, 0);
    FloorDiv(b, m, q);
    FloorDiv(b, m, q + 1);
    var low, high := q * m, (q + 1) * m;
    assert q * 10000 * m == low * 10000;
    assert (q * 10000 + 10000) * m == high * 10000 by {
      assert q * 10000 + 10000 == (q + 1) * 10000;
      assert (q + 1) * 10000 * m == high * 10000;
    }
    FloorDiv(b * 10000, m, q * 10000);
    FloorDiv(b * 10000, m, q * 10000 + 10000);
    MulMono(10000, m, q);
  }

  /** For every bankroll small enough to be multiplied by 10000 the cap is exact to the cent. */
  lemma CapExact(m: nat, bankroll: int, stake: int)
    requires m > 0 && 0 <= bankroll <= MAX_INT64 / 10000
    ensures stake <= MaxAffordableStake(m, bankroll) <==> stake * m <= bankroll * 10000
  {
    FloorDiv(bankroll * 10000, m, stake);
    if bankroll > 0 {
      var u := bankroll * 10000 / m;
      FloorDiv(bankroll * 10000, m, u);
      FloorDiv(MAX_INT64, m, u);
    } else {
      FloorDiv(0, m, 0);
      FloorDiv(0, m, 1);
    }
  }

  /** ... and so is the exposure check, up to the overflow guard. */
  lemma ExposureExact(m: nat, bankroll: int, stake: int)
    requires m > 0 && 0 <= bankroll <= MAX_INT64 / 10000 && MIN_INT64 <= stake * m
    ensures MaxExposure(m, stake) <= bankroll <==> stake * m < (bankroll + 1) * 10000 && stake * m <= MAX_INT64
  {
    FloorDiv(MAX_INT64, m, stake);
    var p := stake * m;
    if stake <= MaxSafeStake(m) {
      assert MaxExposure(m, stake) == TruncDiv(p, 10000);
    }
  }

  predicate CapAgrees(m: nat, bankroll: int, stake: int) {
    stake <= MaxAffordableStake(m, bankroll) <==> MaxExposure(m, stake) <= bankroll
  }

  /** The cap and the exposure check disagree exactly on stakes whose worst case is covered only by rounding. */
  lemma CapDisagrees(m: nat, bankroll: int, stake: int)
    requires m > 0 && 0 <= bankroll <= MAX_INT64 / 10000 && MIN_INT64 <= stake * m
    ensures !CapAgrees(m, bankroll, stake) <==>
            bankroll * 10000 < stake * m < bankroll * 10000 + 10000 && stake * m <= MAX_INT64
  {
    CapExact(m, bankroll, stake);
    ExposureExact(m, bankroll, stake);
    hide MaxAffordableStake, MaxExposure;
  }

  ghost predicate AlwaysAgrees(m: nat) {
    forall bankroll, stake | 0 <= bankroll <= MAX_INT64 / 10000 && MIN_INT64 <= stake * m :: CapAgrees(m, bankroll, stake)
  }

  /** So the cap admits exactly what the exposure check admits, for every such bankroll and stake, if and only if the
      top multiplier is a whole multiple of the stake. */
  lemma CapIsExposure(m: nat)
    requires 0 < m <= MAX_INT64
    ensures AlwaysAgrees(m) <==> m % 10000 == 0
  {
    if m % 10000 == 0 {
      forall bankroll, stake | 0 <= bankroll <= MAX_INT64 / 10000 && MIN_INT64 <= stake * m
        ensures CapAgrees(m, bankroll, stake)
      {
        CapDisagrees(m, bankroll, stake);
        WholeMultiples(m, bankroll, stake);
      }
    } else {
      CapDisagrees(m, m / 10000, 1);
      assert !CapAgrees(m, m / 10000, 1);
    }
  }

  lemma WholeMultiples(m: nat, bankroll: int, stake: int)
    requires m % 10000 == 0
    ensures !(bankroll * 10000 < stake * m < bankroll * 10000 + 10000)
  {
    var n := stake * (m / 10000);
    assert stake * m == n * 10000;
  }

  /******* Dividing first *******/

  /** What the divide-first branch gives up, to the cent: the share of the remainder it never scales. It is the promised
      cent at most exactly when that remainder is small. */
  lemma DivideFirstLoss(m: nat, bankroll: int)
    requires m > 0 && MAX_INT64 / 10000 < bankroll <= MAX_INT64
    ensures var loss := bankroll * 10000 / m - Unclamped(m, bankroll);
            && loss == bankroll % m * 10000 / m && 0 <= loss < 10000
            && (loss <= 1 <==> bankroll % m * 10000 < 2 * m)
  {
    var q, r := bankroll / m, bankroll % m;
    assert bankroll * 10000 == q * 10000 * m + r * 10000 by {
      assert bankroll == q * m + r;
      assert q * m * 10000 == q * 10000 * m;
    }
    QuotientPlus(q * 10000, r * 10000, m);
    FloorDiv(r * 10000, m, 2);
    FloorDiv(r * 10000, m, 0);
    FloorDiv(r * 10000, m, 10000);
  }

  lemma QuotientPlus(k: int, r: int, m: int)
    requires m > 0
    ensures (k * m + r) / m == k + r / m
  {
    var d := r / m;
    FloorDiv(r, m, d);
    FloorDiv(r, m, d + 1);
    assert (k + d) * m == k * m + d * m && (k + d + 1) * m == k * m + (d + 1) * m;
    FloorDiv(k * m + r, m, k + d);
    FloorDiv(k * m + r, m, k + d + 1);
  }

  /** The cap without that loss. */
  function IdealCap(m: nat, bankroll: int): int
    requires m > 0
  {
    if bankroll * 10000 / m > MaxSafeStake(m) then MaxSafeStake(m) else bankroll * 10000 / m
  }

  /** What is left of the loss after the limit to the safe stake, and when that is the promised cent at most. */
  lemma CapLoss(m: nat, bankroll: int)
    requires m >= 10000 && MAX_INT64 / 10000 < bankroll <= MAX_INT64
    ensures var loss := IdealCap(m, bankroll) - MaxAffordableStake(m, bankroll);
            && (loss <= 1 <==> bankroll % m * 10000 < 2 * m || bankroll / m * 10000 >= MaxSafeStake(m) - 1)
            && 0 <= loss < 10000
  {
    CapValue(m, bankroll);
    DivideFirstLoss(m, bankroll);
  }

  /** On a 9.0031x wheel the smallest bankroll of that branch loses 9999 cents. */
  lemma CapCanLose9999()
    ensures IdealCap(90031, 922337203685478) - MaxAffordableStake(90031, 922337203685478) == 9999
  {
  }

  /** On the shipped wheel: 8427 cents for the bankrolls just beyond the switch, and nothing for any other. */
  lemma ShippedCapLoss(bankroll: int)
    requires 0 <= bankroll <= MAX_INT64
    ensures MaxMult(WHEEL) == 2000000
    ensures IdealCap(2000000, bankroll) - MaxAffordableStake(2000000, bankroll) ==
            if 922337203685478 <= bankroll < 922337204000000 then 8427 else 0
  {
    ShippedTablesValid();
    hide MaxMult;
    if bankroll > MAX_INT64 / 10000 {
      ShippedLossBeyond(bankroll);
    } else if bankroll > 0 {
      CapValue(2000000, bankroll);
      hide MaxAffordableStake;
    }
  }

  lemma ShippedLossBeyond(bankroll: int)
    requires MAX_INT64 / 10000 < bankroll <= MAX_INT64
    ensures IdealCap(2000000, bankroll) - MaxAffordableStake(2000000, bankroll) ==
            if bankroll < 922337204000000 then 8427 else 0
  {
    CapValue(2000000, bankroll);
    hide MaxAffordableStake;
    var q := bankroll / 2000000;
    assert if bankroll < 922337204000000 then q == 461168601 else q >= 461168602;
  }

  /** So the cap drops where the branch takes over. */
  lemma CapDropsAtTheSwitch()
    ensures MaxAffordableStake(2000000, 922337203685477) == 4611686018427
    ensures MaxAffordableStake(2000000, 922337203685478) == 4611686010000
    ensures MAX_INT64 / 10000 == 922337203685477
  {
  }

  /** Below 1x it can wrap: the cap of the largest bankroll comes out negative. */
  lemma CapWrapsBelowOne()
    ensures MaxAffordableStake(1, MAX_INT64) == -10000
  {
  }

  predicate CapNotNegative(m: nat, bankroll: int) {
    MaxAffordableStake(m, bankroll) >= 0
  }

  /** The wheels whose cap is a stake at all, whatever the bankroll: those that pay nothing, and those with a segment
      that returns the stake. */
  lemma CapNeverNegative(m: nat)
    requires m <= MAX_INT64
    ensures (forall bankroll | 0 <= bankroll <= MAX_INT64 :: CapNotNegative(m, bankroll)) <==> m == 0 || m >= 10000
  {
    if m == 0 || m >= 10000 {
      forall bankroll | 0 <= bankroll <= MAX_INT64 ensures CapNotNegative(m, bankroll) {
        CapCovered(m, bankroll);
      }
    } else {
      var bankroll := 922337203685478 * m;
      MulMono(m, 9999, 922337203685478);
      MulMono(1, m, 922337203685478);
      assert bankroll / m == 922337203685478 by { QuotientPlus(922337203685478, 0, m); }
      assert !CapNotNegative(m, bankroll);
    }
  }

  /** What GET /v1/game/config reports as the largest stake. */
  function AdvertisedMax(m: nat, maxStake: int, bankroll: int): int {
    var afford := MaxAffordableStake(m, bankroll);
    if afford < maxStake then afford else maxStake
  }

  /** Every stake in the advertised range passes Spin's limit checks and its bankroll check. */
  lemma AdvertisedRangeAdmitted(m: nat, minStake: int, maxStake: int, bankroll: int, stake: int)
    requires 0 < minStake && maxStake <= MaxSafeStake(m) && 0 <= bankroll <= MAX_INT64
    requires minStake <= stake <= AdvertisedMax(m, maxStake, bankroll)
    ensures minStake <= stake <= maxStake
    ensures MaxExposure(m, stake) <= bankroll
  {
    var cap := MaxAffordableStake(m, bankroll);
    CapCovered(m, bankroll);
    if m > 0 && bankroll > 0 {
      CapBelowQuotient(m, bankroll);
      MulMono(stake, cap, m);
      Covers(m, bankroll, stake);
    }
  }

  /** And on a wheel topping out at a whole multiple of the stake, for bankrolls that can be scaled, it is exactly the stakes
      up to the ceiling whose worst case the bankroll covers that are advertised. */
  lemma AdvertisedExactly(m: nat, maxStake: int, bankroll: int, stake: int)
    requires m > 0 && m % 10000 == 0 && 0 <= bankroll <= MAX_INT64 / 10000 && 0 <= stake
    ensures stake <= AdvertisedMax(m, maxStake, bankroll) <==> stake <= maxStake && stake * m <= bankroll * 10000
    ensures stake <= AdvertisedMax(m, maxStake, bankroll) <==> stake <= maxStake && MaxExposure(m, stake) <= bankroll
  {
    MulMono(0, stake, m);
    CapExact(m, bankroll, stake);
    CapDisagrees(m, bankroll, stake);
    WholeMultiples(m, bankroll, stake);
    hide MaxAffordableStake, MaxExposure;
  }

  predicate ShareFits(stake: int, bp: int) {
    IsInt64(stake * bp)
  }

  lemma SmallerShare(stake: int, ceiling: int, bp: int)
    requires 0 <= stake <= ceiling && 0 <= bp && ShareFits(ceiling, bp)
    ensures ShareFits(stake, bp)
  {
    MulMono(stake, ceiling, bp);
    MulMono(0, stake, bp);
  }

  /** The wheels whose stake ceiling also keeps every share of a stake inside an int64. */
  lemma SharesFit(m: nat)
    requires m <= MAX_INT64
    ensures (forall stake, bp | 0 <= stake <= MaxSafeStake(m) && 0 <= bp <= 10000 :: ShareFits(stake, bp)) <==> m >= 10000
  {
    if m >= 10000 {
      forall stake, bp | 0 <= stake <= MaxSafeStake(m) && 0 <= bp <= 10000 ensures ShareFits(stake, bp) {
        FloorDiv(MAX_INT64, m, stake);
        MulMono(bp, 10000, stake);
        MulMono(10000, m, stake);
        MulMono(0, bp, stake);
      }
    } else {
      if m > 0 {
        FloorDiv(MAX_INT64, m, MAX_INT64 / 10000 + 1);
        MulMono(m, 9999, MAX_INT64 / 10000 + 1);
      }
      assert !ShareFits(MAX_INT64 / 10000 + 1, 10000);
    }
  }

  /** Nothing Spin computes from an admissible stake leaves the int64 range when its shares do not. */
  lemma SpinArithmeticFits(m: nat, stake: int, multBP: int, rakeBP: int, referralBP: int)
    requires 0 <= stake <= MaxSafeStake(m) && 0 <= multBP <= m
    requires 0 <= rakeBP && 0 <= referralBP && rakeBP + referralBP <= 10000
    requires ShareFits(stake, rakeBP) && ShareFits(stake, referralBP)
    ensures IsInt64(stake * multBP)
    ensures Payout(stake, rakeBP) == stake * rakeBP / 10000 && Payout(stake, referralBP) == stake * referralBP / 10000
    ensures 0 <= Payout(stake, rakeBP) && 0 <= Payout(stake, referralBP)
    ensures Payout(stake, rakeBP) + Payout(stake, referralBP) <= stake
    ensures IsInt64(stake - Payout(stake, multBP) - Payout(stake, rakeBP) - Payout(stake, referralBP))
  {
    PayoutCovered(m, stake, multBP);
    EdgeCovers(stake, rakeBP, referralBP);
    if m > 0 {
      FloorDiv(MAX_INT64, m, stake);
    }
  }

  /** Rake and commission, each rounded down, fit inside the stake whenever their rates add up to it. */
  lemma EdgeCovers(stake: int, rakeBP: int, referralBP: int)
    requires 0 <= stake && 0 <= rakeBP && 0 <= referralBP && rakeBP + referralBP <= 10000
    ensures 0 <= stake * rakeBP && 0 <= stake * referralBP
    ensures stake * rakeBP / 10000 + stake * referralBP / 10000 <= stake
  {
    MulMono(0, rakeBP, stake);
    MulMono(0, referralBP, stake);
    MulMono(rakeBP + referralBP, 10000, stake);
    assert stake * (rakeBP + referralBP) == stake * rakeBP + stake * referralBP;
  }
}
