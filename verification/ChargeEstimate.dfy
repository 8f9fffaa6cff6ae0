/** Conservative charge-duration estimates (api/chargeestimate). */
module ChargeEstimate {
  import opened Wrappers
  import opened Models

  const SAFETY_MARGIN_FACTOR: real := 1.1
  const CV_PENALTY_FACTOR: real := 2.0

  /** Minutes needed for the three phases: 0-20, 20-80 and 80-100 percent. */
  datatype Phases = Phases(preCC: real, cc: real, cv: real)

  function DeriveCC(v: Vehicle): (r: Option<real>)
    ensures r.Some? ==> r.value > 0.0
  {
    if v.time20to80Min.Some? && v.time20to80Min.value > 0 then Some(v.time20to80Min.value as real)
    else if v.chargerOutputW > 0.0 && v.capacityKwh > 0.0 then
      Some(PowerMinutes(v, v.capacityKwh * 0.6))
    else None
  }

  /** Minutes to push `energy` kWh into the battery at the charger's rated power. */
  function PowerMinutes(v: Vehicle, energy: real): (r: real)
    requires v.chargerOutputW > 0.0 && energy > 0.0
    ensures r > 0.0
  {
    var effective := v.chargerOutputW / 1000.0 * v.Efficiency();
    assert effective > 0.0;
    energy / effective * 60.0
  }

  function DerivePreCC(v: Vehicle, cc: real): (r: real)
    requires cc > 0.0
    ensures r > 0.0
  {
    if Longer(v.time0to80Min, v.time20to80Min) then
      (v.time0to80Min.value - v.time20to80Min.value) as real
    else if Longer(v.time0to100Min, v.time20to100Min) then
      (v.time0to100Min.value - v.time20to100Min.value) as real
    else if v.chargerOutputW > 0.0 && v.capacityKwh > 0.0 then
      PowerMinutes(v, v.capacityKwh * 0.2)
    else
      cc / 60.0 * 20.0
  }

  function DeriveCV(v: Vehicle, cc: real): (r: real)
    requires cc > 0.0
    ensures r > 0.0
  {
    if Longer(v.time20to100Min, v.time20to80Min) then
      (v.time20to100Min.value - v.time20to80Min.value) as real
    else if Longer(v.time0to100Min, v.time0to80Min) then
      (v.time0to100Min.value - v.time0to80Min.value) as real
    else
      cc / 60.0 * 20.0 * CV_PENALTY_FACTOR
  }

  predicate Longer(a: Option<int>, b: Option<int>) {
    a.Some? && b.Some? && a.value > b.value
  }

  ghost predicate Positive(p: Phases) {
    p.preCC > 0.0 && p.cc > 0.0 && p.cv > 0.0
  }

  function DerivePhases(v: Vehicle): (r: Option<Phases>)
    ensures r.Some? ==> Positive(r.value)
  {
    match DeriveCC(v)
    case None => None
    case Some(cc) => Some(Phases(DerivePreCC(v, cc), cc, DeriveCV(v, cc)))
  }

  // ---------------------------------------------------------------- reference definition

  /** The fraction of each phase that lies below `p` percent. */
  function PreCCShare(p: real): real { Min(p, 20.0) / 20.0 }
  function CCShare(p: real): real { (Max(20.0, Min(p, 80.0)) - 20.0) / 60.0 }
  function CVShare(p: real): real { (Max(80.0, p) - 80.0) / 20.0 }

  /** Charging minutes from 0 up to `p` percent, before the safety margin: the integral of
      the three constant rates, so that a charge from a to b takes Work(b) - Work(a). */
  function Work(f: Phases, p: real): real {
    f.preCC * PreCCShare(p) + f.cc * CCShare(p) + f.cv * CVShare(p)
  }

  function Ceil(x: real): (n: int)
    ensures x <= n as real < x + 1.0
  {
    -(-x).Floor
  }

  /** What `EstimateMinutes` promises: the whole number of minutes that covers the work
      between the two percents with a ten percent margin. */
  function Estimate(v: Vehicle, current: real, target: real): (r: Option<int>)
    ensures current >= target ==> r == Some(0)
    ensures r.None? <==> current < target && DeriveCC(v).None?
  {
    if current >= target then Some(0)
    else match DerivePhases(v)
      case None => None
      case Some(f) => Some(Ceil((Work(f, target) - Work(f, current)) * SAFETY_MARGIN_FACTOR))
  }

  lemma WorkBetween(f: Phases, a: real, b: real)
    ensures Work(f, b) - Work(f, a) ==
            f.preCC * (PreCCShare(b) - PreCCShare(a))
            + f.cc * (CCShare(b) - CCShare(a)) + f.cv * (CVShare(b) - CVShare(a))
  {
  }

  lemma ShareBetween(a: real, b: real)
    requires a < b
    ensures PreCCShare(b) - PreCCShare(a) == if a < 20.0 then (Min(b, 20.0) - a) / 20.0 else 0.0
    ensures CCShare(b) - CCShare(a) ==
            if a < 80.0 && b > 20.0 && Min(b, 80.0) > Max(a, 20.0) then (Min(b, 80.0) - Max(a, 20.0)) / 60.0 else 0.0
    ensures CVShare(b) - CVShare(a) == if b > 80.0 then (b - Max(a, 80.0)) / 20.0 else 0.0
  {
  }

  /** Adds up the phases that a charge from `current` to `target` passes through. */
  method PhaseMinutes(f: Phases, current: real, target: real) returns (totalMin: real)
    requires current < target
    ensures totalMin == Work(f, target) - Work(f, current)
  {
    ShareBetween(current, target);
    WorkBetween(f, current, target);
    totalMin := 0.0;
    if current < 20.0 {
      var end := Min(target, 20.0);
      totalMin := totalMin + f.preCC * ((end - current) / 20.0);
    }
    if current < 80.0 && target > 20.0 {
      var start := Max(current, 20.0);
      var end := Min(target, 80.0);
      if end > start {
        totalMin := totalMin + f.cc * ((end - start) / 60.0);
      }
    }
    if target > 80.0 {
      var start := Max(current, 80.0);
      totalMin := totalMin + f.cv * ((target - start) / 20.0);
    }
  }

  /** `EstimateMinutes`. */
  method EstimateMinutes(v: Vehicle, current: real, target: real) returns (r: Option<int>)
    ensures r == Estimate(v, current, target)
  {
    if current >= target {
      return Some(0);
    }
    var phases := DerivePhases(v);
    if phases.None? {
      return None;
    }
    var totalMin := PhaseMinutes(phases.value, current, target);
    totalMin := totalMin * SAFETY_MARGIN_FACTOR;
    r := Some(Ceil(totalMin));
  }

  // ---------------------------------------------------------------- properties

  lemma ScaleStrictly(k: real, x: real, y: real)
    requires k > 0.0 && x <= y
    ensures k * x <= k * y
    ensures x < y ==> k * x < k * y
  {
    assert k * (y - x) >= 0.0;
    if x < y {
      assert k * (y - x) > 0.0;
    }
  }

  lemma WorkIncreases(f: Phases, a: real, b: real)
    requires Positive(f) && a < b
    ensures Work(f, a) < Work(f, b)
  {
    hide PreCCShare, CCShare, CVShare;
    SharesIncrease(a, b);
    ScaleStrictly(f.preCC, PreCCShare(a), PreCCShare(b));
    ScaleStrictly(f.cc, CCShare(a), CCShare(b));
    ScaleStrictly(f.cv, CVShare(a), CVShare(b));
  }

  lemma SharesIncrease(a: real, b: real)
    requires a < b
    ensures PreCCShare(a) <= PreCCShare(b) && CCShare(a) <= CCShare(b) && CVShare(a) <= CVShare(b)
    ensures PreCCShare(a) < PreCCShare(b) || CCShare(a) < CCShare(b) || CVShare(a) < CVShare(b)
  {
  }

  /** Nothing is reserved exactly when the battery is already there. */
  lemma ZeroExactlyAtTarget(v: Vehicle, current: real, target: real)
    ensures Estimate(v, current, target) == Some(0) <==> current >= target
    ensures Estimate(v, current, target).Some? && current < target ==> Estimate(v, current, target).value >= 1
  {
    if current < target && DerivePhases(v).Some? {
      WorkIncreases(DerivePhases(v).value, current, target);
    }
  }

  /** The estimate never falls when the target rises, nor when the start falls. */
  lemma EstimateMonotone(v: Vehicle, current: real, current': real, target: real, target': real)
    requires current' <= current && target <= target'
    requires Estimate(v, current', target').Some?
    ensures Estimate(v, current, target).Some?
    ensures Estimate(v, current, target).value <= Estimate(v, current', target').value
  {
    ZeroExactlyAtTarget(v, current', target');
    if current < target {
      var f := DerivePhases(v).value;
      if current' < current { WorkIncreases(f, current', current); }
      if target < target' { WorkIncreases(f, target, target'); }
    }
  }

  /** Splitting a charge at `b` never reserves less time than the whole, and at most one
      minute more. */
  lemma SplitCharge(v: Vehicle, a: real, b: real, c: real)
    requires a <= b <= c
    requires Estimate(v, a, c).Some?
    ensures Estimate(v, a, b).Some? && Estimate(v, b, c).Some?
    ensures var whole, split := Estimate(v, a, c).value, Estimate(v, a, b).value + Estimate(v, b, c).value;
            whole <= split <= whole + 1
  {
    if a < b < c {
      var f := DerivePhases(v).value;
      var x := (Work(f, b) - Work(f, a)) * SAFETY_MARGIN_FACTOR;
      var y := (Work(f, c) - Work(f, b)) * SAFETY_MARGIN_FACTOR;
      assert (Work(f, c) - Work(f, a)) * SAFETY_MARGIN_FACTOR == x + y;
    }
  }

  // ---------------------------------------------------------------- the vehicle's own data

  /** The estimate for a charge that takes `minutes` before the safety margin. */
  function WithMargin(minutes: real): int {
    Ceil(minutes * 1.1)
  }

  lemma EstimateIsWork(v: Vehicle, a: real, b: real)
    requires a < b && DerivePhases(v).Some?
    ensures var f := DerivePhases(v).value;
            Estimate(v, a, b) == Some(WithMargin(Work(f, b) - Work(f, a)))
  {
  }

  lemma PreCCAtEnds()
    ensures PreCCShare(0.0) == 0.0 && PreCCShare(20.0) == PreCCShare(80.0) == PreCCShare(100.0) == 1.0
  {
  }

  lemma CCAtEnds()
    ensures CCShare(0.0) == CCShare(20.0) == 0.0 && CCShare(80.0) == CCShare(100.0) == 1.0
  {
  }

  lemma CVAtEnds()
    ensures CVShare(0.0) == CVShare(20.0) == CVShare(80.0) == 0.0 && CVShare(100.0) == 1.0
  {
  }

  /** The work up to the ends of the phases. */
  lemma WorkAtEnds(f: Phases)
    ensures Work(f, 0.0) == 0.0 && Work(f, 20.0) == f.preCC
    ensures Work(f, 80.0) == f.preCC + f.cc && Work(f, 100.0) == f.preCC + f.cc + f.cv
  {
    hide PreCCShare, CCShare, CVShare;
    PreCCAtEnds();
    CCAtEnds();
    CVAtEnds();
  }

  /** The minutes of so many percent, where `span` percent take `minutes`. */
  function Part(minutes: real, percent: real, span: real): real
    requires span > 0.0
  {
    minutes * (percent / span)
  }

  /** The work inside one phase. */
  lemma WorkInside(f: Phases, a: real, b: real)
    requires a < b
    ensures b <= 20.0 ==> Work(f, b) - Work(f, a) == Part(f.preCC, b - a, 20.0)
    ensures 20.0 <= a && b <= 80.0 ==> Work(f, b) - Work(f, a) == Part(f.cc, b - a, 60.0)
    ensures 80.0 <= a ==> Work(f, b) - Work(f, a) == Part(f.cv, b - a, 20.0)
  {
    WorkBetween(f, a, b);
    ShareBetween(a, b);
    hide Work, PreCCShare, CCShare, CVShare;
  }

  /** A vehicle with times from 20 to 80 percent and, longer, from 0 to 80: a charge from 0 to 80
      is estimated from the latter. */
  lemma From0To80(v: Vehicle)
    requires v.time20to80Min.Some? && v.time20to80Min.value > 0 && Longer(v.time0to80Min, v.time20to80Min)
    ensures Estimate(v, 0.0, 80.0) == Some(WithMargin(v.time0to80Min.value as real))
  {
    EstimateIsWork(v, 0.0, 80.0);
    hide Estimate, Work, WithMargin;
    WorkAtEnds(DerivePhases(v).value);
  }

  /** The same from 20 to 100. */
  lemma From20To100(v: Vehicle)
    requires v.time20to80Min.Some? && v.time20to80Min.value > 0 && Longer(v.time20to100Min, v.time20to80Min)
    ensures Estimate(v, 20.0, 100.0) == Some(WithMargin(v.time20to100Min.value as real))
  {
    EstimateIsWork(v, 20.0, 100.0);
    hide Estimate, Work, WithMargin;
    WorkAtEnds(DerivePhases(v).value);
  }

  /** And from 0 to 100, when one of the two middle times is missing or of no use. */
  lemma From0To100(v: Vehicle)
    requires v.time20to80Min.Some? && v.time20to80Min.value > 0
    requires || (Longer(v.time0to80Min, v.time20to80Min) && !Longer(v.time20to100Min, v.time20to80Min)
                 && Longer(v.time0to100Min, v.time0to80Min))
             || (!Longer(v.time0to80Min, v.time20to80Min) && Longer(v.time20to100Min, v.time20to80Min)
                 && Longer(v.time0to100Min, v.time20to100Min))
    ensures Estimate(v, 0.0, 100.0) == Some(WithMargin(v.time0to100Min.value as real))
  {
    EstimateIsWork(v, 0.0, 100.0);
    hide Estimate, Work, WithMargin;
    WorkAtEnds(DerivePhases(v).value);
  }

  /** Between 20 and 80 percent a charge takes its part of the 20-to-80 time. */
  lemma Inside20To80(v: Vehicle, a: real, b: real)
    requires v.time20to80Min.Some? && v.time20to80Min.value > 0 && 20.0 <= a < b <= 80.0
    ensures Estimate(v, a, b) == Some(WithMargin(Part(v.time20to80Min.value as real, b - a, 60.0)))
  {
    EstimateIsWork(v, a, b);
    hide Estimate, Work, WithMargin, Part;
    WorkInside(DerivePhases(v).value, a, b);
  }

  predicate HasNoTimes(v: Vehicle) {
    v.time0to80Min.None? && v.time20to80Min.None? && v.time0to100Min.None? && v.time20to100Min.None?
  }

  /** Minutes in which the charger, at its rated power, puts that share of the capacity into
      the battery: energy over power times efficiency. */
  function ChargerMinutes(v: Vehicle, percent: real): real
    requires v.chargerOutputW > 0.0
  {
    v.capacityKwh * percent / 100.0 / (v.chargerOutputW / 1000.0 * v.Efficiency()) * 60.0
  }

  lemma ProductPositive(x: real, y: real)
    requires x > 0.0 && y > 0.0
    ensures x * y > 0.0
  {
  }

  lemma ScaledQuotient(x: real, k: real, d: real)
    requires d > 0.0
    ensures x * k / d * 60.0 == k * (x / d * 60.0)
  {
    var q := x / d;
    assert q * d == x;
    assert k * q * d == x * k;
  }

  lemma PowerMinutesOfShare(v: Vehicle, share: real)
    requires v.chargerOutputW > 0.0 && v.capacityKwh > 0.0 && share > 0.0
    ensures v.capacityKwh * share > 0.0
    ensures PowerMinutes(v, v.capacityKwh * share) == share * ChargerMinutes(v, 100.0)
  {
    hide Vehicle.Efficiency;
    var kw := v.chargerOutputW / 1000.0 * v.Efficiency();
    ProductPositive(v.capacityKwh, share);
    ProductPositive(v.chargerOutputW / 1000.0, v.Efficiency());
    ScaledQuotient(v.capacityKwh, share, kw);
    assert ChargerMinutes(v, 100.0) == v.capacityKwh / kw * 60.0;
  }

  /** With nothing but power and capacity, a charge below 80 percent takes its energy over the
      power that reaches the battery. */
  lemma ByPowerBelow80(v: Vehicle, a: real, b: real)
    requires HasNoTimes(v) && v.chargerOutputW > 0.0 && v.capacityKwh > 0.0
    requires 0.0 <= a < b <= 80.0
    ensures Estimate(v, a, b) == Some(WithMargin(Part(ChargerMinutes(v, 100.0), b - a, 100.0)))
  {
    hide PowerMinutes, ChargerMinutes;
    var f, whole := DerivePhases(v).value, ChargerMinutes(v, 100.0);
    PowerMinutesOfShare(v, 0.6);
    PowerMinutesOfShare(v, 0.2);
    assert f.cc == 0.6 * whole && f.preCC == 0.2 * whole;
    EstimateIsWork(v, a, b);
    hide DerivePhases, Estimate, WithMargin, Work, Part;
    WorkBelow80(f, whole, a);
    WorkBelow80(f, whole, b);
    PartsDiffer(whole, a, b);
  }

  lemma WorkBelow80(f: Phases, whole: real, p: real)
    requires f.cc == 0.6 * whole && f.preCC == 0.2 * whole && 0.0 <= p <= 80.0
    ensures Work(f, p) == Part(whole, p, 100.0)
  {
    hide Work;
    WorkAtEnds(f);
    if 0.0 < p <= 20.0 {
      WorkInside(f, 0.0, p);
    } else if p > 20.0 {
      WorkInside(f, 20.0, p);
    }
  }

  lemma PartsDiffer(whole: real, a: real, b: real)
    ensures Part(whole, b, 100.0) - Part(whole, a, 100.0) == Part(whole, b - a, 100.0)
  {
    assert whole * (b / 100.0) - whole * (a / 100.0) == whole * (b / 100.0 - a / 100.0);
  }

  /** Below 20 percent the power decides when there is a time for 20 to 80 only. */
  lemma PreCCByPower(v: Vehicle)
    requires v.time20to80Min.Some? && v.time20to80Min.value > 0 && v.chargerOutputW > 0.0 && v.capacityKwh > 0.0
    requires !Longer(v.time0to80Min, v.time20to80Min) && !Longer(v.time0to100Min, v.time20to100Min)
    ensures Estimate(v, 0.0, 20.0) == Some(WithMargin(0.2 * ChargerMinutes(v, 100.0)))
  {
    hide PowerMinutes, ChargerMinutes;
    PowerMinutesOfShare(v, 0.2);
    EstimateIsWork(v, 0.0, 20.0);
    hide Estimate, Work, WithMargin;
    WorkAtEnds(DerivePhases(v).value);
  }

  /** Without power either, a percent below 20 takes as long as one between 20 and 80. */
  lemma PreCCAtRateOfCC(v: Vehicle, a: real, b: real)
    requires v.time20to80Min.Some? && v.time20to80Min.value > 0 && !(v.chargerOutputW > 0.0 && v.capacityKwh > 0.0)
    requires !Longer(v.time0to80Min, v.time20to80Min) && !Longer(v.time0to100Min, v.time20to100Min)
    requires a < b <= 20.0
    ensures Estimate(v, a, b) == Some(WithMargin(Part(v.time20to80Min.value as real, b - a, 60.0)))
  {
    EstimateIsWork(v, a, b);
    var f := DerivePhases(v).value;
    assert f.preCC == f.cc / 3.0 && f.cc == v.time20to80Min.value as real;
    hide Estimate, Work, WithMargin, DerivePhases, Part;
    WorkInside(f, a, b);
    PartOfThird(f.cc, b - a);
  }

  /** A third of the minutes for a third of the percents is the same rate. */
  lemma PartOfThird(cc: real, x: real)
    ensures Part(cc / 3.0, x, 20.0) == Part(cc, x, 60.0)
    ensures Part(2.0 * (cc / 3.0), x, 20.0) == 2.0 * Part(cc, x, 60.0)
  {
    assert cc / 3.0 * (x / 20.0) == cc * (x / 60.0);
    assert 2.0 * (cc / 3.0) * (x / 20.0) == 2.0 * (cc * (x / 60.0));
  }

  /** Without a time for the last fifth, a charge above 80 percent takes twice the minutes that
      the same rise takes between 20 and 80. */
  lemma CVTakesTwice(v: Vehicle, a: real, b: real, c: real)
    requires DerivePhases(v).Some?
    requires !Longer(v.time20to100Min, v.time20to80Min) && !Longer(v.time0to100Min, v.time0to80Min)
    requires 80.0 <= a < b <= 100.0 && 20.0 <= c && c + (b - a) <= 80.0
    ensures var minutes := Part(DerivePhases(v).value.cc, b - a, 60.0);
            && Estimate(v, c, c + (b - a)) == Some(WithMargin(minutes))
            && Estimate(v, a, b) == Some(WithMargin(2.0 * minutes))
  {
    EstimateIsWork(v, a, b);
    EstimateIsWork(v, c, c + (b - a));
    var f := DerivePhases(v).value;
    assert f.cv == 2.0 * (f.cc / 3.0);
    hide Estimate, Work, WithMargin, DerivePhases, Part;
    WorkInside(f, a, b);
    WorkInside(f, c, c + (b - a));
    PartOfThird(f.cc, b - a);
  }

  // ---------------------------------------------------------------- projection

  ghost function Pow2(n: nat): (r: real)
    ensures r > 0.0
  {
    if n == 0 then 1.0 else 2.0 * Pow2(n - 1)
  }

  /** `p` is the best percent the estimate lets the vehicle reach in `available` minutes, up
      to `slack`: `p` is reachable and nothing in (p + slack, 100] is. */
  ghost predicate IsProjection(v: Vehicle, current: real, available: int, p: real, slack: real) {
    && current <= p <= 100.0
    && Estimate(v, current, p).Some?
    && Estimate(v, current, p).value <= available
    && forall q {:trigger Estimate(v, current, q)} :: p + slack < q <= 100.0 ==>
         Estimate(v, current, q).Some? && Estimate(v, current, q).value > available
  }

  /** `ProjectPercent`: 64 bisection steps on the estimate. */
  method ProjectPercent(v: Vehicle, current: real, available: int) returns (p: real)
    ensures available <= 0 ==> p == current
    ensures available > 0 && current < 100.0 && DeriveCC(v).None? ==> p == current
    ensures available > 0 && current < 100.0 && DeriveCC(v).Some? ==>
              IsProjection(v, current, available, p, (100.0 - current) / Pow2(64))
    ensures available > 0 && current >= 100.0 ==> 100.0 <= p <= current
  {
    if available <= 0 {
      return current;
    }
    var lo, hi := current, 100.0;
    for i := 0 to 64
      invariant current < 100.0 ==> current <= lo < hi <= 100.0
      invariant current >= 100.0 ==> hi == 100.0 <= lo <= current
      invariant current < 100.0 && DeriveCC(v).None? ==> i == 0
      invariant hi - lo == (100.0 - current) / Pow2(i)
      invariant Estimate(v, current, lo).Some? && Estimate(v, current, lo).value <= available
      invariant hi != 100.0 ==> Estimate(v, current, hi).Some? && Estimate(v, current, hi).value > available
    {
      var mid := (lo + hi) / 2.0;
      var mins := EstimateMinutes(v, current, mid);
      if mins.None? {
        return current;
      }
      Halve(100.0 - current, Pow2(i));
      if mins.value <= available {
        lo := mid;
      } else {
        hi := mid;
      }
    }
    if current < 100.0 {
      forall q {:trigger Estimate(v, current, q)} | hi < q <= 100.0
        ensures Estimate(v, current, q).Some? && Estimate(v, current, q).value > available
      {
        EstimateMonotone(v, current, current, hi, q);
      }
    }
    return lo;
  }

  lemma Halve(w: real, d: real)
    requires d > 0.0
    ensures w / d / 2.0 == w / (2.0 * d)
  {
    var x := w / d;
    assert x * d == w;
    assert x / 2.0 * (2.0 * d) == w;
  }

  /** Any projection for fewer minutes than the estimate to the target lies strictly below it. */
  lemma ProjectionBelowTarget(v: Vehicle, current: real, target: real, available: int, p: real, slack: real)
    requires IsProjection(v, current, available, p, slack)
    requires Estimate(v, current, target).Some? && available < Estimate(v, current, target).value
    ensures p < target
  {
    if target <= p {
      EstimateMonotone(v, current, current, target, p);
    }
  }
}
