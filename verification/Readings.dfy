/** Which power readings are stored, and what idle detection and billing make of them
    (api/services/session_monitoring_service.go). */
module Readings {
  import opened Wrappers
  import opened Clock
  import Cost

  const IDLE_POWER_THRESHOLD_W: real := 30.0
  const STALE_READING_THRESHOLD: int := 1_800_000_000_000
  const IDLE_SESSION_TIMEOUT: int := 900_000_000_000
  const MIN_SESSION_DURATION_BEFORE_IDLE_CHECK: int := 600_000_000_000

  datatype PowerReading = PowerReading(at: Instant, power: real, voltage: real, current: real, carbon: Option<real>,
                                       energyKwh: real)

  /** A reading, and the later clock time at which the last stored one is judged for age. */
  datatype Sample = Sample(reading: PowerReading, checkedAt: Instant)

  // ---------------------------------------------------------------- de-duplication

  /** `shouldStorePowerReading`; the cumulative meter is not compared. */
  predicate ShouldStore(last: Option<PowerReading>, s: Sample) {
    match last
    case None => true
    case Some(l) =>
      || s.checkedAt - l.at >= STALE_READING_THRESHOLD
      || l.power != s.reading.power || l.voltage != s.reading.voltage || l.current != s.reading.current
      || l.carbon != s.reading.carbon
  }

  /** A reading is dropped exactly when it differs from the last stored one in nothing but its
      time and the meter, and that one is younger than half an hour. */
  lemma DroppedExactly(last: PowerReading, s: Sample)
    ensures !ShouldStore(Some(last), s) <==>
              && s.reading == last.(at := s.reading.at, energyKwh := s.reading.energyKwh)
              && s.checkedAt - last.at < HALF_HOUR
  {
  }

  function Last(rs: seq<PowerReading>): Option<PowerReading> {
    if rs == [] then None else Some(rs[|rs| - 1])
  }

  function Kept(stored: seq<PowerReading>, s: Sample): seq<PowerReading> {
    if ShouldStore(Last(stored), s) then stored + [s.reading] else stored
  }

  /** The readings a session keeps of a stream of samples, and all of them. */
  function Stored(samples: seq<Sample>): seq<PowerReading> {
    if samples == [] then [] else Kept(Stored(samples[..|samples| - 1]), samples[|samples| - 1])
  }

  function All(samples: seq<Sample>): (rs: seq<PowerReading>)
    ensures |rs| == |samples|
  {
    if samples == [] then [] else All(samples[..|samples| - 1]) + [samples[|samples| - 1].reading]
  }

  /** The reading table of one session. */
  class ReadingLog {
    var readings: seq<PowerReading>

    constructor ()
      ensures readings == []
    {
      readings := [];
    }

    method Save(s: Sample)
      modifies this
      ensures readings == Kept(old(readings), s)
    {
      if |readings| > 0 {
        var last := readings[|readings| - 1];
        if s.checkedAt - last.at < STALE_READING_THRESHOLD
           && last.power == s.reading.power && last.voltage == s.reading.voltage && last.current == s.reading.current
           && last.carbon == s.reading.carbon
        {
          return;
        }
      }
      readings := readings + [s.reading];
    }
  }

  // ---------------------------------------------------------------- idle detection

  predicate Idle(r: PowerReading) {
    r.power < IDLE_POWER_THRESHOLD_W
  }

  /** Where the longest all-idle suffix starts. */
  function StreakIndex(rs: seq<PowerReading>): (k: nat)
    ensures k <= |rs|
    ensures forall i :: k <= i < |rs| ==> Idle(rs[i])
    ensures k > 0 ==> !Idle(rs[k - 1])
  {
    if rs == [] || !Idle(rs[|rs| - 1]) then |rs| else StreakIndex(rs[..|rs| - 1])
  }

  /** `idleStreakStart`. */
  method IdleStreakStart(rs: seq<PowerReading>) returns (start: Instant, idle: bool)
    requires |rs| > 0
    ensures idle <==> StreakIndex(rs) < |rs|
    ensures idle ==> start == rs[StreakIndex(rs)].at
  {
    var last := rs[|rs| - 1];
    if last.power >= IDLE_POWER_THRESHOLD_W {
      return 0, false;
    }
    start := last.at;
    var i := |rs| - 1;
    while i >= 0 && rs[i].power < IDLE_POWER_THRESHOLD_W
      invariant -1 <= i < |rs|
      invariant forall j :: i < j < |rs| ==> Idle(rs[j])
      invariant start == rs[if i == |rs| - 1 then i else i + 1].at
    {
      start := rs[i].at;
      i := i - 1;
    }
    return start, true;
  }

  /** `stopIdleSession`: whether the session is completed as idle, with the clock read twice. */
  predicate StopsIdle(startedAt: Option<Instant>, rs: seq<PowerReading>, now: Instant, later: Instant) {
    && startedAt.Some? && now - startedAt.value >= MIN_SESSION_DURATION_BEFORE_IDLE_CHECK
    && StreakIndex(rs) < |rs|
    && later - rs[StreakIndex(rs)].at >= IDLE_SESSION_TIMEOUT
  }

  /** From reading `k` on everything is idle, and the reading before is not. */
  ghost predicate IdlesSince(rs: seq<PowerReading>, k: int) {
    && 0 <= k < |rs| && (forall i :: k <= i < |rs| ==> rs[i].power < 30.0)
    && (k > 0 ==> rs[k - 1].power >= 30.0)
  }

  /** A session is stopped as idle exactly when it started ten minutes ago or more and the
      readings have been below 30 W throughout since one that is 15 minutes old or more. */
  lemma StopsIdleExactly(startedAt: Option<Instant>, rs: seq<PowerReading>, now: Instant, later: Instant)
    ensures StopsIdle(startedAt, rs, now, later) <==>
              && startedAt.Some? && now - startedAt.value >= 10 * MINUTE
              && exists k :: IdlesSince(rs, k) && later - rs[k].at >= 15 * MINUTE
  {
    var k := StreakIndex(rs);
    assert forall j :: IdlesSince(rs, j) ==> j == k;
    assert k < |rs| ==> IdlesSince(rs, k);
  }

  lemma StreakAppended(rs: seq<PowerReading>, r: PowerReading)
    ensures StreakIndex(rs + [r]) == if Idle(r) then StreakIndex(rs) else |rs| + 1
  {
    assert (rs + [r])[..|rs|] == rs;
  }

  /** The stored readings start the same idle streak as the full stream, with the same
      reading: dropping equal readings hides no change of power. */
  lemma {:induction false} SameStreak(samples: seq<Sample>)
    requires samples != []
    ensures var full, kept := All(samples), Stored(samples);
            && kept != [] && kept[|kept| - 1].power == full[|full| - 1].power
            && (StreakIndex(kept) < |kept| <==> StreakIndex(full) < |full|)
            && (StreakIndex(full) < |full| ==> kept[StreakIndex(kept)] == full[StreakIndex(full)])
  {
    var n := |samples| - 1;
    var full, kept, r := All(samples[..n]), Stored(samples[..n]), samples[n].reading;
    StreakAppended(full, r);
    StreakAppended(kept, r);
    if n > 0 {
      SameStreak(samples[..n]);
    }
  }

  /** So the idle check decides the same on what is stored as it would on everything. */
  lemma SameIdleVerdict(samples: seq<Sample>, startedAt: Option<Instant>, now: Instant, later: Instant)
    ensures StopsIdle(startedAt, Stored(samples), now, later) <==> StopsIdle(startedAt, All(samples), now, later)
  {
    if samples != [] {
      SameStreak(samples);
    }
  }

  // ---------------------------------------------------------------- billing what is stored

  function Meter(rs: seq<PowerReading>): (ms: seq<Cost.MeterReading>)
    ensures |ms| == |rs|
    ensures forall i :: 0 <= i < |rs| ==> ms[i] == Cost.MeterReading(rs[i].at, rs[i].energyKwh)
  {
    seq(|rs|, i requires 0 <= i < |rs| => Cost.MeterReading(rs[i].at, rs[i].energyKwh))
  }

  lemma MeterAppended(rs: seq<PowerReading>, r: PowerReading)
    ensures Meter(rs + [r]) == Meter(rs) + [Cost.MeterReading(r.at, r.energyKwh)]
  {
  }

  /** Neither the clock nor the meter goes back from one sample to the next. */
  ghost predicate Ascending(baseline: real, samples: seq<Sample>) {
    && (samples != [] ==> baseline <= samples[0].reading.energyKwh)
    && (forall i :: 0 <= i < |samples| - 1 ==>
          && samples[i].reading.at <= samples[i + 1].reading.at
          && samples[i].reading.energyKwh <= samples[i + 1].reading.energyKwh)
  }

  /** `rs` ascends from the baseline and ends no later or higher than `r`. */
  ghost predicate AscendsTo(baseline: real, rs: seq<PowerReading>, r: PowerReading) {
    && Cost.InTimeOrder(Meter(rs)) && Cost.NeverFalls(baseline, Meter(rs))
    && Cost.LastKwh(baseline, Meter(rs)) <= r.energyKwh
    && (rs != [] ==> rs[|rs| - 1].at <= r.at)
  }

  lemma {:induction false} AscendsAppended(baseline: real, rs: seq<PowerReading>, r: PowerReading)
    requires AscendsTo(baseline, rs, r)
    ensures AscendsTo(baseline, rs + [r], r)
  {
    MeterAppended(rs, r);
    var ms, ms' := Meter(rs), Meter(rs + [r]);
    forall i | 0 <= i < |ms'| ensures Cost.LastKwh(baseline, ms'[..i]) <= ms'[i].energyKwh {
      assert ms'[..i] == ms[..i];
    }
    forall i | 0 <= i < |ms| ensures ms[i].at <= r.at {
      assert ms[i].at <= ms[|ms| - 1].at;
    }
  }

  lemma AscendsFurther(baseline: real, rs: seq<PowerReading>, q: PowerReading, r: PowerReading)
    requires AscendsTo(baseline, rs, q) && q.at <= r.at && q.energyKwh <= r.energyKwh
    ensures AscendsTo(baseline, rs, r)
  {
  }

  lemma AscendingPrefix(baseline: real, samples: seq<Sample>, n: nat)
    requires Ascending(baseline, samples) && 0 < n < |samples|
    ensures Ascending(baseline, samples[..n])
    ensures samples[n - 1].reading.at <= samples[n].reading.at
    ensures samples[n - 1].reading.energyKwh <= samples[n].reading.energyKwh
  {
    assert samples[n - 1].reading.at <= samples[(n - 1) + 1].reading.at;
  }

  lemma {:induction false} AllAscend(baseline: real, samples: seq<Sample>)
    requires samples != [] && Ascending(baseline, samples)
    ensures AscendsTo(baseline, All(samples), samples[|samples| - 1].reading)
  {
    var n := |samples| - 1;
    var r := samples[n].reading;
    if n > 0 {
      AscendingPrefix(baseline, samples, n);
      AllAscend(baseline, samples[..n]);
      AscendsFurther(baseline, All(samples[..n]), samples[n - 1].reading, r);
    }
    AscendsAppended(baseline, All(samples[..n]), r);
  }

  lemma {:induction false} StoredAscend(baseline: real, samples: seq<Sample>)
    requires samples != [] && Ascending(baseline, samples)
    ensures AscendsTo(baseline, Stored(samples), samples[|samples| - 1].reading)
  {
    var n := |samples| - 1;
    var r := samples[n].reading;
    if n > 0 {
      AscendingPrefix(baseline, samples, n);
      StoredAscend(baseline, samples[..n]);
      AscendsFurther(baseline, Stored(samples[..n]), samples[n - 1].reading, r);
    }
    AscendsAppended(baseline, Stored(samples[..n]), r);
  }

  /** Readings that ascend are billed in their order, for what the meter gained. */
  lemma AscendingBill(baseline: real, rs: seq<PowerReading>, r: PowerReading)
    requires AscendsTo(baseline, rs, r) && rs != []
    ensures Cost.ByTime(Meter(rs)) == Meter(rs)
    ensures Cost.Rises(baseline, Meter(rs)) == rs[|rs| - 1].energyKwh - baseline
  {
    Cost.SortedStays(Meter(rs));
    Cost.RisesOfRisingMeter(baseline, Meter(rs));
  }

  /** The dropped tail: with a steady charge the meter moves on while the readings compare
      equal. Billing from the stored readings falls short of the meter by exactly what was
      drawn since the last stored one. */
  lemma {:induction false} BillingLagsByTheTail(baseline: real, samples: seq<Sample>)
    requires samples != [] && Ascending(baseline, samples)
    ensures var full, kept := All(samples), Stored(samples);
            && kept != []
            && Cost.Rises(baseline, Cost.ByTime(Meter(full))) - Cost.Rises(baseline, Cost.ByTime(Meter(kept)))
               == full[|full| - 1].energyKwh - kept[|kept| - 1].energyKwh
            && 0.0 <= full[|full| - 1].energyKwh - kept[|kept| - 1].energyKwh
  {
    var r := samples[|samples| - 1].reading;
    SameStreak(samples);
    AllAscend(baseline, samples);
    StoredAscend(baseline, samples);
    AscendingBill(baseline, All(samples), r);
    AscendingBill(baseline, Stored(samples), r);
    assert Cost.LastKwh(baseline, Meter(Stored(samples))) <= r.energyKwh;
  }

  function RateAt(prices: Cost.Prices, r: PowerReading): real {
    prices(r.at).rate
  }

  function LastKwh(baseline: real, rs: seq<PowerReading>): real {
    if rs == [] then baseline else rs[|rs| - 1].energyKwh
  }

  /** What the bill of the stored readings lacks, summed from the last sample back: a dropped
      rise is paid at the rate of the next stored reading, or at `next` when none follows. */
  function Lag(baseline: real, samples: seq<Sample>, prices: Cost.Prices, next: real): real {
    if samples == [] then 0.0
    else
      var n := |samples| - 1;
      var front, r := samples[..n], samples[n].reading;
      var paid := if ShouldStore(Last(Stored(front)), samples[n]) then RateAt(prices, r) else next;
      var rise := r.energyKwh - LastKwh(baseline, All(front));
      Cost.Pence(rise, RateAt(prices, r) - paid) + Lag(baseline, front, prices, paid)
  }

  /** The charge of one more reading, no lower than the last. */
  lemma ChargeAppended(baseline: real, rs: seq<PowerReading>, r: PowerReading, prices: Cost.Prices)
    requires LastKwh(baseline, rs) <= r.energyKwh
    ensures ChargeOf(baseline, rs + [r], prices) ==
            ChargeOf(baseline, rs, prices) + Cost.Pence(r.energyKwh - LastKwh(baseline, rs), RateAt(prices, r))
  {
    MeterAppended(rs, r);
    var ms, m := Meter(rs), Cost.MeterReading(r.at, r.energyKwh);
    assert (ms + [m])[..|ms|] == ms;
    assert Cost.LastKwh(baseline, ms) == LastKwh(baseline, rs);
  }

  /** A stored reading bills its rise and the tail before it at its own rate. */
  lemma StoredStep(full: real, kept: real, lag: real, rise: real, tail: real, own: real, next: real)
    requires full - kept == lag + Cost.Pence(tail, own)
    ensures full + Cost.Pence(rise, own) - (kept + Cost.Pence(rise + tail, own))
            == Cost.Pence(rise, own - own) + lag + Cost.Pence(0.0, next)
  {
    assert (rise + tail) * own == rise * own + tail * own;
  }

  /** A dropped one adds its rise to the tail. */
  lemma DroppedStep(full: real, kept: real, lag: real, rise: real, tail: real, own: real, next: real)
    requires full - kept == lag + Cost.Pence(tail, next)
    ensures full + Cost.Pence(rise, own) - kept == Cost.Pence(rise, own - next) + lag + Cost.Pence(rise + tail, next)
  {
    assert (rise + tail) * next == rise * next + tail * next;
    assert rise * (own - next) == rise * own - rise * next;
  }

  ghost function Tail(baseline: real, samples: seq<Sample>): real {
    LastKwh(baseline, All(samples)) - LastKwh(baseline, Stored(samples))
  }

  function ChargeOf(baseline: real, rs: seq<PowerReading>, prices: Cost.Prices): real {
    Cost.Charge(baseline, Meter(rs), prices)
  }

  lemma {:induction false} LagIsDifference(baseline: real, samples: seq<Sample>, prices: Cost.Prices, next: real)
    requires Ascending(baseline, samples)
    ensures ChargeOf(baseline, All(samples), prices) - ChargeOf(baseline, Stored(samples), prices)
            == Lag(baseline, samples, prices, next) + Cost.Pence(Tail(baseline, samples), next)
    decreases |samples|, 1
  {
    hide ChargeOf, Ascending;
    if samples == [] {
      assert All(samples) == Stored(samples);
    } else {
      LagGrows(baseline, samples, prices, next);
    }
  }

  lemma {:induction false} LagGrows(baseline: real, samples: seq<Sample>, prices: Cost.Prices, next: real)
    requires samples != [] && Ascending(baseline, samples)
    ensures ChargeOf(baseline, All(samples), prices) - ChargeOf(baseline, Stored(samples), prices)
            == Lag(baseline, samples, prices, next) + Cost.Pence(Tail(baseline, samples), next)
    decreases |samples|, 0
  {
    hide ChargeOf, Ascending, RateAt, ShouldStore, Cost.Pence;
    var n := |samples| - 1;
    var front, r := samples[..n], samples[n].reading;
    var full, kept := All(front), Stored(front);
    var fullCharge, keptCharge := ChargeOf(baseline, full, prices), ChargeOf(baseline, kept, prices);
    var own, rise, tail := RateAt(prices, r), r.energyKwh - LastKwh(baseline, full), Tail(baseline, front);
    FrontAscends(baseline, samples);
    ChargeAppended(baseline, full, r, prices);
    if ShouldStore(Last(kept), samples[n]) {
      ChargeAppended(baseline, kept, r, prices);
      LagIsDifference(baseline, front, prices, own);
      StoredStep(fullCharge, keptCharge, Lag(baseline, front, prices, own), rise, tail, own, next);
      assert r.energyKwh - LastKwh(baseline, kept) == rise + tail;
    } else {
      LagIsDifference(baseline, front, prices, next);
      DroppedStep(fullCharge, keptCharge, Lag(baseline, front, prices, next), rise, tail, own, next);
    }
  }

  lemma FrontAscends(baseline: real, samples: seq<Sample>)
    requires samples != [] && Ascending(baseline, samples)
    ensures var n := |samples| - 1;
            && Ascending(baseline, samples[..n])
            && LastKwh(baseline, All(samples[..n])) <= samples[n].reading.energyKwh
            && LastKwh(baseline, Stored(samples[..n])) <= samples[n].reading.energyKwh
  {
    var n := |samples| - 1;
    if n > 0 {
      AscendingPrefix(baseline, samples, n);
      StoredAscend(baseline, samples[..n]);
      LastOfMeter(baseline, Stored(samples[..n]));
    }
  }

  lemma LastOfMeter(baseline: real, rs: seq<PowerReading>)
    ensures Cost.LastKwh(baseline, Meter(rs)) == LastKwh(baseline, rs)
  {
  }

  /** In pence, for any prices: exactly, every dropped rise is billed at the rate of the next
      stored reading instead of its own, and the tail is not billed at all. */
  lemma {:induction false} BillLagsInPence(baseline: real, samples: seq<Sample>, prices: Cost.Prices)
    requires samples != [] && Ascending(baseline, samples)
    ensures var full, kept := Cost.ByTime(Meter(All(samples))), Cost.ByTime(Meter(Stored(samples)));
            Cost.Charge(baseline, full, prices) - Cost.Charge(baseline, kept, prices)
            == Lag(baseline, samples, prices, 0.0)
  {
    hide Cost.ByTime, Cost.Charge, Cost.Rises, Lag, Ascending, AscendsTo, Tail, Stored, All;
    var r := samples[|samples| - 1].reading;
    SameStreak(samples);
    AllAscend(baseline, samples);
    StoredAscend(baseline, samples);
    AscendingBill(baseline, All(samples), r);
    AscendingBill(baseline, Stored(samples), r);
    LagIsDifference(baseline, samples, prices, 0.0);
  }

  /** So, with all rates between two bounds, the bill lacks the tail at some such rate, give or
      take the energy billed times the spread. */
  lemma {:induction false} BillLagIsBounded(baseline: real, samples: seq<Sample>, prices: Cost.Prices, low: real,
                                            high: real)
    requires samples != [] && Ascending(baseline, samples)
    requires forall at :: low <= prices(at).rate <= high
    ensures var full, kept := Cost.ByTime(Meter(All(samples))), Cost.ByTime(Meter(Stored(samples)));
            var tail := Cost.Rises(baseline, full) - Cost.Rises(baseline, kept);
            var lacking := Cost.Charge(baseline, full, prices) - Cost.Charge(baseline, kept, prices);
            && tail >= 0.0
            && tail * low - Cost.Rises(baseline, kept) * (high - low) <= lacking
            && lacking <= tail * high + Cost.Rises(baseline, kept) * (high - low)
  {
    hide Cost.ByTime, Cost.Charge, Cost.Rises, Ascending, AscendsTo;
    var full, kept := Cost.ByTime(Meter(All(samples))), Cost.ByTime(Meter(Stored(samples)));
    BillingLagsByTheTail(baseline, samples);
    Cost.ChargeBetween(baseline, full, prices, low, high);
    Cost.ChargeBetween(baseline, kept, prices, low, high);
    LackingBetween(Cost.Rises(baseline, full), Cost.Rises(baseline, kept), Cost.Charge(baseline, full, prices),
                   Cost.Charge(baseline, kept, prices), low, high);
  }

  lemma LackingBetween(fullKwh: real, keptKwh: real, full: real, kept: real, low: real, high: real)
    requires fullKwh * low <= full <= fullKwh * high
    requires keptKwh * low <= kept <= keptKwh * high
    ensures (fullKwh - keptKwh) * low - keptKwh * (high - low) <= full - kept
    ensures full - kept <= (fullKwh - keptKwh) * high + keptKwh * (high - low)
  {
  }

  /** At one price throughout the bill lacks exactly the tail at that price. */
  lemma FlatBillLacksTheTail(baseline: real, samples: seq<Sample>, rate: real)
    ensures var full, kept := Cost.ByTime(Meter(All(samples))), Cost.ByTime(Meter(Stored(samples)));
            Cost.Charge(baseline, full, Cost.Flat(rate)) - Cost.Charge(baseline, kept, Cost.Flat(rate))
            == (Cost.Rises(baseline, full) - Cost.Rises(baseline, kept)) * rate
  {
    hide Cost.ByTime, Cost.Charge, Cost.Rises;
    var full, kept := Cost.ByTime(Meter(All(samples))), Cost.ByTime(Meter(Stored(samples)));
    Cost.FlatCharge(baseline, full, rate);
    Cost.FlatCharge(baseline, kept, rate);
    Cost.Distribute(Cost.Rises(baseline, full) - Cost.Rises(baseline, kept), Cost.Rises(baseline, kept), rate);
  }

  /** A dropped sample finds the last stored reading younger than the staleness limit, so the
      unbilled tail is always under half an hour of charging. */
  lemma TailIsFresh(samples: seq<Sample>)
    requires samples != []
    ensures var kept, s := Stored(samples), samples[|samples| - 1];
            kept != [] && (kept[|kept| - 1] == s.reading || s.checkedAt - kept[|kept| - 1].at < STALE_READING_THRESHOLD)
  {
  }

  lemma StoredOfTwo(a: Sample, b: Sample)
    requires !ShouldStore(Some(a.reading), b)
    ensures Stored([a, b]) == [a.reading] && All([a, b]) == [a.reading, b.reading]
  {
    assert [a, b][..1] == [a] && [a][..0] == [];
    assert Stored([a]) == [a.reading] && All([a]) == [a.reading];
  }

  /** The shortfall is real: whatever a second reading with the same power, voltage, current
      and carbon adds to the meter goes unbilled. */
  lemma SteadyChargeGoesUnbilled(baseline: real, a: Sample, b: Sample)
    requires !ShouldStore(Some(a.reading), b) && Ascending(baseline, [a, b])
    ensures Cost.Rises(baseline, Cost.ByTime(Meter(All([a, b])))) == b.reading.energyKwh - baseline
    ensures Cost.Rises(baseline, Cost.ByTime(Meter(Stored([a, b])))) == a.reading.energyKwh - baseline
  {
    StoredOfTwo(a, b);
    StoredAscend(baseline, [a, b]);
    AscendingBill(baseline, [a.reading], b.reading);
    AllAscend(baseline, [a, b]);
    AscendingBill(baseline, [a.reading, b.reading], b.reading);
  }
}
