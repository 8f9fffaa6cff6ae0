/** Time-weighted session cost (api/services/cost_calculator.go). */
module Cost {
  import opened Wrappers
  import opened Clock

  /** The fields of a power reading that billing uses: when, and the cumulative meter. */
  datatype MeterReading = MeterReading(at: Instant, energyKwh: real)

  datatype OffPeakWindow = OffPeakWindow(start: string, end: string, ratePence: real)

  datatype Tariff = Tariff(baseRatePence: real, offPeakWindows: seq<OffPeakWindow>)

  datatype Bill = Bill(totalPence: real, offPeakKwh: real)

  // ---------------------------------------------------------------- the rate of a reading

  /** Whether a window contains the minute of the day in question. */
  type Covering = OffPeakWindow -> bool

  function CoveringAt(minute: int): Covering {
    (w: OffPeakWindow) => WithinWindow(minute, w.start, w.end)
  }

  /** The first window, in configured order, that covers. */
  function FirstWindow(windows: seq<OffPeakWindow>, covers: Covering): (r: Option<nat>)
    ensures r.Some? ==> r.value < |windows| && covers(windows[r.value])
    ensures forall i :: 0 <= i < (if r.Some? then r.value else |windows|) ==> !covers(windows[i])
  {
    if windows == [] then None
    else if covers(windows[0]) then Some(0)
    else
      match FirstWindow(windows[1..], covers)
      case Some(i) => Some(i + 1)
      case None => None
  }

  /** The rate in effect at an instant, and whether it is an off-peak rate. */
  datatype Price = Price(rate: real, offPeak: bool)

  function PriceWith(tariff: Tariff, covers: Covering): Price {
    match FirstWindow(tariff.offPeakWindows, covers)
    case Some(i) => Price(tariff.offPeakWindows[i].ratePence, true)
    case None => Price(tariff.baseRatePence, false)
  }

  type Prices = Instant -> Price

  function PricesOf(tariff: Tariff, zone: int): Prices {
    at => PriceWith(tariff, CoveringAt(MinuteOfDay(at, zone)))
  }

  /** `applicableRatePence`. */
  method ApplicableRate(tariff: Tariff, zone: int, at: Instant) returns (price: Price)
    ensures price == PricesOf(tariff, zone)(at)
  {
    price := FindPrice(tariff, CoveringAt(MinuteOfDay(at, zone)));
  }

  /** Its loop over the windows: the first that covers wins, otherwise the base rate applies. */
  method FindPrice(tariff: Tariff, covers: Covering) returns (price: Price)
    ensures price == PriceWith(tariff, covers)
  {
    for i := 0 to |tariff.offPeakWindows|
      invariant forall k :: 0 <= k < i ==> !covers(tariff.offPeakWindows[k])
    {
      var w := tariff.offPeakWindows[i];
      if covers(w) {
        return Price(w.ratePence, true);
      }
    }
    return Price(tariff.baseRatePence, false);
  }

  // ---------------------------------------------------------------- time order

  ghost predicate InTimeOrder(rs: seq<MeterReading>) {
    forall i, j :: 0 <= i < j < |rs| ==> rs[i].at <= rs[j].at
  }

  /** Puts `r` after every reading that is not later. */
  function Insert(rs: seq<MeterReading>, r: MeterReading): seq<MeterReading> {
    if rs == [] || rs[|rs| - 1].at <= r.at then rs + [r]
    else Insert(rs[..|rs| - 1], r) + [rs[|rs| - 1]]
  }

  /** The sort by timestamp: a stable sort has one result, given by inserting in turn. */
  function ByTime(rs: seq<MeterReading>): seq<MeterReading> {
    if rs == [] then [] else Insert(ByTime(rs[..|rs| - 1]), rs[|rs| - 1])
  }

  lemma FrontOf(a: seq<MeterReading>)
    requires a != []
    ensures a == a[..|a| - 1] + [a[|a| - 1]]
    ensures multiset(a[..|a| - 1]) == multiset(a) - multiset{a[|a| - 1]}
    ensures multiset(a[..|a| - 1]) <= multiset(a)
  {
    assert a == a[..|a| - 1] + [a[|a| - 1]];
    assert multiset(a) == multiset(a[..|a| - 1]) + multiset{a[|a| - 1]};
  }

  lemma {:induction false} InsertKeepsReadings(rs: seq<MeterReading>, r: MeterReading)
    ensures multiset(Insert(rs, r)) == multiset(rs) + multiset{r}
  {
    if rs != [] && r.at < rs[|rs| - 1].at {
      InsertKeepsReadings(rs[..|rs| - 1], r);
      FrontOf(rs);
    }
  }

  lemma {:induction false} InsertKeepsOrder(rs: seq<MeterReading>, r: MeterReading, limit: Instant)
    requires InTimeOrder(rs) && r.at <= limit && forall i :: 0 <= i < |rs| ==> rs[i].at <= limit
    ensures InTimeOrder(Insert(rs, r))
    ensures forall i :: 0 <= i < |Insert(rs, r)| ==> Insert(rs, r)[i].at <= limit
  {
    if rs != [] && r.at < rs[|rs| - 1].at {
      InsertKeepsOrder(rs[..|rs| - 1], r, rs[|rs| - 1].at);
    }
  }

  /** Sorting keeps the readings. */
  lemma {:induction false} ByTimeKeepsReadings(rs: seq<MeterReading>)
    ensures multiset(ByTime(rs)) == multiset(rs)
  {
    if rs != [] {
      ByTimeKeepsReadings(rs[..|rs| - 1]);
      InsertKeepsReadings(ByTime(rs[..|rs| - 1]), rs[|rs| - 1]);
      FrontOf(rs);
    }
  }

  /** Sorting puts them in time order. */
  lemma {:induction false} ByTimeSorts(rs: seq<MeterReading>)
    ensures InTimeOrder(ByTime(rs))
  {
    if rs != [] {
      var front, r := ByTime(rs[..|rs| - 1]), rs[|rs| - 1];
      ByTimeSorts(rs[..|rs| - 1]);
      InsertKeepsOrder(front, r, if front == [] || front[|front| - 1].at <= r.at then r.at else front[|front| - 1].at);
    }
  }

  /** The readings at one instant, in the order given. */
  function At(rs: seq<MeterReading>, t: Instant): seq<MeterReading> {
    if rs == [] then []
    else
      var last := rs[|rs| - 1];
      At(rs[..|rs| - 1], t) + if last.at == t then [last] else []
  }

  lemma AtAppended(rs: seq<MeterReading>, r: MeterReading, t: Instant)
    ensures At(rs + [r], t) == At(rs, t) + if r.at == t then [r] else []
  {
    assert (rs + [r])[..|rs|] == rs;
  }

  lemma {:induction false} InsertIsStable(rs: seq<MeterReading>, r: MeterReading, t: Instant)
    ensures At(Insert(rs, r), t) == At(rs + [r], t)
  {
    AtAppended(rs, r, t);
    if rs != [] && r.at < rs[|rs| - 1].at {
      var n := |rs| - 1;
      InsertIsStable(rs[..n], r, t);
      AtAppended(rs[..n], r, t);
      AtAppended(Insert(rs[..n], r), rs[n], t);
    }
  }

  /** The sort is stable: readings at one instant keep their order. */
  lemma {:induction false} ByTimeIsStable(rs: seq<MeterReading>, t: Instant)
    ensures At(ByTime(rs), t) == At(rs, t)
  {
    if rs != [] {
      var n := |rs| - 1;
      ByTimeIsStable(rs[..n], t);
      InsertIsStable(ByTime(rs[..n]), rs[n], t);
      AtAppended(ByTime(rs[..n]), rs[n], t);
    }
  }

  // ---------------------------------------------------------------- billing

  /** The meter's rise at each reading; 0 where it stood still or fell. */
  function Rise(prev: real, next: real): real {
    if next - prev <= 0.0 then 0.0 else next - prev
  }

  function LastKwh(baseline: real, rs: seq<MeterReading>): real {
    if rs == [] then baseline else rs[|rs| - 1].energyKwh
  }

  /** The sum of the meter's positive rises. */
  function Rises(baseline: real, rs: seq<MeterReading>): real {
    if rs == [] then 0.0
    else
      var n := |rs| - 1;
      Rises(baseline, rs[..n]) + Rise(LastKwh(baseline, rs[..n]), rs[n].energyKwh)
  }

  /** The rises at off-peak readings, or at the others. */
  function RisesAt(baseline: real, rs: seq<MeterReading>, prices: Prices, offPeak: bool): real {
    if rs == [] then 0.0
    else
      var n := |rs| - 1;
      var rise := Rise(LastKwh(baseline, rs[..n]), rs[n].energyKwh);
      RisesAt(baseline, rs[..n], prices, offPeak) + if prices(rs[n].at).offPeak == offPeak then rise else 0.0
  }

  /** Each rise times the rate at its reading. */
  function Charge(baseline: real, rs: seq<MeterReading>, prices: Prices): real {
    if rs == [] then 0.0
    else
      var n := |rs| - 1;
      var rise := Rise(LastKwh(baseline, rs[..n]), rs[n].energyKwh);
      Charge(baseline, rs[..n], prices) + rise * prices(rs[n].at).rate
  }

  function BillOf(baseline: real, rs: seq<MeterReading>, prices: Prices): Bill {
    Bill(Charge(baseline, rs, prices), RisesAt(baseline, rs, prices, true))
  }

  /** One more reading of the meter, at `price`. */
  lemma BillGrows(baseline: real, rs: seq<MeterReading>, prices: Prices, i: nat)
    requires i < |rs|
    ensures var before, after := BillOf(baseline, rs[..i], prices), BillOf(baseline, rs[..i + 1], prices);
            var rise, price := Rise(LastKwh(baseline, rs[..i]), rs[i].energyKwh), prices(rs[i].at);
            && after.totalPence == before.totalPence + rise * price.rate
            && after.offPeakKwh == before.offPeakKwh + (if price.offPeak then rise else 0.0)
    ensures LastKwh(baseline, rs[..i + 1]) == rs[i].energyKwh
  {
    assert rs[..i + 1][..i] == rs[..i];
  }

  /** One more reading without a rise. */
  lemma BillStands(baseline: real, rs: seq<MeterReading>, prices: Prices, i: nat)
    requires i < |rs| && rs[i].energyKwh <= LastKwh(baseline, rs[..i])
    ensures BillOf(baseline, rs[..i + 1], prices) == BillOf(baseline, rs[..i], prices)
  {
    assert rs[..i + 1][..i] == rs[..i];
  }

  /** One more reading with a rise. */
  lemma BillRises(baseline: real, rs: seq<MeterReading>, prices: Prices, i: nat, delta: real, price: Price)
    requires i < |rs| && delta == rs[i].energyKwh - LastKwh(baseline, rs[..i]) && delta > 0.0
    requires price == prices(rs[i].at)
    ensures BillOf(baseline, rs[..i + 1], prices)
            == var before := BillOf(baseline, rs[..i], prices);
               Bill(before.totalPence + delta * price.rate,
                    if price.offPeak then before.offPeakKwh + delta else before.offPeakKwh)
  {
    BillGrows(baseline, rs, prices, i);
    assert Rise(LastKwh(baseline, rs[..i]), rs[i].energyKwh) == delta;
    hide Rise, LastKwh, Charge, RisesAt;
  }

  lemma ReadingAdded(baseline: real, rs: seq<MeterReading>, i: nat)
    requires i < |rs|
    ensures LastKwh(baseline, rs[..i + 1]) == rs[i].energyKwh
  {
  }

  /** `CalculateSessionCost`. */
  method CalculateSessionCost(baseline: real, readings: seq<MeterReading>, tariff: Tariff, zone: int)
    returns (bill: Bill)
    ensures bill == BillOf(baseline, ByTime(readings), PricesOf(tariff, zone))
  {
    if readings == [] {
      return Bill(0.0, 0.0);
    }
    var sorted := ByTime(readings);
    bill := BillInOrder(baseline, sorted, tariff, zone);
  }

  /** Its loop over the sorted copy. */
  method BillInOrder(baseline: real, sorted: seq<MeterReading>, tariff: Tariff, zone: int) returns (bill: Bill)
    ensures bill == BillOf(baseline, sorted, PricesOf(tariff, zone))
  {
    ghost var prices := PricesOf(tariff, zone);
    var prevKwh := baseline;
    var totalPence, offPeakKwh := 0.0, 0.0;
    for i := 0 to |sorted|
      invariant prevKwh == LastKwh(baseline, sorted[..i])
      invariant Bill(totalPence, offPeakKwh) == BillOf(baseline, sorted[..i], prices)
    {
      hide BillOf, PricesOf, LastKwh;
      ReadingAdded(baseline, sorted, i);
      var delta := sorted[i].energyKwh - prevKwh;
      if delta <= 0.0 {
        BillStands(baseline, sorted, prices, i);
        prevKwh := sorted[i].energyKwh;
        continue;
      }
      prevKwh := sorted[i].energyKwh;
      var price := ApplicableRate(tariff, zone, sorted[i].at);
      BillRises(baseline, sorted, prices, i, delta, price);
      totalPence := totalPence + delta * price.rate;
      if price.offPeak {
        offPeakKwh := offPeakKwh + delta;
      }
    }
    assert sorted[..|sorted|] == sorted;
    return Bill(totalPence, offPeakKwh);
  }

  // ---------------------------------------------------------------- what is billed

  ghost predicate NeverFalls(baseline: real, rs: seq<MeterReading>) {
    forall i :: 0 <= i < |rs| ==> LastKwh(baseline, rs[..i]) <= rs[i].energyKwh
  }

  /** A meter that never falls bills exactly what it gained. */
  lemma {:induction false} RisesOfRisingMeter(baseline: real, rs: seq<MeterReading>)
    requires NeverFalls(baseline, rs)
    ensures Rises(baseline, rs) == LastKwh(baseline, rs) - baseline
  {
    if rs != [] {
      var n := |rs| - 1;
      forall i | 0 <= i < n ensures LastKwh(baseline, rs[..n][..i]) <= rs[..n][i].energyKwh {
        assert rs[..n][..i] == rs[..i];
      }
      RisesOfRisingMeter(baseline, rs[..n]);
    }
  }

  /** Off-peak and on-peak energy together are all the energy billed, and neither is negative. */
  lemma {:induction false} PartsAddUp(baseline: real, rs: seq<MeterReading>, prices: Prices)
    ensures RisesAt(baseline, rs, prices, true) + RisesAt(baseline, rs, prices, false) == Rises(baseline, rs)
    ensures RisesAt(baseline, rs, prices, true) >= 0.0 && RisesAt(baseline, rs, prices, false) >= 0.0
  {
    if rs != [] {
      PartsAddUp(baseline, rs[..|rs| - 1], prices);
    }
  }

  function Flat(rate: real): Prices {
    at => Price(rate, false)
  }

  lemma RiseNotNegative(prev: real, next: real)
    ensures Rise(prev, next) >= 0.0
  {
  }

  lemma ScaledInOrder(rise: real, rate: real, rate': real)
    requires rise >= 0.0 && rate <= rate'
    ensures rise * rate <= rise * rate'
  {
    assert rise * (rate' - rate) >= 0.0;
  }

  /** Prices nowhere above other prices charge no more. */
  lemma {:induction false} ChargeInOrder(baseline: real, rs: seq<MeterReading>, prices: Prices, prices': Prices)
    requires forall at :: prices(at).rate <= prices'(at).rate
    ensures Charge(baseline, rs, prices) <= Charge(baseline, rs, prices')
  {
    hide Rise;
    if rs != [] {
      var n := |rs| - 1;
      ChargeInOrder(baseline, rs[..n], prices, prices');
      RiseNotNegative(LastKwh(baseline, rs[..n]), rs[n].energyKwh);
      var rise := Rise(LastKwh(baseline, rs[..n]), rs[n].energyKwh);
      ScaledInOrder(rise, prices(rs[n].at).rate, prices'(rs[n].at).rate);
    }
  }

  lemma Distribute(x: real, y: real, k: real)
    ensures (x + y) * k == x * k + y * k
  {
  }

  lemma {:induction false} FlatCharge(baseline: real, rs: seq<MeterReading>, rate: real)
    ensures Charge(baseline, rs, Flat(rate)) == Rises(baseline, rs) * rate
  {
    if rs != [] {
      var n := |rs| - 1;
      FlatCharge(baseline, rs[..n], rate);
      Distribute(Rises(baseline, rs[..n]), Rise(LastKwh(baseline, rs[..n]), rs[n].energyKwh), rate);
    }
  }

  /** The charge lies between the lowest and the highest rate times the energy billed. */
  lemma ChargeBetween(baseline: real, rs: seq<MeterReading>, prices: Prices, low: real, high: real)
    requires forall at :: low <= prices(at).rate <= high
    ensures Rises(baseline, rs) * low <= Charge(baseline, rs, prices) <= Rises(baseline, rs) * high
  {
    ChargeInOrder(baseline, rs, Flat(low), prices);
    ChargeInOrder(baseline, rs, prices, Flat(high));
    FlatCharge(baseline, rs, low);
    FlatCharge(baseline, rs, high);
  }

  /** The part of the charge at off-peak readings, or at the others. */
  function ChargeAt(baseline: real, rs: seq<MeterReading>, prices: Prices, offPeak: bool): real {
    if rs == [] then 0.0
    else
      var n := |rs| - 1;
      var rise := Rise(LastKwh(baseline, rs[..n]), rs[n].energyKwh);
      ChargeAt(baseline, rs[..n], prices, offPeak)
      + if prices(rs[n].at).offPeak == offPeak then rise * prices(rs[n].at).rate else 0.0
  }

  lemma {:induction false} ChargeInParts(baseline: real, rs: seq<MeterReading>, prices: Prices)
    ensures ChargeAt(baseline, rs, prices, true) + ChargeAt(baseline, rs, prices, false) == Charge(baseline, rs, prices)
  {
    if rs != [] {
      ChargeInParts(baseline, rs[..|rs| - 1], prices);
    }
  }

  lemma {:induction false} OneRatePart(baseline: real, rs: seq<MeterReading>, prices: Prices, offPeak: bool, rate: real)
    requires forall at :: prices(at).offPeak == offPeak ==> prices(at).rate == rate
    ensures ChargeAt(baseline, rs, prices, offPeak) == RisesAt(baseline, rs, prices, offPeak) * rate
  {
    if rs != [] {
      var n := |rs| - 1;
      OneRatePart(baseline, rs[..n], prices, offPeak, rate);
      Distribute(RisesAt(baseline, rs[..n], prices, offPeak), Rise(LastKwh(baseline, rs[..n]), rs[n].energyKwh), rate);
    }
  }

  /** With one base and one off-peak rate the charge is each rate times its part of the energy. */
  lemma TwoRateCharge(baseline: real, rs: seq<MeterReading>, prices: Prices, base: real, offPeak: real)
    requires forall at :: prices(at).rate == if prices(at).offPeak then offPeak else base
    ensures Charge(baseline, rs, prices)
            == RisesAt(baseline, rs, prices, false) * base + RisesAt(baseline, rs, prices, true) * offPeak
  {
    ChargeInParts(baseline, rs, prices);
    OneRatePart(baseline, rs, prices, false, base);
    OneRatePart(baseline, rs, prices, true, offPeak);
  }

  /** For every tariff, and any readings in the order they are billed: how much energy is
      billed, and between which rates. */
  lemma CostBounds(baseline: real, rs: seq<MeterReading>, tariff: Tariff, zone: int, low: real, high: real)
    requires low <= tariff.baseRatePence <= high
    requires forall i :: 0 <= i < |tariff.offPeakWindows| ==> low <= tariff.offPeakWindows[i].ratePence <= high
    ensures var prices := PricesOf(tariff, zone);
            var bill := BillOf(baseline, rs, prices);
            && Rises(baseline, rs) * low <= bill.totalPence <= Rises(baseline, rs) * high
            && 0.0 <= bill.offPeakKwh == Rises(baseline, rs) - RisesAt(baseline, rs, prices, false)
            && RisesAt(baseline, rs, prices, false) >= 0.0
  {
    var prices := PricesOf(tariff, zone);
    RatesBetween(tariff, zone, prices, low, high);
    ChargeBetween(baseline, rs, prices, low, high);
    PartsAddUp(baseline, rs, prices);
  }

  lemma RatesBetween(tariff: Tariff, zone: int, prices: Prices, low: real, high: real)
    requires prices == PricesOf(tariff, zone)
    requires low <= tariff.baseRatePence <= high
    requires forall i :: 0 <= i < |tariff.offPeakWindows| ==> low <= tariff.offPeakWindows[i].ratePence <= high
    ensures forall at :: low <= prices(at).rate <= high
  {
  }

  ghost predicate ValidTariff(tariff: Tariff) {
    && tariff.baseRatePence >= 0.0
    && forall i :: 0 <= i < |tariff.offPeakWindows| ==> tariff.offPeakWindows[i].ratePence >= 0.0
  }

  lemma RatesNotNegative(tariff: Tariff, zone: int)
    requires ValidTariff(tariff)
    ensures forall at :: PricesOf(tariff, zone)(at).rate >= 0.0
  {
  }

  /** Without negative rates no session costs less than nothing. */
  lemma CostIsNotNegative(baseline: real, rs: seq<MeterReading>, tariff: Tariff, zone: int)
    requires ValidTariff(tariff)
    ensures BillOf(baseline, rs, PricesOf(tariff, zone)).totalPence >= 0.0
  {
    RatesNotNegative(tariff, zone);
    hide Charge, Rises, RisesAt, PricesOf;
    ChargeInOrder(baseline, rs, Flat(0.0), PricesOf(tariff, zone));
    FlatCharge(baseline, rs, 0.0);
  }

  // ---------------------------------------------------------------- energy by window

  /** Window `k` is the first, in configured order, that contains the minute; `k` is the number
      of windows when none does. */
  ghost predicate IsWindowOf(tariff: Tariff, minute: int, k: int) {
    var ws := tariff.offPeakWindows;
    && 0 <= k <= |ws|
    && (forall j :: 0 <= j < k ==> !WithinWindow(minute, ws[j].start, ws[j].end))
    && (k < |ws| ==> WithinWindow(minute, ws[k].start, ws[k].end))
  }

  ghost predicate IsWindowAt(tariff: Tariff, zone: int, at: Instant, k: int) {
    IsWindowOf(tariff, MinuteOfDay(at, zone), k)
  }

  ghost predicate IsOnlyWindow(tariff: Tariff, zone: int, at: Instant, k: int) {
    IsWindowAt(tariff, zone, at, k) && forall j :: IsWindowAt(tariff, zone, at, j) ==> j == k
  }

  /** The rate of window `k`, or the base rate beyond the last. */
  function RateOf(tariff: Tariff, k: nat): real
    requires k <= |tariff.offPeakWindows|
  {
    if k < |tariff.offPeakWindows| then tariff.offPeakWindows[k].ratePence else tariff.baseRatePence
  }

  /** The rises of the meter at readings in window `k`. */
  ghost function EnergyIn(baseline: real, rs: seq<MeterReading>, tariff: Tariff, zone: int, k: nat): real {
    if rs == [] then 0.0
    else
      var n := |rs| - 1;
      EnergyIn(baseline, rs[..n], tariff, zone, k)
      + if IsWindowAt(tariff, zone, rs[n].at, k) then Rise(LastKwh(baseline, rs[..n]), rs[n].energyKwh)
        else 0.0
  }

  function Pence(kwh: real, rate: real): real {
    kwh * rate
  }

  /** The energy of the first `m` windows, each at its own rate, and by itself. */
  ghost function ChargeOfWindows(baseline: real, rs: seq<MeterReading>, tariff: Tariff, zone: int, m: nat): real
    requires m <= |tariff.offPeakWindows| + 1
  {
    if m == 0 then 0.0
    else ChargeOfWindows(baseline, rs, tariff, zone, m - 1)
         + Pence(EnergyIn(baseline, rs, tariff, zone, m - 1), RateOf(tariff, m - 1))
  }

  ghost function EnergyOfWindows(baseline: real, rs: seq<MeterReading>, tariff: Tariff, zone: int, m: nat): real {
    if m == 0 then 0.0
    else EnergyOfWindows(baseline, rs, tariff, zone, m - 1) + EnergyIn(baseline, rs, tariff, zone, m - 1)
  }

  lemma PriceInWindow(tariff: Tariff, zone: int, at: Instant) returns (k: nat)
    ensures k <= |tariff.offPeakWindows| && IsOnlyWindow(tariff, zone, at, k)
    ensures PricesOf(tariff, zone)(at) == Price(RateOf(tariff, k), k < |tariff.offPeakWindows|)
  {
    var first := FirstWindow(tariff.offPeakWindows, CoveringAt(MinuteOfDay(at, zone)));
    k := if first.Some? then first.value else |tariff.offPeakWindows|;
  }

  /** One more reading, in window `k`, adds its rise there and nowhere else. */
  lemma {:induction false} WindowsGrow(baseline: real, rs: seq<MeterReading>, tariff: Tariff, zone: int, k: nat,
                                       m: nat)
    requires rs != [] && k <= |tariff.offPeakWindows| && m <= |tariff.offPeakWindows| + 1
    requires IsOnlyWindow(tariff, zone, rs[|rs| - 1].at, k)
    ensures var n := |rs| - 1;
            var rise := Rise(LastKwh(baseline, rs[..n]), rs[n].energyKwh);
            && ChargeOfWindows(baseline, rs, tariff, zone, m) == ChargeOfWindows(baseline, rs[..n], tariff, zone, m)
                 + (if k < m then Pence(rise, RateOf(tariff, k)) else 0.0)
            && EnergyOfWindows(baseline, rs, tariff, zone, m) == EnergyOfWindows(baseline, rs[..n], tariff, zone, m)
                 + (if k < m then rise else 0.0)
  {
    hide IsWindowAt, Rise, RateOf;
    if m > 0 {
      WindowsGrow(baseline, rs, tariff, zone, k, m - 1);
      var n := |rs| - 1;
      Distribute(EnergyIn(baseline, rs[..n], tariff, zone, m - 1), Rise(LastKwh(baseline, rs[..n]), rs[n].energyKwh),
                 RateOf(tariff, m - 1));
    }
  }

  lemma {:induction false} NoWindows(baseline: real, tariff: Tariff, zone: int, m: nat)
    requires m <= |tariff.offPeakWindows| + 1
    ensures ChargeOfWindows(baseline, [], tariff, zone, m) == 0.0
    ensures EnergyOfWindows(baseline, [], tariff, zone, m) == 0.0
  {
    if m > 0 {
      NoWindows(baseline, tariff, zone, m - 1);
    }
  }

  lemma NothingBilled(baseline: real, tariff: Tariff, zone: int)
    ensures var bill, m := BillOf(baseline, [], PricesOf(tariff, zone)), |tariff.offPeakWindows|;
            && bill.totalPence == ChargeOfWindows(baseline, [], tariff, zone, m + 1)
            && bill.offPeakKwh == EnergyOfWindows(baseline, [], tariff, zone, m)
            && Rises(baseline, []) == EnergyOfWindows(baseline, [], tariff, zone, m + 1)
  {
    NoWindows(baseline, tariff, zone, |tariff.offPeakWindows|);
    NoWindows(baseline, tariff, zone, |tariff.offPeakWindows| + 1);
  }

  lemma BillOfOneMore(baseline: real, rs: seq<MeterReading>, prices: Prices)
    requires rs != []
    ensures var n := |rs| - 1;
            var before, after := BillOf(baseline, rs[..n], prices), BillOf(baseline, rs, prices);
            var rise, price := Rise(LastKwh(baseline, rs[..n]), rs[n].energyKwh), prices(rs[n].at);
            && after.totalPence == before.totalPence + Pence(rise, price.rate)
            && after.offPeakKwh == before.offPeakKwh + (if price.offPeak then rise else 0.0)
  {
  }

  /** For every tariff: the energy of each window is charged at the window's own rate, the rest
      at the base rate; the windows' energy is the off-peak energy, and all of it what is
      billed. */
  lemma {:induction false} ChargedByWindow(baseline: real, rs: seq<MeterReading>, tariff: Tariff, zone: int)
    ensures var bill, m := BillOf(baseline, rs, PricesOf(tariff, zone)), |tariff.offPeakWindows|;
            && bill.totalPence == ChargeOfWindows(baseline, rs, tariff, zone, m + 1)
            && bill.offPeakKwh == EnergyOfWindows(baseline, rs, tariff, zone, m)
            && Rises(baseline, rs) == EnergyOfWindows(baseline, rs, tariff, zone, m + 1)
  {
    hide PricesOf, IsOnlyWindow, IsWindowAt, RateOf, Rise;
    var m := |tariff.offPeakWindows|;
    if rs == [] {
      NothingBilled(baseline, tariff, zone);
    } else {
      hide ChargeOfWindows, EnergyOfWindows, BillOf, Pence;
      var n, prices := |rs| - 1, PricesOf(tariff, zone);
      ChargedByWindow(baseline, rs[..n], tariff, zone);
      BillOfOneMore(baseline, rs, prices);
      var k := PriceInWindow(tariff, zone, rs[n].at);
      WindowsGrow(baseline, rs, tariff, zone, k, m);
      WindowsGrow(baseline, rs, tariff, zone, k, m + 1);
    }
  }

  // ---------------------------------------------------------------- the meter's balance

  /** The sum of the meter's falls. */
  function Falls(baseline: real, rs: seq<MeterReading>): real {
    if rs == [] then 0.0
    else
      var n := |rs| - 1;
      var prev, next := LastKwh(baseline, rs[..n]), rs[n].energyKwh;
      Falls(baseline, rs[..n]) + if next < prev then prev - next else 0.0
  }

  /** A fall bills nothing and what is drawn after it is billed again: for any meter, the
      energy billed is its net gain and its falls. */
  lemma {:induction false} RisesBalance(baseline: real, rs: seq<MeterReading>)
    ensures Rises(baseline, rs) == LastKwh(baseline, rs) - baseline + Falls(baseline, rs)
  {
    if rs != [] {
      RisesBalance(baseline, rs[..|rs| - 1]);
    }
  }

  // ---------------------------------------------------------------- order of the readings

  ghost predicate DistinctTimes(rs: seq<MeterReading>) {
    forall i, j :: 0 <= i < j < |rs| ==> rs[i].at != rs[j].at
  }

  lemma LastIsLatest(rs: seq<MeterReading>, x: MeterReading)
    requires InTimeOrder(rs) && x in multiset(rs)
    ensures rs != [] && x.at <= rs[|rs| - 1].at
  {
    assert x in rs;
  }

  ghost predicate OnePerTime(m: multiset<MeterReading>) {
    forall x, y :: x in m && y in m && x.at == y.at ==> x == y
  }

  /** Sorted sequences of the same readings, no two different ones at one time, are equal. */
  lemma {:induction false} SortedIsUnique(a: seq<MeterReading>, b: seq<MeterReading>)
    requires InTimeOrder(a) && InTimeOrder(b) && multiset(a) == multiset(b)
    requires OnePerTime(multiset(a))
    ensures a == b
  {
    hide InTimeOrder, OnePerTime;
    assert |a| == |multiset(a)| && |b| == |multiset(b)|;
    if a != [] {
      SameLast(a, b);
      SortedFront(a);
      SortedFront(b);
      SortedIsUnique(a[..|a| - 1], b[..|b| - 1]);
    }
  }

  lemma SortedFront(a: seq<MeterReading>)
    requires a != [] && InTimeOrder(a) && OnePerTime(multiset(a))
    ensures var front := a[..|a| - 1];
            && InTimeOrder(front) && OnePerTime(multiset(front))
            && a == front + [a[|a| - 1]] && multiset(front) == multiset(a) - multiset{a[|a| - 1]}
  {
    FrontOf(a);
  }

  lemma SameLast(a: seq<MeterReading>, b: seq<MeterReading>)
    requires InTimeOrder(a) && InTimeOrder(b) && multiset(a) == multiset(b)
    requires OnePerTime(multiset(a)) && a != [] && b != []
    ensures a[|a| - 1] == b[|b| - 1]
  {
    var x, y := a[|a| - 1], b[|b| - 1];
    assert x in multiset(b) && y in multiset(a) by {
      assert x in multiset(a) && y in multiset(b);
    }
    LastIsLatest(b, x);
    LastIsLatest(a, y);
  }

  lemma DistinctIsOnePerTime(rs: seq<MeterReading>)
    requires DistinctTimes(rs)
    ensures OnePerTime(multiset(rs))
  {
    forall x: MeterReading, y: MeterReading | x in multiset(rs) && y in multiset(rs) && x.at == y.at ensures x == y {
      var i :| 0 <= i < |rs| && rs[i] == x;
      var j :| 0 <= j < |rs| && rs[j] == y;
    }
  }

  /** Readings with distinct times are sorted, and so billed, the same in whatever order they
      are given. */
  lemma CostIgnoresOrder(baseline: real, readings: seq<MeterReading>, readings': seq<MeterReading>, prices: Prices)
    requires multiset(readings) == multiset(readings') && DistinctTimes(readings)
    ensures BillOf(baseline, ByTime(readings), prices) == BillOf(baseline, ByTime(readings'), prices)
  {
    DistinctIsOnePerTime(readings);
    ByTimeSorts(readings);
    ByTimeSorts(readings');
    ByTimeKeepsReadings(readings);
    ByTimeKeepsReadings(readings');
    SortedIsUnique(ByTime(readings), ByTime(readings'));
  }

  /** Readings already in time order are billed as they stand: equal times keep their order. */
  lemma {:induction false} SortedStays(rs: seq<MeterReading>)
    requires InTimeOrder(rs)
    ensures ByTime(rs) == rs
  {
    if rs != [] {
      SortedStays(rs[..|rs| - 1]);
      FrontOf(rs);
    }
  }
}
