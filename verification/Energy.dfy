/** Battery energy of a session from the plug's cumulative meter (api/services). */
module Energy {
  import opened Wrappers
  import opened Models

  /** The session fields the calculator reads. */
  datatype EnergySession = EnergySession(startKwh: real, targetKwh: real, startTotalKwh: Option<real>,
                                         lastBlendedKwh: Option<real>)

  datatype Progress = Progress(blendedKwh: real, currentPercent: real, hasTick: bool, lastBlendedKwh: real)

  // ---------------------------------------------------------------- one reading

  /** What the wall-side meter gained, as it reaches the battery. */
  function Gained(startTotalKwh: real, energy: EnergyData, efficiency: real): real {
    (energy.total - startTotalKwh) * efficiency
  }

  /** `CalcBlendedKwh`: the battery level a reading shows, and whether it ticked. */
  function CalcBlendedKwh(startKwh: real, startTotalKwh: real, energy: EnergyData, efficiency: real): (real, bool) {
    if energy.power <= 0.0 then (startKwh, false)
    else
      var gained := Gained(startTotalKwh, energy, efficiency);
      if gained > EPSILON_KWH then (startKwh + gained, true) else (startKwh, false)
  }

  predicate HasEnergyInputs(s: EnergySession, energy: Option<EnergyData>, v: Option<Vehicle>) {
    energy.Some? && v.Some? && s.startTotalKwh.Some? && v.value.capacityKwh > 0.0
  }

  function ClampMonotonic(kwh: real, last: real): real {
    if kwh < last then last else kwh
  }

  function Percent(kwh: real, v: Vehicle): real
    requires v.capacityKwh > 0.0
  {
    kwh / v.capacityKwh * 100.0
  }

  /** The last persisted level, or the start level before there is one. */
  function Baseline(s: EnergySession): real {
    match s.lastBlendedKwh
    case Some(x) => x
    case None => s.startKwh
  }

  function WithinTarget(s: EnergySession, kwh: real): real {
    Max(s.startKwh, Min(s.targetKwh, kwh))
  }

  /** `CalculateProgress`; missing inputs give zero progress. */
  function CalculateProgress(s: EnergySession, energy: Option<EnergyData>, v: Option<Vehicle>): Progress {
    if !HasEnergyInputs(s, energy, v) then Progress(0.0, 0.0, false, 0.0)
    else
      var (blended, hasTick) := CalcBlendedKwh(s.startKwh, s.startTotalKwh.value, energy.value, v.value.Efficiency());
      var clamped := ClampMonotonic(blended, Baseline(s));
      var final := WithinTarget(s, clamped);
      Progress(final, Percent(final, v.value), hasTick, clamped)
  }

  /** `CurrentPercentFromBlended`. */
  function CurrentPercentFromBlended(s: EnergySession, v: Option<Vehicle>): Option<real> {
    if v.None? || v.value.capacityKwh <= 0.0 || s.lastBlendedKwh.None? then None
    else Some(Percent(WithinTarget(s, s.lastBlendedKwh.value), v.value))
  }

  /** The battery level the wall-side meter accounts for, unclamped. */
  function Level(s: EnergySession, v: Vehicle, e: EnergyData): real
    requires s.startTotalKwh.Some?
  {
    s.startKwh + Gained(s.startTotalKwh.value, e, v.Efficiency())
  }

  /** `CalculateEndPercent`. */
  function CalculateEndPercent(s: EnergySession, energy: Option<EnergyData>, v: Option<Vehicle>): real {
    if !HasEnergyInputs(s, energy, v) then 0.0
    else
      Max(0.0, Min(MAX_PERCENT, Percent(Level(s, v.value, energy.value), v.value)))
  }

  /** Persisting the level of a reading and reading it back without the meter shows the same
      percent as the reading did. */
  lemma PersistedPercentIsLive(s: EnergySession, energy: Option<EnergyData>, v: Option<Vehicle>)
    requires HasEnergyInputs(s, energy, v)
    ensures var p := CalculateProgress(s, energy, v);
            CurrentPercentFromBlended(s.(lastBlendedKwh := Some(p.lastBlendedKwh)), v) == Some(p.currentPercent)
  {
    var p := CalculateProgress(s, energy, v);
    assert WithinTarget(s.(lastBlendedKwh := Some(p.lastBlendedKwh)), p.lastBlendedKwh) == p.blendedKwh;
  }

  lemma PercentKeepsOrder(x: real, y: real, v: Vehicle)
    requires v.capacityKwh > 0.0
    ensures x <= y <==> Percent(x, v) <= Percent(y, v)
    ensures x >= 0.0 ==> Percent(x, v) >= 0.0
  {
    var a, b := Percent(x, v), Percent(y, v);
    assert a * v.capacityKwh == x * 100.0;
    assert b * v.capacityKwh == y * 100.0;
    assert (b - a) * v.capacityKwh == (y - x) * 100.0;
    SignOfProduct(b - a, v.capacityKwh);
    SignOfProduct(a, v.capacityKwh);
  }

  lemma SignOfProduct(d: real, c: real)
    requires c > 0.0
    ensures d >= 0.0 <==> d * c >= 0.0
  {
    if d < 0.0 {
      assert -d * c > 0.0;
    }
  }

  /** A stop at a reading that ticks, is no lower than the persisted level and inside the
      target records the percent the session was showing, capped at a full battery. */
  lemma EndPercentIsLive(s: EnergySession, energy: Option<EnergyData>, v: Option<Vehicle>)
    requires HasEnergyInputs(s, energy, v) && s.startKwh >= 0.0
    requires Ticks(s, v.value, energy.value)
    requires Baseline(s) <= Level(s, v.value, energy.value) <= s.targetKwh
    ensures CalculateEndPercent(s, energy, v) == Min(MAX_PERCENT, CalculateProgress(s, energy, v).currentPercent)
  {
    ProgressAtPeak(s, energy.value, v.value);
    EndPercentAtLevel(s, energy.value, v.value);
  }

  lemma EndPercentAtLevel(s: EnergySession, e: EnergyData, v: Vehicle)
    requires s.startTotalKwh.Some? && v.capacityKwh > 0.0 && Level(s, v, e) >= 0.0
    ensures CalculateEndPercent(s, Some(e), Some(v)) == Min(MAX_PERCENT, Percent(Level(s, v, e), v))
  {
    var pct := Percent(Level(s, v, e), v);
    assert pct >= 0.0 by {
      PercentKeepsOrder(Level(s, v, e), Level(s, v, e), v);
    }
    assert CalculateEndPercent(s, Some(e), Some(v)) == Max(0.0, Min(MAX_PERCENT, pct));
  }

  lemma ProgressAtPeak(s: EnergySession, e: EnergyData, v: Vehicle)
    requires s.startTotalKwh.Some? && v.capacityKwh > 0.0
    requires Ticks(s, v, e) && Baseline(s) <= Level(s, v, e) <= s.targetKwh
    ensures CalculateProgress(s, Some(e), Some(v)).currentPercent == Percent(Level(s, v, e), v)
    ensures Level(s, v, e) >= s.startKwh
  {
    ProgressRaises(s, v, e);
  }

  // ---------------------------------------------------------------- streams of readings

  predicate Ticks(s: EnergySession, v: Vehicle, e: EnergyData)
    requires s.startTotalKwh.Some?
  {
    e.power > 0.0 && Gained(s.startTotalKwh.value, e, v.Efficiency()) > EPSILON_KWH
  }

  /** `p` is the highest of the start level and the levels of the readings that tick. */
  ghost predicate IsPeak(s: EnergySession, v: Vehicle, readings: seq<EnergyData>, p: real)
    requires s.startTotalKwh.Some?
  {
    && p >= s.startKwh
    && (forall e :: e in readings && Ticks(s, v, e) ==> p >= Level(s, v, e))
    && (p == s.startKwh || exists e :: e in readings && Ticks(s, v, e) && p == Level(s, v, e))
  }

  /** The session after each reading's progress was calculated and its level persisted. */
  function Thread(s: EnergySession, v: Vehicle, readings: seq<EnergyData>): EnergySession {
    if readings == [] then s
    else
      var n := |readings| - 1;
      var t := Thread(s, v, readings[..n]);
      t.(lastBlendedKwh := Some(CalculateProgress(t, Some(readings[n]), Some(v)).lastBlendedKwh))
  }

  /** A progress says whether its reading ticked: power is drawn and the meter has gained. */
  lemma HasTickExactly(s: EnergySession, v: Vehicle, e: EnergyData)
    requires s.startTotalKwh.Some? && v.capacityKwh > 0.0
    ensures CalculateProgress(s, Some(e), Some(v)).hasTick <==> Ticks(s, v, e)
  {
    hide Gained, Vehicle.Efficiency, Percent;
  }

  /** One reading raises the persisted level to the reading's own, if that ticks and is higher. */
  lemma ProgressRaises(s: EnergySession, v: Vehicle, e: EnergyData)
    requires s.startTotalKwh.Some? && v.capacityKwh > 0.0
    ensures var level := if Ticks(s, v, e) then Level(s, v, e) else s.startKwh;
            CalculateProgress(s, Some(e), Some(v)).lastBlendedKwh == Max(Baseline(s), level)
  {
    hide Gained, Vehicle.Efficiency;
  }

  /** Persisting after every reading yields exactly the peak of the readings. */
  lemma {:induction false} ThreadingYieldsPeak(s: EnergySession, v: Vehicle, readings: seq<EnergyData>)
    requires s.startTotalKwh.Some? && v.capacityKwh > 0.0 && s.lastBlendedKwh.None?
    ensures var t := Thread(s, v, readings);
            && t == s.(lastBlendedKwh := t.lastBlendedKwh)
            && (readings != [] ==> t.lastBlendedKwh.Some?)
            && IsPeak(s, v, readings, Baseline(t))
  {
    if readings != [] {
      var n := |readings| - 1;
      ThreadingYieldsPeak(s, v, readings[..n]);
      var t := Thread(s, v, readings[..n]);
      PeakGrows(s, v, readings, Baseline(t));
      ProgressRaises(t, v, readings[n]);
      SameTicks(s, t, v, readings[n]);
    }
  }

  /** What a reading shows does not depend on the persisted level. */
  lemma SameTicks(s: EnergySession, t: EnergySession, v: Vehicle, e: EnergyData)
    requires s.startTotalKwh.Some? && t == s.(lastBlendedKwh := t.lastBlendedKwh)
    ensures Ticks(t, v, e) == Ticks(s, v, e) && Level(t, v, e) == Level(s, v, e)
  {
  }

  lemma PeakGrows(s: EnergySession, v: Vehicle, readings: seq<EnergyData>, p: real)
    requires s.startTotalKwh.Some? && readings != []
    requires IsPeak(s, v, readings[..|readings| - 1], p)
    ensures var e := readings[|readings| - 1];
            IsPeak(s, v, readings, Max(p, if Ticks(s, v, e) then Level(s, v, e) else s.startKwh))
  {
    var n := |readings| - 1;
    assert forall e :: e in readings <==> e in readings[..n] || e == readings[n];
  }

  /** The order of the readings, and repeated readings, change nothing. */
  lemma ThreadingIgnoresOrder(s: EnergySession, v: Vehicle, readings: seq<EnergyData>, readings': seq<EnergyData>)
    requires s.startTotalKwh.Some? && v.capacityKwh > 0.0 && s.lastBlendedKwh.None?
    requires forall e :: e in readings <==> e in readings'
    ensures Baseline(Thread(s, v, readings)) == Baseline(Thread(s, v, readings'))
  {
    ThreadingYieldsPeak(s, v, readings);
    ThreadingYieldsPeak(s, v, readings');
  }

  // ---------------------------------------------------------------- concurrent writers

  /** A writer's work in hand: the stored level it read, its reading, and how many writes had
      been made when it read. The queue of the SOC worker holds such jobs, and so does the
      auto-stop check between its read and its write. */
  datatype Job = Job(last: Option<real>, energy: EnergyData, writes: nat)

  /** The stored level, the jobs in hand, the readings taken up, and the levels written. */
  datatype Store = Store(stored: Option<real>, jobs: seq<Job>, seen: seq<EnergyData>, written: seq<real>)

  const EMPTY_STORE := Store(None, [], [], [])

  /** A job is taken up, written (in any order), or dropped when the queue is full. */
  datatype Move = Capture(energy: EnergyData) | Commit(job: nat) | Drop(job: nat)

  function Without(jobs: seq<Job>, i: nat): seq<Job>
    requires i < |jobs|
  {
    jobs[..i] + jobs[i + 1..]
  }

  /** What job `j` writes. */
  function Write(s: EnergySession, v: Vehicle, j: Job): real {
    CalculateProgress(s.(lastBlendedKwh := j.last), Some(j.energy), Some(v)).lastBlendedKwh
  }

  function Apply(s: EnergySession, v: Vehicle, w: Store, m: Move): Store {
    match m
    case Capture(e) => w.(jobs := w.jobs + [Job(w.stored, e, |w.written|)], seen := w.seen + [e])
    case Commit(i) =>
      if i < |w.jobs| then
        var level := Write(s, v, w.jobs[i]);
        Store(Some(level), Without(w.jobs, i), w.seen, w.written + [level])
      else w
    case Drop(i) => if i < |w.jobs| then w.(jobs := Without(w.jobs, i)) else w
  }

  /** The stores of a run: one more than its moves. */
  ghost predicate IsRun(s: EnergySession, v: Vehicle, ws: seq<Store>, moves: seq<Move>) {
    && |ws| == |moves| + 1 && ws[0] == EMPTY_STORE
    && forall k :: 0 <= k < |moves| ==> ws[k + 1] == Apply(s, v, ws[k], moves[k])
  }

  /** A level that some reading seen so far accounts for. */
  ghost predicate Accounted(s: EnergySession, v: Vehicle, seen: seq<EnergyData>, x: Option<real>)
    requires s.startTotalKwh.Some?
  {
    x.None? || x.value == s.startKwh || exists e :: e in seen && Ticks(s, v, e) && x.value == Level(s, v, e)
  }

  ghost predicate AllAccounted(s: EnergySession, v: Vehicle, w: Store)
    requires s.startTotalKwh.Some?
  {
    && Accounted(s, v, w.seen, w.stored)
    && forall i :: 0 <= i < |w.jobs| ==> Accounted(s, v, w.seen, w.jobs[i].last) && w.jobs[i].energy in w.seen
  }

  lemma {:induction false} MoveKeepsAccount(s: EnergySession, v: Vehicle, w: Store, m: Move)
    requires s.startTotalKwh.Some? && v.capacityKwh > 0.0
    requires AllAccounted(s, v, w)
    ensures AllAccounted(s, v, Apply(s, v, w, m))
  {
    match m
    case Capture(e) =>
      assert forall x :: Accounted(s, v, w.seen, x) ==> Accounted(s, v, w.seen + [e], x);
    case Commit(i) =>
      if i < |w.jobs| {
        ProgressRaises(s.(lastBlendedKwh := w.jobs[i].last), v, w.jobs[i].energy);
      }
    case Drop(i) =>
  }

  lemma {:induction false} RunIsAccounted(s: EnergySession, v: Vehicle, ws: seq<Store>, moves: seq<Move>, n: nat)
    requires s.startTotalKwh.Some? && v.capacityKwh > 0.0
    requires IsRun(s, v, ws, moves) && n < |ws|
    ensures AllAccounted(s, v, ws[n])
  {
    if n > 0 {
      RunIsAccounted(s, v, ws, moves, n - 1);
      assert ws[(n - 1) + 1] == Apply(s, v, ws[n - 1], moves[n - 1]);
      MoveKeepsAccount(s, v, ws[n - 1], moves[n - 1]);
    }
  }

  /** Whatever the interleaving, the stored level is never below the start and never above the
      peak of the readings taken up: a lost update can only lag, not invent energy. */
  lemma StoredStaysBelowPeak(s: EnergySession, v: Vehicle, ws: seq<Store>, moves: seq<Move>, n: nat, peak: real)
    requires s.startTotalKwh.Some? && v.capacityKwh > 0.0
    requires IsRun(s, v, ws, moves) && n < |ws| && IsPeak(s, v, ws[n].seen, peak)
    ensures ws[n].stored.Some? ==> s.startKwh <= ws[n].stored.value <= peak
  {
    RunIsAccounted(s, v, ws, moves, n);
  }

  // ---------------------------------------------------------------- when the level falls

  /** The level stored after the first `n` of the writes. */
  function StoredAfter(written: seq<real>, n: nat): Option<real>
    requires n <= |written|
  {
    if n == 0 then None else Some(written[n - 1])
  }

  /** The stored level is the last one written, and each job read the last one written before
      its capture. */
  ghost predicate JobsRemember(w: Store) {
    && w.stored == StoredAfter(w.written, |w.written|)
    && forall i :: 0 <= i < |w.jobs| ==>
         w.jobs[i].writes <= |w.written| && w.jobs[i].last == StoredAfter(w.written, w.jobs[i].writes)
  }

  lemma {:induction false} MoveKeepsMemory(s: EnergySession, v: Vehicle, w: Store, m: Move)
    requires JobsRemember(w)
    ensures JobsRemember(Apply(s, v, w, m))
  {
  }

  lemma {:induction false} RunRemembers(s: EnergySession, v: Vehicle, ws: seq<Store>, moves: seq<Move>, n: nat)
    requires IsRun(s, v, ws, moves) && n < |ws|
    ensures JobsRemember(ws[n])
  {
    if n > 0 {
      RunRemembers(s, v, ws, moves, n - 1);
      assert ws[(n - 1) + 1] == Apply(s, v, ws[n - 1], moves[n - 1]);
      MoveKeepsMemory(s, v, ws[n - 1], moves[n - 1]);
    }
  }

  /** The stored level is lower after move n than before it. */
  ghost predicate FallsAt(ws: seq<Store>, n: nat)
    requires n + 1 < |ws|
  {
    ws[n].stored.Some? && (ws[n + 1].stored.None? || ws[n + 1].stored.value < ws[n].stored.value)
  }

  /** Job i is written although another write has landed since it read. */
  ghost predicate Overlaps(w: Store, m: Move) {
    m.Commit? && m.job < |w.jobs| && w.jobs[m.job].writes < |w.written|
  }

  /** The level the reading itself shows: its own if it ticks, otherwise the start level. */
  function Shown(s: EnergySession, v: Vehicle, e: EnergyData): real
    requires s.startTotalKwh.Some?
  {
    if Ticks(s, v, e) then Level(s, v, e) else s.startKwh
  }

  /** On every run the level falls exactly at a write that overlaps another: the latest write
      since the job read put the level above both what the job read and what its reading
      shows. */
  lemma FallsExactlyAtOverlaps(s: EnergySession, v: Vehicle, ws: seq<Store>, moves: seq<Move>, n: nat)
    requires s.startTotalKwh.Some? && v.capacityKwh > 0.0
    requires IsRun(s, v, ws, moves) && n < |moves|
    ensures FallsAt(ws, n) <==>
            && Overlaps(ws[n], moves[n])
            && var j, latest := ws[n].jobs[moves[n].job], ws[n].written[|ws[n].written| - 1];
               (j.last.Some? ==> j.last.value < latest) && s.startKwh < latest && Shown(s, v, j.energy) < latest
  {
    RunRemembers(s, v, ws, moves, n);
    assert ws[n + 1] == Apply(s, v, ws[n], moves[n]);
    if moves[n].Commit? && moves[n].job < |ws[n].jobs| {
      WriteIsHighest(s, v, ws[n].jobs[moves[n].job]);
    }
  }

  lemma WriteIsHighest(s: EnergySession, v: Vehicle, j: Job)
    requires s.startTotalKwh.Some? && v.capacityKwh > 0.0
    ensures Write(s, v, j) == Max(if j.last.Some? then j.last.value else s.startKwh, Shown(s, v, j.energy))
  {
    ProgressRaises(s.(lastBlendedKwh := j.last), v, j.energy);
    SameTicks(s, s.(lastBlendedKwh := j.last), v, j.energy);
  }

  /** Runs whose writers do not overlap never lower the stored level. */
  lemma {:induction false} WithoutOverlapNeverFalls(s: EnergySession, v: Vehicle, ws: seq<Store>, moves: seq<Move>,
                                                    n: nat, m: nat)
    requires s.startTotalKwh.Some? && v.capacityKwh > 0.0
    requires IsRun(s, v, ws, moves) && n <= m < |ws|
    requires forall k :: 0 <= k < |moves| ==> !Overlaps(ws[k], moves[k])
    ensures ws[n].stored.Some? ==> ws[m].stored.Some? && ws[n].stored.value <= ws[m].stored.value
  {
    if n < m {
      WithoutOverlapNeverFalls(s, v, ws, moves, n, m - 1);
      FallsExactlyAtOverlaps(s, v, ws, moves, m - 1);
      assert !FallsAt(ws, m - 1);
    }
  }

  /** Overlapping writers do lower it: two readings captured in turn and written in the
      opposite order leave the older, lower one. */
  lemma StoredCanFall()
    ensures exists s: EnergySession, v: Vehicle, ws: seq<Store>, moves: seq<Move> ::
              && IsRun(s, v, ws, moves) && |moves| == 4
              && ws[3].stored == Some(12.0) && ws[4].stored == Some(11.0)
  {
    var s := EnergySession(10.0, 40.0, Some(100.0), None);
    var v := Vehicle(50.0, 7000.0, 1.0, None, None, None, None, 20.0, 80.0);
    var low, high := EnergyData(7000.0, 101.0), EnergyData(7000.0, 102.0);
    var i, j := Job(None, low, 0), Job(None, high, 0);
    assert Write(s, v, j) == 12.0 && Write(s, v, i) == 11.0;
    hide Write;
    var moves := [Capture(low), Capture(high), Commit(1), Commit(0)];
    var w1 := Store(None, [i], [low], []);
    var w2 := Store(None, [i, j], [low, high], []);
    var w3 := Store(Some(12.0), [i], [low, high], [12.0]);
    var w4 := Store(Some(11.0), [], [low, high], [12.0, 11.0]);
    assert Without([i, j], 1) == [i] && Without([i], 0) == [];
    assert Apply(s, v, EMPTY_STORE, moves[0]) == w1 && Apply(s, v, w1, moves[1]) == w2;
    assert Apply(s, v, w2, moves[2]) == w3 && Apply(s, v, w3, moves[3]) == w4;
    hide Apply;
    assert IsRun(s, v, [EMPTY_STORE, w1, w2, w3, w4], moves);
  }
}
