/** What every run of schedule sweeps keeps: pacing, the deadline guard, and when unforced
    starts happen. */
module SchedulerRuns {
  import opened Wrappers
  import opened Clock
  import opened Models
  import opened ChargeEstimate
  import opened Forecast
  import opened Planner
  import opened TwoStagePlan
  import opened Scheduler

  // ---------------------------------------------------------------- one sweep

  datatype SweepInput = SweepInput(now: Instant, entries: seq<Entry>, verdicts: seq<Verdict>)

  /** Failed carbon-aware attempts on one plug are a throttle period apart; an unforced start
      comes a throttle period after every start of an earlier sweep. */
  ghost predicate Paced(log: seq<Attempt>) {
    && (forall i, j :: 0 <= i < j < |log| && FailedOn(log[i], log[j].plug) && FailedOn(log[j], log[j].plug) ==>
          log[j].at - log[i].at >= THROTTLE)
    && (forall i, j ::
          0 <= i < j < |log| && log[i].outcome == Started && log[j].outcome == Started && !log[j].forced ==>
          log[j].at == log[i].at || log[j].at - log[i].at >= THROTTLE)
  }

  ghost predicate FailedOn(a: Attempt, plug: PlugId) {
    a.carbonAware && a.plug == plug && a.outcome == Failed
  }

  /** What the pacing fields remember of the history, at clock time `clock`. */
  ghost predicate Remembers(s: Pacing, clock: Instant) {
    && (forall a :: a in s.log ==> a.at <= clock)
    && (forall a :: a in s.log && a.carbonAware && a.outcome == Failed ==>
          if a.plug in s.lastStartFailure then a.at <= s.lastStartFailure[a.plug] else a.at + THROTTLE <= clock)
    && (forall a :: a in s.log && a.outcome == Started ==> s.lastActivation.Some? && a.at <= s.lastActivation.value)
    && (s.lastActivation.Some? ==> s.lastActivation.value <= clock)
  }

  /** Starts not covered by the sweep's snapshot happened in the sweep itself. */
  ghost predicate SnapshotCovers(s: Pacing, now: Instant, lastAct: Option<Instant>) {
    forall a :: a in s.log && a.outcome == Started ==> a.at == now || (lastAct.Some? && a.at <= lastAct.value)
  }

  /** The state after attempt `a`. */
  function After(s: Pacing, a: Attempt): Pacing {
    Pacing(
      if a.outcome == Started then Some(a.at) else s.lastActivation,
      if a.carbonAware && a.outcome == Failed then s.lastStartFailure[a.plug := a.at]
      else if a.carbonAware && a.outcome == Started then s.lastStartFailure - {a.plug}
      else s.lastStartFailure,
      s.log + [a])
  }

  /** `t` is `s`, or `s` after one attempt on the plug that respects backoff and throttle. */
  ghost predicate AtMostOneAttempt(s: Pacing, t: Pacing, plug: PlugId, now: Instant, lastAct: Option<Instant>) {
    t == s ||
    exists a :: t == After(s, a) && a.at == now && a.plug == plug
                && (a.carbonAware ==> !BackoffActive(s, plug, now))
                && (!a.forced ==> !Throttled(lastAct, now))
  }

  lemma GuardedStartOnce(s: Pacing, plug: PlugId, now: Instant, lastAct: Option<Instant>, due: bool, verdict: Verdict,
                         request: StartRequest, outcome: Outcome)
    ensures AtMostOneAttempt(s, GuardedStart(s, plug, now, lastAct, due, verdict, request, outcome), plug, now, lastAct)
  {
    var t := GuardedStart(s, plug, now, lastAct, due, verdict, request, outcome);
    if t != s {
      assert t == After(s, Attempt(plug, now, true, due, request, outcome));
    }
  }

  lemma CarbonAwareOnce(s: Pacing, plug: PlugId, sch: Schedule, zone: int, now: Instant, lastAct: Option<Instant>,
                        candidate: Option<Vehicle>, verdict: Verdict, outcome: Outcome)
    ensures AtMostOneAttempt(s, ActivateCarbonAware(s, plug, sch, zone, now, lastAct, candidate, verdict, outcome),
                             plug, now, lastAct)
  {
    var window := ScheduleWindow(now, zone, sch);
    if window.Some? && candidate.Some? && window.value.start <= now {
      var w, v := window.value, candidate.value;
      var due := Reserved(sch, v).None? || w.end - Reserved(sch, v).value * MINUTE <= now;
      GuardedStartOnce(s, plug, now, lastAct, due, verdict, Request(sch, zone, v, w), outcome);
    }
  }

  lemma DailyOnce(s: Pacing, plug: PlugId, sch: Schedule, zone: int, now: Instant, lastAct: Option<Instant>,
                  candidate: Option<Vehicle>, outcome: Outcome)
    requires sch.Daily?
    ensures AtMostOneAttempt(s, ActivateDaily(s, plug, sch, zone, now, lastAct, candidate, outcome), plug, now, lastAct)
  {
    var t := ActivateDaily(s, plug, sch, zone, now, lastAct, candidate, outcome);
    if t != s {
      assert t == After(s, t.log[|s.log|]);
    }
  }

  lemma {:induction false} AttemptKeepsPaced(s: Pacing, now: Instant, lastAct: Option<Instant>, a: Attempt)
    requires Paced(s.log) && Remembers(s, now) && SnapshotCovers(s, now, lastAct)
    requires a.at == now
    requires a.carbonAware ==> !BackoffActive(s, a.plug, now)
    requires !a.forced ==> !Throttled(lastAct, now)
    ensures Paced(s.log + [a])
  {
    forall i | 0 <= i < |s.log| && FailedOn(s.log[i], a.plug) && FailedOn(a, a.plug)
      ensures a.at - s.log[i].at >= THROTTLE
    {
      assert s.log[i] in s.log;
    }
    forall i | 0 <= i < |s.log| && s.log[i].outcome == Started && !a.forced
      ensures a.at == s.log[i].at || a.at - s.log[i].at >= THROTTLE
    {
      assert s.log[i] in s.log;
    }
  }

  lemma {:induction false} AttemptKeepsMemory(s: Pacing, now: Instant, lastAct: Option<Instant>, a: Attempt)
    requires Remembers(s, now) && SnapshotCovers(s, now, lastAct)
    requires a.at == now
    requires a.carbonAware ==> !BackoffActive(s, a.plug, now)
    ensures Remembers(After(s, a), now) && SnapshotCovers(After(s, a), now, lastAct)
  {
    assert forall b :: b in s.log + [a] <==> b in s.log || b == a;
  }

  lemma {:induction false} OneKeepsPacing(s: Pacing, zone: int, now: Instant, lastAct: Option<Instant>, e: Entry,
                                          verdict: Verdict)
    requires Paced(s.log) && Remembers(s, now) && SnapshotCovers(s, now, lastAct)
    ensures var t := ActivateOne(s, zone, now, lastAct, e, verdict);
            Paced(t.log) && Remembers(t, now) && SnapshotCovers(t, now, lastAct)
  {
    if e.sch.enabled {
      if e.sch.CarbonAware? {
        CarbonAwareOnce(s, e.plug, e.sch, zone, now, lastAct, e.candidate, verdict, e.outcome);
      } else {
        DailyOnce(s, e.plug, e.sch, zone, now, lastAct, e.candidate, e.outcome);
      }
    }
    OneStepKeepsPacing(s, ActivateOne(s, zone, now, lastAct, e, verdict), now, lastAct, e.plug);
  }

  lemma {:induction false} OneStepKeepsPacing(s: Pacing, t: Pacing, now: Instant, lastAct: Option<Instant>,
                                              plug: PlugId)
    requires Paced(s.log) && Remembers(s, now) && SnapshotCovers(s, now, lastAct)
    requires AtMostOneAttempt(s, t, plug, now, lastAct)
    ensures Paced(t.log) && Remembers(t, now) && SnapshotCovers(t, now, lastAct)
  {
    if t != s {
      var a :| t == After(s, a) && a.at == now && a.plug == plug
               && (a.carbonAware ==> !BackoffActive(s, plug, now))
               && (!a.forced ==> !Throttled(lastAct, now));
      AttemptKeepsPaced(s, now, lastAct, a);
      AttemptKeepsMemory(s, now, lastAct, a);
    }
  }

  lemma {:induction false} SweepKeepsPacing(s: Pacing, zone: int, now: Instant, lastAct: Option<Instant>,
                                            es: seq<Entry>, verdicts: seq<Verdict>)
    requires |es| == |verdicts|
    requires Paced(s.log) && Remembers(s, now) && SnapshotCovers(s, now, lastAct)
    ensures var t := Sweep(s, zone, now, lastAct, es, verdicts);
            Paced(t.log) && Remembers(t, now) && SnapshotCovers(t, now, lastAct)
  {
    if es != [] {
      var n := |es| - 1;
      SweepKeepsPacing(s, zone, now, lastAct, es[..n], verdicts[..n]);
      OneKeepsPacing(Sweep(s, zone, now, lastAct, es[..n], verdicts[..n]), zone, now, lastAct, es[n], verdicts[n]);
    }
  }

  /** Every entry of the failure map is a failed attempt of the history. */
  ghost predicate FailuresLogged(s: Pacing) {
    forall plug :: plug in s.lastStartFailure ==> AttemptedAt(s, plug, s.lastStartFailure[plug])
  }

  ghost predicate AttemptedAt(s: Pacing, plug: PlugId, at: Instant) {
    exists i :: 0 <= i < |s.log| && s.log[i].plug == plug && s.log[i].at == at
  }

  lemma {:induction false} AttemptIsLogged(s: Pacing, a: Attempt)
    requires FailuresLogged(s)
    ensures FailuresLogged(After(s, a)) && AttemptedAt(After(s, a), a.plug, a.at)
  {
    var t := After(s, a);
    assert t.log[|s.log|] == a;
    forall plug | plug in t.lastStartFailure ensures AttemptedAt(t, plug, t.lastStartFailure[plug]) {
      if t.lastStartFailure[plug] != a.at || plug != a.plug {
        LaterLogs(s, t, plug, s.lastStartFailure[plug]);
      }
    }
  }

  lemma {:induction false} LaterLogs(s: Pacing, t: Pacing, plug: PlugId, at: Instant)
    requires s.log <= t.log && AttemptedAt(s, plug, at)
    ensures AttemptedAt(t, plug, at)
  {
    var i :| 0 <= i < |s.log| && s.log[i].plug == plug && s.log[i].at == at;
    assert t.log[i] == s.log[i];
  }

  lemma OneOnce(s: Pacing, zone: int, now: Instant, lastAct: Option<Instant>, e: Entry, verdict: Verdict)
    ensures AtMostOneAttempt(s, ActivateOne(s, zone, now, lastAct, e, verdict), e.plug, now, lastAct)
  {
    if e.sch.enabled {
      if e.sch.CarbonAware? {
        CarbonAwareOnce(s, e.plug, e.sch, zone, now, lastAct, e.candidate, verdict, e.outcome);
      } else {
        DailyOnce(s, e.plug, e.sch, zone, now, lastAct, e.candidate, e.outcome);
      }
    }
  }

  lemma {:induction false} OneLogs(s: Pacing, zone: int, now: Instant, lastAct: Option<Instant>, e: Entry,
                                   verdict: Verdict)
    requires FailuresLogged(s)
    ensures var t := ActivateOne(s, zone, now, lastAct, e, verdict);
            s.log <= t.log && |t.log| <= |s.log| + 1 && FailuresLogged(t)
  {
    OneOnce(s, zone, now, lastAct, e, verdict);
    var t := ActivateOne(s, zone, now, lastAct, e, verdict);
    if t != s {
      var a :| t == After(s, a) && a.at == now && a.plug == e.plug;
      AttemptIsLogged(s, a);
    }
  }

  /** The state after the first `k` rows of a sweep. */
  ghost function Partway(s: Pacing, zone: int, sweep: SweepInput, k: nat): Pacing
    requires k <= |sweep.entries| == |sweep.verdicts|
  {
    Sweep(s, zone, sweep.now, s.lastActivation, sweep.entries[..k], sweep.verdicts[..k])
  }

  lemma PartwayStep(s: Pacing, zone: int, sweep: SweepInput, k: nat)
    requires k < |sweep.entries| == |sweep.verdicts|
    ensures Partway(s, zone, sweep, k + 1)
            == ActivateOne(Partway(s, zone, sweep, k), zone, sweep.now, s.lastActivation, sweep.entries[k],
                           sweep.verdicts[k])
  {
    assert sweep.entries[..k + 1][..k] == sweep.entries[..k];
    assert sweep.verdicts[..k + 1][..k] == sweep.verdicts[..k];
  }

  lemma {:induction false} PartwayLogs(s: Pacing, zone: int, sweep: SweepInput, k: nat, m: nat)
    requires FailuresLogged(s) && k <= m <= |sweep.entries| == |sweep.verdicts|
    ensures Partway(s, zone, sweep, k).log <= Partway(s, zone, sweep, m).log
            && FailuresLogged(Partway(s, zone, sweep, m))
    decreases m
  {
    if m > 0 {
      PartwayLogs(s, zone, sweep, if k < m then k else k - 1, m - 1);
      PartwayStep(s, zone, sweep, m - 1);
      OneLogs(Partway(s, zone, sweep, m - 1), zone, sweep.now, s.lastActivation, sweep.entries[m - 1],
              sweep.verdicts[m - 1]);
    }
  }

  // ---------------------------------------------------------------- runs

  ghost predicate Swept(s: Pacing, zone: int, sweep: SweepInput, t: Pacing) {
    && |sweep.entries| == |sweep.verdicts|
    && t == Sweep(s, zone, sweep.now, s.lastActivation, sweep.entries, sweep.verdicts)
  }

  const FRESH := Pacing(None, map[], [])

  /** The states of a run of sweeps, under a clock that never goes back. */
  ghost predicate IsRun(zone: int, ss: seq<Pacing>, sweeps: seq<SweepInput>) {
    && |ss| == |sweeps| + 1 && ss[0] == FRESH
    && (forall n :: 0 <= n < |sweeps| ==> Swept(ss[n], zone, sweeps[n], ss[n + 1]))
    && (forall i, j :: 0 <= i < j < |sweeps| ==> sweeps[i].now <= sweeps[j].now)
  }

  lemma WholeSweep(s: Pacing, zone: int, sweep: SweepInput, t: Pacing)
    requires Swept(s, zone, sweep, t)
    ensures t == Partway(s, zone, sweep, |sweep.entries|) && s == Partway(s, zone, sweep, 0)
  {
    assert sweep.entries[..|sweep.entries|] == sweep.entries && sweep.verdicts[..|sweep.verdicts|] == sweep.verdicts;
  }

  /** On every run: retries after failures, and unforced starts, keep their distance. */
  lemma {:induction false} RunsArePaced(zone: int, ss: seq<Pacing>, sweeps: seq<SweepInput>, n: nat)
    requires IsRun(zone, ss, sweeps) && n < |ss|
    ensures Paced(ss[n].log)
    ensures forall clock :: n == 0 || sweeps[n - 1].now <= clock ==> Remembers(ss[n], clock)
  {
    if n > 0 {
      RunsArePaced(zone, ss, sweeps, n - 1);
      assert Swept(ss[n - 1], zone, sweeps[n - 1], ss[(n - 1) + 1]);
      var sweep := sweeps[n - 1];
      assert n > 1 ==> sweeps[n - 2].now <= sweep.now;
      SweepKeepsPacing(ss[n - 1], zone, sweep.now, ss[n - 1].lastActivation, sweep.entries, sweep.verdicts);
    }
  }

  lemma {:induction false} RunsLog(zone: int, ss: seq<Pacing>, sweeps: seq<SweepInput>, k: nat, n: nat)
    requires IsRun(zone, ss, sweeps) && k <= n < |ss|
    ensures ss[k].log <= ss[n].log && FailuresLogged(ss[n])
    decreases n
  {
    if n > 0 {
      RunsLog(zone, ss, sweeps, if k < n then k else k - 1, n - 1);
      assert Swept(ss[n - 1], zone, sweeps[n - 1], ss[(n - 1) + 1]);
      WholeSweep(ss[n - 1], zone, sweeps[n - 1], ss[n]);
      PartwayLogs(ss[n - 1], zone, sweeps[n - 1], 0, |sweeps[n - 1].entries|);
    }
  }

  /** The sweep that made attempt j, and the row that did. */
  ghost predicate MadeBy(zone: int, ss: seq<Pacing>, sweeps: seq<SweepInput>, j: int, n: int, k: int) {
    && 0 <= n < |sweeps| < |ss| && 0 <= k < |sweeps[n].entries| == |sweeps[n].verdicts|
    && |Partway(ss[n], zone, sweeps[n], k).log| <= j < |Partway(ss[n], zone, sweeps[n], k + 1).log|
  }

  lemma {:induction false} MadeInSweep(s: Pacing, zone: int, sweep: SweepInput, j: nat, m: nat) returns (k: nat)
    requires FailuresLogged(s) && m <= |sweep.entries| == |sweep.verdicts|
    requires |s.log| <= j < |Partway(s, zone, sweep, m).log|
    ensures k < m && |Partway(s, zone, sweep, k).log| <= j < |Partway(s, zone, sweep, k + 1).log|
  {
    if j < |Partway(s, zone, sweep, m - 1).log| {
      k := MadeInSweep(s, zone, sweep, j, m - 1);
    } else {
      k := m - 1;
    }
  }

  lemma {:induction false} MadeInRun(zone: int, ss: seq<Pacing>, sweeps: seq<SweepInput>, j: nat, m: nat)
    returns (n: nat, k: nat)
    requires IsRun(zone, ss, sweeps) && m < |ss| && j < |ss[m].log|
    ensures n < m && MadeBy(zone, ss, sweeps, j, n, k) && |ss[n].log| <= j < |ss[n + 1].log|
  {
    assert Swept(ss[m - 1], zone, sweeps[m - 1], ss[(m - 1) + 1]);
    if j < |ss[m - 1].log| {
      n, k := MadeInRun(zone, ss, sweeps, j, m - 1);
    } else {
      n := m - 1;
      RunsLog(zone, ss, sweeps, n, n);
      WholeSweep(ss[n], zone, sweeps[n], ss[m]);
      k := MadeInSweep(ss[n], zone, sweeps[n], j, |sweeps[n].entries|);
    }
  }

  /** What is known of an attempt from the row that made it. */
  lemma {:induction false} MadeAttempt(zone: int, ss: seq<Pacing>, sweeps: seq<SweepInput>, m: nat, j: nat, n: nat,
                                       k: nat)
    requires IsRun(zone, ss, sweeps) && n < m < |ss| && j < |ss[m].log| && MadeBy(zone, ss, sweeps, j, n, k)
    ensures var s, a := Partway(ss[n], zone, sweeps[n], k), ss[m].log[j];
            && Partway(ss[n], zone, sweeps[n], k + 1) == After(s, a)
            && a.at == sweeps[n].now && a.plug == sweeps[n].entries[k].plug
            && (!a.forced ==> !Throttled(ss[n].lastActivation, a.at))
  {
    var s, t := Partway(ss[n], zone, sweeps[n], k), Partway(ss[n], zone, sweeps[n], k + 1);
    RunsLog(zone, ss, sweeps, n + 1, m);
    RunsLog(zone, ss, sweeps, n, n);
    assert Swept(ss[n], zone, sweeps[n], ss[n + 1]);
    WholeSweep(ss[n], zone, sweeps[n], ss[n + 1]);
    PartwayLogs(ss[n], zone, sweeps[n], 0, k);
    PartwayLogs(ss[n], zone, sweeps[n], k + 1, |sweeps[n].entries|);
    PartwayStep(ss[n], zone, sweeps[n], k);
    OneOnce(s, zone, sweeps[n].now, ss[n].lastActivation, sweeps[n].entries[k], sweeps[n].verdicts[k]);
    OneLogs(s, zone, sweeps[n].now, ss[n].lastActivation, sweeps[n].entries[k], sweeps[n].verdicts[k]);
    assert t.log[j] == ss[n + 1].log[j] == ss[m].log[j];
  }

  // ---------------------------------------------------------------- starts close together

  /** Attempts i and j of the history were made by one sweep. */
  ghost predicate SameSweep(ss: seq<Pacing>, i: int, j: int) {
    exists n :: 0 <= n < |ss| - 1 && |ss[n].log| <= i < |ss[n + 1].log| && |ss[n].log| <= j < |ss[n + 1].log|
  }

  /** An unthrottled moment is a throttle period after every start of the earlier sweeps. */
  lemma {:induction false} UnforcedWaits(zone: int, ss: seq<Pacing>, sweeps: seq<SweepInput>, m: nat, i: nat, n: nat,
                                         now: Instant)
    requires IsRun(zone, ss, sweeps) && n <= m < |ss| && i < |ss[n].log| <= |ss[m].log|
    requires ss[m].log[i].outcome.Started?
    requires (n > 0 ==> sweeps[n - 1].now <= now) && !Throttled(ss[n].lastActivation, now)
    ensures now - ss[m].log[i].at >= THROTTLE
  {
    RunsLog(zone, ss, sweeps, n, m);
    assert ss[n].log[i] == ss[m].log[i] && ss[n].log[i] in ss[n].log;
    RunsArePaced(zone, ss, sweeps, n);
    assert Remembers(ss[n], now);
  }

  /** A start less than a throttle period after an earlier one was forced by the deadline
      guard, or comes at the same instant of the same sweep. */
  lemma {:induction false} CloseStarts(zone: int, ss: seq<Pacing>, sweeps: seq<SweepInput>, m: nat, i: nat, j: nat)
    requires IsRun(zone, ss, sweeps) && m < |ss| && i < j < |ss[m].log|
    requires ss[m].log[i].outcome.Started? && ss[m].log[j].outcome.Started?
    requires ss[m].log[j].at - ss[m].log[i].at < THROTTLE
    ensures ss[m].log[j].forced || (SameSweep(ss, i, j) && ss[m].log[j].at == ss[m].log[i].at)
  {
    RunsArePaced(zone, ss, sweeps, m);
    var n, k := MadeInRun(zone, ss, sweeps, j, m);
    MadeAttempt(zone, ss, sweeps, m, j, n, k);
    if i < |ss[n].log| && !ss[m].log[j].forced {
      UnforcedWaits(zone, ss, sweeps, m, i, n, sweeps[n].now);
    }
  }

  /** Both happen. In one sweep, two schedules on the minute start two plugs at once. */
  lemma SweepStartsTwice(zone: int, now: Instant, p: PlugId, q: PlugId, v: Vehicle)
    ensures exists ss: seq<Pacing>, sweeps: seq<SweepInput> ::
              && IsRun(zone, ss, sweeps) && |sweeps| == 1 && |ss[1].log| == 2
              && ss[1].log[0] == Attempt(p, now, false, false, SingleStage, Started)
              && ss[1].log[1] == Attempt(q, now, false, false, SingleStage, Started)
  {
    var sch := Daily(true, FormatTime(now, zone), None);
    var es := [Entry(p, sch, Some(v), None, Started), Entry(q, sch, Some(v), None, Started)];
    var sweep := SweepInput(now, es, [Wait, Wait]);
    var one := DailyStarts(FRESH, zone, now, None, p, sch, v, Started);
    var two := DailyStarts(one, zone, now, None, q, sch, v, Started);
    assert es[..1] == [es[0]] && es[..1][..0] == [];
    assert sweep.verdicts[..1] == [Wait] && sweep.verdicts[..1][..0] == [];
    assert Sweep(FRESH, zone, now, None, es[..1], sweep.verdicts[..1]) == one;
    assert Swept(FRESH, zone, sweep, two);
    assert IsRun(zone, [FRESH, two], [sweep]);
  }

  /** What a daily row on its minute does outside the throttle. */
  lemma DailyStarts(s: Pacing, zone: int, now: Instant, lastAct: Option<Instant>, plug: PlugId, sch: Schedule,
                    v: Vehicle, outcome: Outcome)
    returns (t: Pacing)
    requires sch == Daily(true, FormatTime(now, zone), None) && !Throttled(lastAct, now) && !outcome.AlreadyActive?
    ensures forall verdict ::
              ActivateOne(s, zone, now, lastAct, Entry(plug, sch, Some(v), None, outcome), verdict) == t
    ensures t == After(s, Attempt(plug, now, false, false, SingleStage, outcome))
  {
    t := After(s, Attempt(plug, now, false, false, SingleStage, outcome));
  }

  /** A run of one-row sweeps, second after first. */
  lemma TwoSweeps(zone: int, first: Instant, second: Instant, e: Entry, f: Entry)
    returns (ss: seq<Pacing>, sweeps: seq<SweepInput>)
    requires first <= second
    ensures IsRun(zone, ss, sweeps) && |sweeps| == 2
    ensures ss[1] == ActivateOne(FRESH, zone, first, None, e, Wait)
    ensures ss[2] == ActivateOne(ss[1], zone, second, ss[1].lastActivation, f, Wait)
  {
    var a, b := SweepInput(first, [e], [Wait]), SweepInput(second, [f], [Wait]);
    var one := ActivateOne(FRESH, zone, first, None, e, Wait);
    var two := ActivateOne(one, zone, second, one.lastActivation, f, Wait);
    assert [e][..0] == [] && [f][..0] == [] && [Wait][..0] == [];
    assert Swept(FRESH, zone, a, one) && Swept(one, zone, b, two);
    ss, sweeps := [FRESH, one, two], [a, b];
  }

  /** A start forced by the guard comes five seconds after another plug's. */
  lemma ForcedStartIgnoresThrottle(zone: int, now: Instant, p: PlugId, q: PlugId, v: Vehicle)
    requires Estimate(v, v.currentPercent, v.targetPercent).None?
    requires MINUTE <= TimeOfDay(now, zone) < DAY - 3 * MINUTE
    ensures exists ss: seq<Pacing>, sweeps: seq<SweepInput> ::
              && IsRun(zone, ss, sweeps) && |sweeps| == 2 && |ss[2].log| == 2
              && ss[2].log[0] == Attempt(p, now, false, false, SingleStage, Started)
              && ss[2].log[1] == Attempt(q, now + 5 * SECOND, true, true, SingleStage, Started)
  {
    hide ResolveWindow, FormatTime, ParseHHMM;
    var soon := now + 5 * SECOND;
    var daily := Daily(true, FormatTime(now, zone), None);
    var e := Entry(p, daily, Some(v), None, Started);
    var one := DailyStarts(FRESH, zone, now, None, p, daily, v, Started);
    var sch := AroundNow(zone, now);
    var f := Entry(q, sch, Some(v), None, Started);
    WindowAroundNow(zone, now);
    var two := After(one, Attempt(q, soon, true, true, SingleStage, Started));
    assert ActivateOne(one, zone, soon, one.lastActivation, f, Wait) == two;
    var ss, sweeps := TwoSweeps(zone, now, soon, e, f);
    assert ss[1] == one;
  }

  /** A carbon-aware schedule from a minute before `now` to two minutes after. */
  function AroundNow(zone: int, now: Instant): Schedule {
    CarbonAware(true, Some(FormatTime(now - MINUTE, zone)), Some(FormatTime(now + 2 * MINUTE, zone)), false)
  }

  lemma MinuteNearby(zone: int, now: Instant, x: int)
    requires 0 <= TimeOfDay(now, zone) + x * MINUTE < DAY
    ensures MinuteOfDay(now + x * MINUTE, zone) == MinuteOfDay(now, zone) + x
  {
    DivModUnique(now + x * MINUTE + zone, (now + zone) / DAY, TimeOfDay(now, zone) + x * MINUTE);
  }

  lemma WindowAroundNow(zone: int, now: Instant)
    requires MINUTE <= TimeOfDay(now, zone) < DAY - 3 * MINUTE
    ensures var w := ScheduleWindow(now + 5 * SECOND, zone, AroundNow(zone, now));
            w.Some? && w.value.start <= now + 5 * SECOND < w.value.end
  {
    hide ResolveWindow, FormatTime, ParseHHMM;
    var soon := now + 5 * SECOND;
    var m := MinuteOfDay(now, zone);
    ParseFormat(now - MINUTE, zone);
    ParseFormat(now + 2 * MINUTE, zone);
    MinuteNearby(zone, now, -1);
    MinuteNearby(zone, now, 2);
    var midnight := Midnight(now, zone);
    MidnightIsMidnight(now, zone);
    TimeOfDayFrom(midnight, zone, (m - 1) * MINUTE);
    TimeOfDayFrom(midnight, zone, (m + 2) * MINUTE);
    var w := Window(midnight + (m - 1) * MINUTE, midnight + (m + 2) * MINUTE);
    assert IsRepeat(w, zone, m - 1, m + 2);
    ResolvedWindowIsUnique(soon, zone, m - 1, m + 2, w, ScheduleWindow(soon, zone, AroundNow(zone, now)).value);
  }

  /** Failed starts of a daily schedule are not paced: within its minute they repeat at every
      sweep, five seconds apart. */
  lemma FailedDailyStartsRepeat(zone: int, now: Instant, p: PlugId, v: Vehicle)
    requires FormatTime(now, zone) == FormatTime(now + 5 * SECOND, zone)
    ensures exists ss: seq<Pacing>, sweeps: seq<SweepInput> ::
              && IsRun(zone, ss, sweeps) && |sweeps| == 2 && |ss[2].log| == 2
              && ss[2].log[0] == Attempt(p, now, false, false, SingleStage, Failed)
              && ss[2].log[1] == Attempt(p, now + 5 * SECOND, false, false, SingleStage, Failed)
  {
    var sch := Daily(true, FormatTime(now, zone), None);
    var e := Entry(p, sch, Some(v), None, Failed);
    var one := DailyStarts(FRESH, zone, now, None, p, sch, v, Failed);
    var two := DailyStarts(one, zone, now + 5 * SECOND, None, p, sch, v, Failed);
    var ss, sweeps := TwoSweeps(zone, now, now + 5 * SECOND, e, e);
    assert ss[1] == one && ss[2] == two;
  }

  // ---------------------------------------------------------------- unforced starts

  /** The planner left no other choice than `now`: it is the grid point of a scored slot, or no
      scored slot is left before the latest start. */
  ghost predicate NowIsChosen(e: Entry, zone: int, now: Instant) {
    && e.candidate.Some? && e.forecast.Some? && ScheduleWindow(now, zone, e.sch).Some?
    && Reserved(e.sch, e.candidate.value).Some?
    && var v := e.candidate.value;
       var latest := ScheduleWindow(now, zone, e.sch).value.end - Reserved(e.sch, v).value * MINUTE;
       ChosenBy(SlotScores(e.forecast.value, SlotLength(e.sch, v)), now, latest)
  }

  ghost predicate ChosenBy(f: Scores, now: Instant, latest: Instant) {
    NoSlot(f, now, latest) || (OnGrid(now) && IsSlot(f, now, latest, now))
  }

  /** How long a slot of the search lasts: the first stage, or the whole charge. */
  function SlotLength(sch: Schedule, v: Vehicle): int
    requires Reserved(sch, v).Some?
  {
    if RunsTwoStage(sch, v) then Stage1Minutes(v).value * MINUTE else Reserved(sch, v).value * MINUTE
  }

  lemma PlannedIsSlot(sch: Schedule, v: Vehicle, now: Instant, latest: Instant, w: Window, forecast: seq<Bucket>,
                      planned: Option<Instant>)
    requires Reserved(sch, v).Some? && IsPlanned(sch, v, now, latest, w, forecast, planned)
    ensures planned.None? ==> NoSlot(SlotScores(forecast, SlotLength(sch, v)), now, latest)
    ensures planned.Some? ==> IsSlot(SlotScores(forecast, SlotLength(sch, v)), now, latest, planned.value)
  {
  }

  lemma StartNowIsChosen(sch: Schedule, v: Vehicle, now: Instant, w: Window, forecast: Option<seq<Bucket>>)
    requires Reserved(sch, v).Some? && IsVerdict(sch, v, now, w, forecast, StartNow)
    ensures forecast.Some?
    ensures ChosenBy(SlotScores(forecast.value, SlotLength(sch, v)), now, w.end - Reserved(sch, v).value * MINUTE)
  {
    hide IsPlanned;
    var latest := w.end - Reserved(sch, v).value * MINUTE;
    var planned :| IsPlanned(sch, v, now, latest, w, forecast.value, planned) && ActsNow(planned, now);
    PlannedIsSlot(sch, v, now, latest, w, forecast.value, planned);
    ActsNowIsChosen(SlotScores(forecast.value, SlotLength(sch, v)), now, latest, planned);
  }

  lemma ActsNowIsChosen(f: Scores, now: Instant, latest: Instant, planned: Option<Instant>)
    requires ActsNow(planned, now)
    requires planned.None? ==> NoSlot(f, now, latest)
    requires planned.Some? ==> IsSlot(f, now, latest, planned.value)
    ensures ChosenBy(f, now, latest)
  {
  }

  /** An unforced carbon-aware attempt of one row follows the planner. */
  lemma UnforcedFollowsPlan(s: Pacing, zone: int, now: Instant, lastAct: Option<Instant>, e: Entry, verdict: Verdict)
    requires e.sch.enabled ==> VerdictIsRight(e, zone, now, lastAct, verdict)
    requires var t := ActivateOne(s, zone, now, lastAct, e, verdict);
             |t.log| == |s.log| + 1 && t.log[|s.log|].carbonAware && !t.log[|s.log|].forced
    ensures NowIsChosen(e, zone, now)
  {
    hide IsVerdict;
    StartNowIsChosen(e.sch, e.candidate.value, now, ScheduleWindow(now, zone, e.sch).value, e.forecast);
  }

  /** The verdicts of every sweep are the planner's, as the service computes them. */
  ghost predicate VerdictsAreRight(zone: int, ss: seq<Pacing>, sweeps: seq<SweepInput>)
    requires IsRun(zone, ss, sweeps)
  {
    forall n, k :: 0 <= n < |sweeps| && 0 <= k < |sweeps[n].entries| == |sweeps[n].verdicts|
                   && sweeps[n].entries[k].sch.enabled ==>
      VerdictIsRight(sweeps[n].entries[k], zone, sweeps[n].now, ss[n].lastActivation, sweeps[n].verdicts[k])
  }

  /** On every run of sweeps, every unforced carbon-aware attempt was made at the very instant
      of a scored half-hour slot, or when no scored slot was left. */
  lemma {:induction false} UnforcedOnlyAtChosenInstants(zone: int, ss: seq<Pacing>, sweeps: seq<SweepInput>, m: nat,
                                                        j: nat)
    requires IsRun(zone, ss, sweeps) && VerdictsAreRight(zone, ss, sweeps)
    requires m < |ss| && j < |ss[m].log| && ss[m].log[j].carbonAware && !ss[m].log[j].forced
    ensures exists n, k :: MadeBy(zone, ss, sweeps, j, n, k) && NowIsChosen(sweeps[n].entries[k], zone, ss[m].log[j].at)
  {
    var n, k := MadeInRun(zone, ss, sweeps, j, m);
    MadeAttempt(zone, ss, sweeps, m, j, n, k);
    PartwayStep(ss[n], zone, sweeps[n], k);
    UnforcedFollowsPlan(Partway(ss[n], zone, sweeps[n], k), zone, sweeps[n].now, ss[n].lastActivation,
                        sweeps[n].entries[k], sweeps[n].verdicts[k]);
  }

  /** The planner's own answer is to start at this very instant, or there is none to give. */
  ghost predicate PlanSaysNow(e: Entry, now: Instant, w: Window) {
    && e.candidate.Some? && Reserved(e.sch, e.candidate.value).Some? && Usable(e.forecast, now, w.end).Some?
    && exists planned ::
         && IsPlanned(e.sch, e.candidate.value, now, w.end - Reserved(e.sch, e.candidate.value).value * MINUTE, w,
                      e.forecast.value, planned)
         && (planned.None? || planned == Some(now))
  }

  lemma PlanIsUnique(sch: Schedule, v: Vehicle, now: Instant, latest: Instant, w: Window, forecast: seq<Bucket>,
                     p: Option<Instant>, q: Option<Instant>)
    requires Reserved(sch, v).Some?
    requires IsPlanned(sch, v, now, latest, w, forecast, p) && IsPlanned(sch, v, now, latest, w, forecast, q)
    ensures p == q
  {
    if RunsTwoStage(sch, v) {
      var d1 := Stage1Minutes(v).value * MINUTE;
      BalancedIsUnique(SlotScores(forecast, d1), now, latest, w.end, d1, p, q);
    } else {
      OptimalIsUnique(SlotScores(forecast, Reserved(sch, v).value * MINUTE), now, latest, p, q);
    }
  }

  /** The verdict is to start exactly when the plan says so. */
  lemma VerdictFollowsPlan(e: Entry, now: Instant, w: Window, verdict: Verdict)
    requires e.candidate.Some? && Reserved(e.sch, e.candidate.value).Some?
    requires IsVerdict(e.sch, e.candidate.value, now, w, e.forecast, verdict)
    ensures verdict == StartNow <==> PlanSaysNow(e, now, w)
  {
    hide IsPlanned;
    var v := e.candidate.value;
    var latest := w.end - Reserved(e.sch, v).value * MINUTE;
    if Usable(e.forecast, now, w.end).Some? {
      var planned :| IsPlanned(e.sch, v, now, latest, w, e.forecast.value, planned)
                     && verdict == if ActsNow(planned, now) then StartNow else Wait;
      PlannedIsSlot(e.sch, v, now, latest, w, e.forecast.value, planned);
      PlannedActsNow(SlotScores(e.forecast.value, SlotLength(e.sch, v)), now, latest, planned);
      forall other | IsPlanned(e.sch, v, now, latest, w, e.forecast.value, other) ensures other == planned {
        PlanIsUnique(e.sch, v, now, latest, w, e.forecast.value, other, planned);
      }
    }
  }

  lemma PlannedActsNow(f: Scores, now: Instant, latest: Instant, planned: Option<Instant>)
    requires planned.Some? ==> IsSlot(f, now, latest, planned.value)
    ensures ActsNow(planned, now) <==> planned.None? || planned == Some(now)
  {
  }

  /** A carbon-aware row in its window attempts a start exactly when its plug is not backing off
      and either the latest start has come, which forces it, or the throttle is open and the
      plan says now. */
  lemma RowAttemptsExactly(s: Pacing, zone: int, now: Instant, lastAct: Option<Instant>, e: Entry, verdict: Verdict,
                           w: Window)
    requires e.sch.CarbonAware? && e.sch.enabled && e.candidate.Some? && ScheduleWindow(now, zone, e.sch) == Some(w)
    requires w.start <= now && VerdictIsRight(e, zone, now, lastAct, verdict)
    ensures var t := ActivateOne(s, zone, now, lastAct, e, verdict);
            var due := LatestStart(e.sch, e.candidate.value, w) <= now;
            if !BackoffActive(s, e.plug, now) && (due || (!Throttled(lastAct, now) && PlanSaysNow(e, now, w)))
            then t == After(s, Attempt(e.plug, now, true, due, Request(e.sch, zone, e.candidate.value, w), e.outcome))
            else t == s
  {
    hide IsVerdict, ScheduleWindow;
    var v := e.candidate.value;
    if Reserved(e.sch, v).Some? && now < LatestStart(e.sch, v, w) && !Throttled(lastAct, now) {
      VerdictFollowsPlan(e, now, w, verdict);
    }
    hide PlanSaysNow;
  }

  /** Outside its window, without a vehicle or disabled, no row attempts anything. */
  lemma OtherRowsWait(s: Pacing, zone: int, now: Instant, lastAct: Option<Instant>, e: Entry, verdict: Verdict)
    requires !e.sch.enabled || e.candidate.None?
             || (e.sch.CarbonAware? &&
                 (ScheduleWindow(now, zone, e.sch).None? || now < ScheduleWindow(now, zone, e.sch).value.start))
    ensures ActivateOne(s, zone, now, lastAct, e, verdict) == s
  {
  }

  /** A daily row attempts a start exactly on its minute with the throttle open: in two stages,
      with the ready-by time as deadline, exactly when its plan has two stages. */
  lemma DailyRowAttemptsExactly(s: Pacing, zone: int, now: Instant, lastAct: Option<Instant>, e: Entry,
                                verdict: Verdict)
    requires e.sch.Daily? && e.sch.enabled && e.candidate.Some?
    requires e.sch.readyBy.Some? && ParseHHMM(e.sch.readyBy.value).Some?
    requires Stage1Minutes(e.candidate.value).Some? && Stage2Minutes(e.candidate.value).Some?
    ensures var t, v := ActivateOne(s, zone, now, lastAct, e, verdict), e.candidate.value;
            if e.sch.time != FormatTime(now, zone) || Throttled(lastAct, now) then t == s
            else
              var request := if EstimateDailyTwoStagePlan(now, zone, e.sch, e.candidate).Some?
                             then TwoStage(v.targetPercent * 0.8, e.sch.readyBy.value, false) else SingleStage;
              t == After(s, Attempt(e.plug, now, false, false, request, e.outcome))
  {
    hide Estimate, FormatTime, ParseHHMM;
    ParseFormat(now, zone);
  }

  // ---------------------------------------------------------------- the deadline guard

  lemma SameWindow(sch: Schedule, zone: int, w: Window, first: Instant, now: Instant)
    requires ScheduleWindow(first, zone, sch) == Some(w)
    requires w.start <= now < w.end
    ensures ScheduleWindow(now, zone, sch) == Some(w)
  {
    var s, e := ParseHHMM(sch.windowStart.value).value, ParseHHMM(sch.windowEnd.value).value;
    ResolvedWindowIsUnique(now, zone, s, e, w, ScheduleWindow(now, zone, sch).value);
  }

  /** The moment from which the guard forces a start in window `w`. */
  function LatestStart(sch: Schedule, v: Vehicle, w: Window): Instant {
    if Reserved(sch, v).None? then w.start else w.end - Reserved(sch, v).value * MINUTE
  }

  /** Row k of the sweep is the plug's: idle, with this schedule and this vehicle. */
  ghost predicate ServesAt(sweep: SweepInput, plug: PlugId, sch: Schedule, v: Vehicle, k: int) {
    && 0 <= k < |sweep.entries| == |sweep.verdicts|
    && sweep.entries[k].plug == plug && sweep.entries[k].sch == sch && sweep.entries[k].candidate == Some(v)
  }

  ghost predicate Serves(sweep: SweepInput, plug: PlugId, sch: Schedule, v: Vehicle) {
    exists k :: ServesAt(sweep, plug, sch, v, k)
  }

  /** The plug's latest attempt is less than a throttle period old. */
  ghost predicate RecentlyAttempted(s: Pacing, plug: PlugId, now: Instant) {
    exists at :: AttemptedAt(s, plug, at) && now - THROTTLE < at <= now
  }

  /** From the latest start on, a row in its window makes an attempt unless its plug's last
      failed one is recent. */
  lemma DueRowAttempts(s: Pacing, zone: int, now: Instant, lastAct: Option<Instant>, e: Entry, verdict: Verdict,
                       w: Window)
    requires e.sch.CarbonAware? && e.sch.enabled && e.candidate.Some? && ScheduleWindow(now, zone, e.sch) == Some(w)
    requires w.start <= now && LatestStart(e.sch, e.candidate.value, w) <= now
    requires FailuresLogged(s) && (e.plug in s.lastStartFailure ==> s.lastStartFailure[e.plug] <= now)
    ensures RecentlyAttempted(ActivateOne(s, zone, now, lastAct, e, verdict), e.plug, now)
  {
    var t := ActivateOne(s, zone, now, lastAct, e, verdict);
    var v := e.candidate.value;
    assert t == GuardedStart(s, e.plug, now, lastAct, true, verdict, Request(e.sch, zone, v, w), e.outcome);
    if BackoffActive(s, e.plug, now) {
      assert AttemptedAt(t, e.plug, s.lastStartFailure[e.plug]);
    } else {
      assert t.log[|s.log|].plug == e.plug && t.log[|s.log|].at == now;
      assert AttemptedAt(t, e.plug, now);
    }
  }

  lemma {:induction false} FailuresArePast(s: Pacing, now: Instant, plug: PlugId)
    requires FailuresLogged(s) && Remembers(s, now) && plug in s.lastStartFailure
    ensures s.lastStartFailure[plug] <= now
  {
    var i :| 0 <= i < |s.log| && s.log[i].plug == plug && s.log[i].at == s.lastStartFailure[plug];
    assert s.log[i] in s.log;
  }

  lemma {:induction false} DueSweepAttempts(zone: int, ss: seq<Pacing>, sweeps: seq<SweepInput>, n: nat, plug: PlugId,
                                            sch: Schedule, v: Vehicle, w: Window)
    requires IsRun(zone, ss, sweeps) && n < |sweeps| && Serves(sweeps[n], plug, sch, v)
    requires sch.CarbonAware? && sch.enabled && ScheduleWindow(sweeps[n].now, zone, sch) == Some(w)
    requires w.start <= sweeps[n].now && LatestStart(sch, v, w) <= sweeps[n].now
    ensures RecentlyAttempted(ss[n + 1], plug, sweeps[n].now)
  {
    var sweep, s := sweeps[n], ss[n];
    var k :| ServesAt(sweep, plug, sch, v, k);
    assert Swept(s, zone, sweep, ss[n + 1]);
    RunsLog(zone, ss, sweeps, n, n);
    PartwayLogs(s, zone, sweep, 0, k);
    PartwayRemembers(zone, ss, sweeps, n, k);
    var before := Partway(s, zone, sweep, k);
    if plug in before.lastStartFailure {
      FailuresArePast(before, sweep.now, plug);
    }
    DueRowAttempts(before, zone, sweep.now, s.lastActivation, sweep.entries[k], sweep.verdicts[k], w);
    PartwayStep(s, zone, sweep, k);
    PartwayLogs(s, zone, sweep, k + 1, |sweep.entries|);
    WholeSweep(s, zone, sweep, ss[n + 1]);
    var at :| AttemptedAt(Partway(s, zone, sweep, k + 1), plug, at) && sweep.now - THROTTLE < at <= sweep.now;
    LaterLogs(Partway(s, zone, sweep, k + 1), ss[n + 1], plug, at);
  }

  lemma {:induction false} PartwayRemembers(zone: int, ss: seq<Pacing>, sweeps: seq<SweepInput>, n: nat, k: nat)
    requires IsRun(zone, ss, sweeps) && n < |sweeps| && k <= |sweeps[n].entries| == |sweeps[n].verdicts|
    ensures Remembers(Partway(ss[n], zone, sweeps[n], k), sweeps[n].now)
  {
    RunsArePaced(zone, ss, sweeps, n);
    assert n > 0 ==> sweeps[n - 1].now <= sweeps[n].now;
    SweepKeepsPacing(ss[n], zone, sweeps[n].now, ss[n].lastActivation, sweeps[n].entries[..k], sweeps[n].verdicts[..k]);
  }

  /** The first sweep from `first` on that comes at or after `t`. */
  function FirstDue(sweeps: seq<SweepInput>, first: nat, t: Instant): (n: nat)
    requires first < |sweeps| && sweeps[|sweeps| - 1].now >= t
    ensures first <= n < |sweeps| && sweeps[n].now >= t
    ensures forall i :: first <= i < n ==> sweeps[i].now < t
    decreases |sweeps| - first
  {
    if sweeps[first].now >= t then first else FirstDue(sweeps, first + 1, t)
  }

  /** From `first` on the sweeps find the plug idle with this schedule and vehicle. */
  ghost predicate KeepServing(sweeps: seq<SweepInput>, first: nat, plug: PlugId, sch: Schedule, v: Vehicle) {
    forall n :: first <= n < |sweeps| ==> Serves(sweeps[n], plug, sch, v)
  }

  ghost predicate NoFurtherApart(sweeps: seq<SweepInput>, first: nat, gap: int) {
    forall n :: first <= n < |sweeps| - 1 ==> sweeps[n + 1].now - sweeps[n].now <= gap
  }

  /** Whatever the forecast and the history: while sweeps no further apart than the reserved
      time find a plug idle in its window, the first one at or after the latest start is still
      inside the window, and by its end an attempt on the plug is less than a minute old. */
  lemma {:induction false} GuardForcesAttempt(zone: int, ss: seq<Pacing>, sweeps: seq<SweepInput>, first: nat,
                                              plug: PlugId, sch: Schedule, v: Vehicle, w: Window)
    requires IsRun(zone, ss, sweeps) && first < |sweeps| && sch.CarbonAware? && sch.enabled
    requires ScheduleWindow(sweeps[first].now, zone, sch) == Some(w) && w.start <= sweeps[first].now
    requires KeepServing(sweeps, first, plug, sch, v)
    requires NoFurtherApart(sweeps, first, w.end - LatestStart(sch, v, w))
    requires sweeps[|sweeps| - 1].now >= LatestStart(sch, v, w)
    ensures var n := FirstDue(sweeps, first, LatestStart(sch, v, w));
            sweeps[n].now < w.end && RecentlyAttempted(ss[n + 1], plug, sweeps[n].now)
  {
    hide ScheduleWindow, LatestStart, RecentlyAttempted, Serves;
    var n := FirstDue(sweeps, first, LatestStart(sch, v, w));
    WindowLasts(zone, sch, sweeps[first].now, w);
    if n > first {
      assert sweeps[(n - 1) + 1].now - sweeps[n - 1].now <= w.end - LatestStart(sch, v, w);
    }
    assert first < n ==> sweeps[first].now <= sweeps[n].now;
    SameWindow(sch, zone, w, sweeps[first].now, sweeps[n].now);
    DueSweepAttempts(zone, ss, sweeps, n, plug, sch, v, w);
  }

  lemma WindowLasts(zone: int, sch: Schedule, now: Instant, w: Window)
    requires ScheduleWindow(now, zone, sch) == Some(w)
    ensures now < w.end
  {
  }
}
