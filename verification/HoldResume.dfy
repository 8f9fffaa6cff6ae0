/** When a holding two-stage session resumes, and what that promises over a run of ticks
    (api/services/session_monitoring_service.go). */
module HoldResume {
  import opened Wrappers
  import opened Clock
  import opened Models
  import opened ChargeEstimate
  import opened Forecast
  import opened Planner
  import opened TwoStagePlan

  /** The fields of a holding session that the decision reads. */
  datatype Hold = Hold(holdPercent: Option<real>, readyBy: Option<string>, targetPercent: real, carbonAware: bool)

  /** The wired forecaster; a fetch that fails or finds nothing defers. */
  datatype Forecaster = NotWired | Wired(forecast: Option<seq<Bucket>>)

  // ---------------------------------------------------------------- the decision

  function Deadline(h: Hold, zone: int, now: Instant): Option<Instant> {
    if h.readyBy.None? then None else ResolveDeadline(now, zone, h.readyBy.value)
  }

  /** Minutes from the hold point to the target. */
  function Remaining(h: Hold, v: Vehicle): Option<int>
    requires h.holdPercent.Some?
  {
    Estimate(v, h.holdPercent.value, h.targetPercent)
  }

  /** The verdict of one tick: the deadline guard first, then the balanced plan. */
  ghost predicate IsDecision(h: Hold, zone: int, v: Option<Vehicle>, now: Instant, f: Forecaster, resume: bool) {
    if h.holdPercent.None? || v.None? || Deadline(h, zone, now).None? then !resume
    else if Remaining(h, v.value).None? then resume
    else
      var d := Remaining(h, v.value).value * MINUTE;
      var deadline := Deadline(h, zone, now).value;
      if deadline - d <= now then resume
      else if !h.carbonAware || f.NotWired? || Usable(f.forecast, now, deadline).None? then !resume
      else IsPlanVerdict(SlotScores(f.forecast.value, d), now, deadline, d, resume)
  }

  ghost predicate IsPlanVerdict(f: Scores, now: Instant, deadline: Instant, d: int, resume: bool) {
    exists planned ::
      && IsBalanced(f, now, deadline - d, deadline, d, planned)
      && resume == ActsNow(planned, now)
  }

  /** `resumeHoldingSessionIfDue`, up to the power-on it decides for. */
  method ResumeIfDue(h: Hold, zone: int, v: Option<Vehicle>, now: Instant, f: Forecaster) returns (resume: bool)
    ensures IsDecision(h, zone, v, now, f, resume)
  {
    hide IsBalanced, Estimate, ResolveDeadline, SlotScores, ActsNow;
    if h.holdPercent.None? || h.readyBy.None? || v.None? {
      return false;
    }
    var deadline := ResolveDeadline(now, zone, h.readyBy.value);
    if deadline.None? {
      return false;
    }
    var dMin := Remaining(h, v.value);
    if dMin.None? {
      return true;
    }
    var d := dMin.value * MINUTE;
    var latest := deadline.value - d;
    if latest <= now {
      return true;
    }
    if !h.carbonAware || f.NotWired? {
      return false;
    }
    var buckets := Usable(f.forecast, now, deadline.value);
    if buckets.None? {
      return false;
    }
    var planned := FindBalancedStart(buckets.value, now, latest, deadline.value, d);
    ZeroExactlyAtTarget(v.value, h.holdPercent.value, h.targetPercent);
    SliceKeepsBalanced(f.forecast.value, now, deadline.value, now, latest, deadline.value, d, planned);
    return ActsNow(planned, now);
  }

  /** `EstimateResumeTime`, before the instant is formatted as HH:MM. */
  method EstimateResume(h: Hold, zone: int, v: Option<Vehicle>, now: Instant, f: Forecaster)
    returns (estimate: Option<Instant>)
    ensures IsEstimate(h, zone, v, now, f, estimate)
  {
    if !h.carbonAware || h.holdPercent.None? || h.readyBy.None? || f.NotWired? || v.None? {
      return None;
    }
    var deadline := ResolveDeadline(now, zone, h.readyBy.value);
    var dMin := Remaining(h, v.value);
    if deadline.None? || dMin.None? {
      return None;
    }
    var d := dMin.value * MINUTE;
    var latest := deadline.value - d;
    if latest <= now {
      return Some(latest);
    }
    var buckets := Usable(f.forecast, now, deadline.value);
    if buckets.None? {
      return None;
    }
    estimate := FindBalancedStart(buckets.value, now, latest, deadline.value, d);
    ZeroExactlyAtTarget(v.value, h.holdPercent.value, h.targetPercent);
    SliceKeepsBalanced(f.forecast.value, now, deadline.value, now, latest, deadline.value, d, estimate);
  }

  /** An estimate is the latest safe moment once that has come, and the balanced slot before. */
  ghost predicate IsEstimate(h: Hold, zone: int, v: Option<Vehicle>, now: Instant, f: Forecaster,
                             estimate: Option<Instant>) {
    if !h.carbonAware || h.holdPercent.None? || v.None? || f.NotWired?
       || Deadline(h, zone, now).None? || Remaining(h, v.value).None? then estimate.None?
    else
      var d := Remaining(h, v.value).value * MINUTE;
      var deadline := Deadline(h, zone, now).value;
      if deadline - d <= now then estimate == Some(deadline - d)
      else if Usable(f.forecast, now, deadline).None? then estimate.None?
      else IsBalanced(SlotScores(f.forecast.value, d), now, deadline - d, deadline, d, estimate)
  }

  /** Without the data to judge by a hold waits; without an estimate it resumes at once; and a
      plain hold resumes exactly from the latest safe moment on. */
  lemma PlainHoldResumesExactly(h: Hold, zone: int, v: Option<Vehicle>, now: Instant, f: Forecaster, resume: bool)
    requires IsDecision(h, zone, v, now, f, resume)
    ensures h.holdPercent.None? || v.None? || Deadline(h, zone, now).None? ==> !resume
    ensures h.holdPercent.Some? && v.Some? && Deadline(h, zone, now).Some? && Remaining(h, v.value).None? ==> resume
    ensures && h.holdPercent.Some? && v.Some? && Deadline(h, zone, now).Some? && Remaining(h, v.value).Some?
            && (!h.carbonAware || f.NotWired?) ==>
              (resume <==> now + Remaining(h, v.value).value * MINUTE >= Deadline(h, zone, now).value)
  {
    hide Estimate, ResolveDeadline, IsPlanVerdict;
  }

  /** The user is shown an estimate exactly for a carbon-aware hold with the data to judge by,
      unless, before the latest safe moment, the forecast is of no use or has no slot left. It
      leaves the remaining charge its time, and once that moment has come, exactly that. */
  lemma EstimateShownExactly(h: Hold, zone: int, v: Option<Vehicle>, now: Instant, f: Forecaster,
                             estimate: Option<Instant>)
    requires IsEstimate(h, zone, v, now, f, estimate)
    ensures estimate.Some? <==>
              && h.carbonAware && h.holdPercent.Some? && v.Some? && f.Wired?
              && Deadline(h, zone, now).Some? && Remaining(h, v.value).Some?
              && var d, deadline := Remaining(h, v.value).value * MINUTE, Deadline(h, zone, now).value;
                 || deadline - d <= now
                 || (Usable(f.forecast, now, deadline).Some?
                     && !NoSlot(SlotScores(f.forecast.value, d), now, deadline - d))
    ensures estimate.Some? ==>
              var d, deadline := Remaining(h, v.value).value * MINUTE, Deadline(h, zone, now).value;
              && estimate.value + d <= deadline
              && (deadline <= now + d ==> estimate.value + d == deadline)
  {
    hide Estimate, ResolveDeadline, Usable, SlotScores, IsBalanced;
    if h.carbonAware && h.holdPercent.Some? && v.Some? && f.Wired? && Deadline(h, zone, now).Some?
      && Remaining(h, v.value).Some? {
      var d, deadline := Remaining(h, v.value).value * MINUTE, Deadline(h, zone, now).value;
      if now < deadline - d && Usable(f.forecast, now, deadline).Some? {
        BalancedIsSlot(SlotScores(f.forecast.value, d), now, deadline - d, deadline, d, estimate);
      }
    }
  }

  /** The estimate shown to the user and the worker's decision agree: whenever there is an
      estimate, the worker resumes at this very tick exactly when the estimate is not later
      than now; without one it resumes only for want of an estimator or of a scored slot. */
  lemma EstimateMirrorsDecision(h: Hold, zone: int, v: Option<Vehicle>, now: Instant, f: Forecaster, resume: bool,
                                estimate: Option<Instant>)
    requires IsDecision(h, zone, v, now, f, resume)
    requires IsEstimate(h, zone, v, now, f, estimate)
    ensures estimate.Some? ==> (resume <==> estimate.value <= now)
    ensures estimate.None? && resume && h.carbonAware && f.Wired? ==>
              || Remaining(h, v.value).None?
              || NoSlot(SlotScores(f.forecast.value, Remaining(h, v.value).value * MINUTE), now,
                        Deadline(h, zone, now).value - Remaining(h, v.value).value * MINUTE)
  {
    if h.carbonAware && f.Wired? && h.holdPercent.Some? && v.Some? && Deadline(h, zone, now).Some?
      && Remaining(h, v.value).Some? {
      var d := Remaining(h, v.value).value * MINUTE;
      var deadline := Deadline(h, zone, now).value;
      if now < deadline - d && Usable(f.forecast, now, deadline).Some? {
        PlanVerdictIsEstimate(SlotScores(f.forecast.value, d), now, deadline, d, resume, estimate);
      }
    }
  }

  lemma BalancedIsSlot(f: Scores, now: Instant, latest: Instant, deadline: Instant, d: int, planned: Option<Instant>)
    requires IsBalanced(f, now, latest, deadline, d, planned)
    ensures planned.Some? ==> IsSlot(f, now, latest, planned.value)
    ensures planned.None? ==> NoSlot(f, now, latest)
  {
  }

  lemma OnlyOnePlan(f: Scores, now: Instant, latest: Instant, deadline: Instant, d: int, estimate: Option<Instant>)
    requires IsBalanced(f, now, latest, deadline, d, estimate)
    ensures forall p {:trigger IsBalanced(f, now, latest, deadline, d, p)} ::
            IsBalanced(f, now, latest, deadline, d, p) ==> p == estimate
  {
    forall p {:trigger IsBalanced(f, now, latest, deadline, d, p)} | IsBalanced(f, now, latest, deadline, d, p)
      ensures p == estimate
    {
      BalancedIsUnique(f, now, latest, deadline, d, p, estimate);
    }
  }

  lemma VerdictOfEstimate(f: Scores, now: Instant, deadline: Instant, d: int, resume: bool, estimate: Option<Instant>)
    requires IsPlanVerdict(f, now, deadline, d, resume)
    requires IsBalanced(f, now, deadline - d, deadline, d, estimate)
    ensures resume == ActsNow(estimate, now)
  {
    hide IsBalanced;
    OnlyOnePlan(f, now, deadline - d, deadline, d, estimate);
  }

  lemma SlotActsNow(f: Scores, now: Instant, latest: Instant, slot: Instant)
    requires IsSlot(f, now, latest, slot)
    ensures ActsNow(Some(slot), now) <==> slot <= now
  {
  }

  lemma PlanVerdictIsEstimate(f: Scores, now: Instant, deadline: Instant, d: int, resume: bool,
                              estimate: Option<Instant>)
    requires IsPlanVerdict(f, now, deadline, d, resume)
    requires IsBalanced(f, now, deadline - d, deadline, d, estimate)
    ensures estimate.Some? ==> (resume <==> estimate.value <= now)
    ensures estimate.None? ==> NoSlot(f, now, deadline - d)
  {
    hide IsBalanced;
    VerdictOfEstimate(f, now, deadline, d, resume, estimate);
    BalancedIsSlot(f, now, deadline - d, deadline, d, estimate);
    if estimate.Some? {
      SlotActsNow(f, now, deadline - d, estimate.value);
    }
  }

  // ---------------------------------------------------------------- runs of ticks

  /** One worker tick: what it finds, what it decides, and whether the plug confirms power. */
  datatype Tick = Tick(now: Instant, forecaster: Forecaster, resume: bool, confirmed: bool)

  /** A session held at `since`, checked by ticks no further apart than `gap`. */
  ghost predicate HoldRun(h: Hold, zone: int, v: Vehicle, since: Instant, gap: int, ticks: seq<Tick>) {
    && (forall k :: 0 <= k < |ticks| ==> IsDecision(h, zone, Some(v), ticks[k].now, ticks[k].forecaster,
                                                    ticks[k].resume))
    && (forall k :: 0 <= k < |ticks| ==> since <= ticks[k].now)
    && (ticks != [] ==> ticks[0].now <= since + gap)
    && (forall k :: 0 <= k < |ticks| - 1 ==> ticks[k].now <= ticks[k + 1].now <= ticks[k].now + gap)
  }

  /** The session is active again once some tick resumed with power confirmed. */
  predicate ActiveAfter(ticks: seq<Tick>) {
    exists k :: 0 <= k < |ticks| && ticks[k].resume && ticks[k].confirmed
  }

  /** When a tick happens. */
  function At(t: Tick): Instant {
    t.now
  }

  /** A tick of a session held at `since`, from the latest safe moment on: the guard still
      aims at the original deadline exactly up to that deadline. Past it the clock time
      names the next day, and a plain hold waits for that one. */
  lemma GuardFiresExactlyUpToDeadline(h: Hold, zone: int, v: Vehicle, since: Instant, now: Instant, f: Forecaster,
                                      resume: bool)
    requires h.holdPercent.Some? && Deadline(h, zone, since).Some? && Remaining(h, v).Some?
    requires IsDecision(h, zone, Some(v), now, f, resume)
    requires var d, deadline := Remaining(h, v).value * MINUTE, Deadline(h, zone, since).value;
             since <= now && deadline - d <= now
    ensures var d, deadline := Remaining(h, v).value * MINUTE, Deadline(h, zone, since).value;
            && (now <= deadline ==> resume)
            && (!h.carbonAware && now < deadline + DAY - d ==> (resume <==> now <= deadline))
  {
    ReResolved(since, now, zone, h.readyBy.value);
  }

  /** Whatever the forecast does: with ticks no further apart than `gap`, itself no more than the
      remaining charge takes, and power always confirmed, a session held early enough is active
      again by the first tick at or after the latest safe moment, and that tick is at most a
      gap after it and not past the deadline. */
  lemma {:induction false} ResumesInTime(h: Hold, zone: int, v: Vehicle, since: Instant, gap: int, ticks: seq<Tick>)
    requires h.holdPercent.Some? && Deadline(h, zone, since).Some? && Remaining(h, v).Some?
    requires var d, deadline := Remaining(h, v).value * MINUTE, Deadline(h, zone, since).value;
             && since <= deadline - d && gap <= d
             && HoldRun(h, zone, v, since, gap, ticks)
             && ticks != [] && ticks[|ticks| - 1].now >= deadline - d
    requires forall k :: 0 <= k < |ticks| ==> ticks[k].confirmed
    ensures var d, deadline := Remaining(h, v).value * MINUTE, Deadline(h, zone, since).value;
            var k := FirstAt(ticks, At, deadline - d);
            ticks[k].now <= deadline - d + gap && ticks[k].now <= deadline && ActiveAfter(ticks[..k + 1])
  {
    var d, deadline := Remaining(h, v).value * MINUTE, Deadline(h, zone, since).value;
    var k := FirstAt(ticks, At, deadline - d);
    if k > 0 {
      assert ticks[(k - 1) + 1].now <= ticks[k - 1].now + gap;
    }
    GuardFiresExactlyUpToDeadline(h, zone, v, since, ticks[k].now, ticks[k].forecaster, ticks[k].resume);
    assert ticks[..k + 1][k] == ticks[k];
  }

  /** Stage one and what remains after the hold reserve the whole charge to the session's own
      target, and at most one minute more: whatever the vehicle's target is by then. */
  lemma RemainingCompletes(h: Hold, v: Vehicle, from: real)
    requires h.holdPercent.Some? && from <= h.holdPercent.value <= h.targetPercent
    requires Estimate(v, from, h.targetPercent).Some?
    ensures Estimate(v, from, h.holdPercent.value).Some? && Remaining(h, v).Some?
    ensures var whole := Estimate(v, from, h.targetPercent).value;
            whole <= Estimate(v, from, h.holdPercent.value).value + Remaining(h, v).value <= whole + 1
  {
    SplitCharge(v, from, h.holdPercent.value, h.targetPercent);
  }

  /** Such runs exist for every plain hold: the session is held a step of `d` before the
      latest safe moment, and ticks then and at that moment. */
  lemma SuchRunsExist(h: Hold, zone: int, v: Vehicle, deadline: Instant)
    requires h.holdPercent.Some? && h.readyBy.Some? && !h.carbonAware && Remaining(h, v).Some?
    requires ParseHHMM(h.readyBy.value).Some? && TimeOfDay(deadline, zone) == ParseHHMM(h.readyBy.value).value * MINUTE
    requires 0 < 2 * Remaining(h, v).value * MINUTE < DAY
    ensures var d := Remaining(h, v).value * MINUTE;
            var since := deadline - 2 * d;
            && Deadline(h, zone, since) == Some(deadline)
            && HoldRun(h, zone, v, since, d, [Tick(since, NotWired, false, true),
                                              Tick(deadline - d, NotWired, true, true)])
  {
    var d := Remaining(h, v).value * MINUTE;
    SameTimeOfDay(ResolveDeadline(deadline - 2 * d, zone, h.readyBy.value).value, deadline, zone);
    ReResolved(deadline - 2 * d, deadline - d, zone, h.readyBy.value);
  }

  /** The same for a session that a carbon-aware schedule started in window `w`: its ready-by
      text is the window's end, so it is charging again before the window closes. */
  lemma {:induction false} CarbonAwareResumesInWindow(sch: Schedule, zone: int, v: Vehicle, started: Instant,
                                                      since: Instant, gap: int, ticks: seq<Tick>)
    requires ScheduleWindow(started, zone, sch).Some?
    requires Stage2Minutes(v).Some?
    requires var end, d := ScheduleWindow(started, zone, sch).value.end, Stage2Minutes(v).value * MINUTE;
             var h := Hold(Some(v.HoldPercent()), Some(FormatTime(end, zone)), v.targetPercent, true);
             && started < since <= end - d && gap <= d
             && HoldRun(h, zone, v, since, gap, ticks)
             && ticks != [] && ticks[|ticks| - 1].now >= end - d
    requires forall k :: 0 <= k < |ticks| ==> ticks[k].confirmed
    ensures var end, d := ScheduleWindow(started, zone, sch).value.end, Stage2Minutes(v).value * MINUTE;
            var k := FirstAt(ticks, At, end - d);
            ticks[k].now <= end - d + gap && ticks[k].now <= end && ActiveAfter(ticks[..k + 1])
  {
    hide HoldRun, ResolveWindow, Estimate;
    var end := ScheduleWindow(started, zone, sch).value.end;
    var h := Hold(Some(v.HoldPercent()), Some(FormatTime(end, zone)), v.targetPercent, true);
    ZeroExactlyAtTarget(v, v.HoldPercent(), v.targetPercent);
    ReadyByNamesWindowEnd(started, zone, sch.windowStart.value, sch.windowEnd.value, since);
    assert Deadline(h, zone, since) == Some(end);
    assert Remaining(h, v) == Stage2Minutes(v);
    ResumesInTime(h, zone, v, since, gap, ticks);
  }
}
