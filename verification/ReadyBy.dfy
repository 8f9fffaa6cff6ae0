/** What a carbon-aware start promises for the end of its window: the schedule's guard and the
    resume of a held session, taken together (api/services). */
module ReadyBy {
  import opened Wrappers
  import opened Clock
  import opened Models
  import opened ChargeEstimate
  import opened TwoStagePlan
  import opened Scheduler
  import opened SchedulerRuns
  import opened HoldResume

  /** What the guard reserves covers the whole charge, in two stages with at most one minute
      more. */
  lemma ReservedCoversCharge(sch: Schedule, v: Vehicle)
    requires v.targetPercent >= 0.0 && Estimate(v, v.currentPercent, v.targetPercent).Some?
    ensures Reserved(sch, v).Some?
    ensures var whole := Estimate(v, v.currentPercent, v.targetPercent).value;
            && whole <= Reserved(sch, v).value <= whole + 1
            && (!RunsTwoStage(sch, v) ==> Reserved(sch, v).value == whole)
  {
    if RunsTwoStage(sch, v) {
      HoldBelowTarget(v);
      SplitCharge(v, v.currentPercent, v.HoldPercent(), v.targetPercent);
    }
  }

  lemma HoldBelowTarget(v: Vehicle)
    requires v.targetPercent >= 0.0
    ensures v.HoldPercent() <= v.targetPercent
  {
  }

  /** The last moment of a start that leaves room for the charge: by then at the latest the
      guard forces it. */
  lemma StartedInTimeEndsInTime(sch: Schedule, v: Vehicle, w: Window, started: Instant)
    requires v.targetPercent >= 0.0 && Estimate(v, v.currentPercent, v.targetPercent).Some?
    requires started <= LatestStart(sch, v, w)
    ensures started + Estimate(v, v.currentPercent, v.targetPercent).value * MINUTE <= w.end
  {
    ReservedCoversCharge(sch, v);
  }

  /** The hold of the session that a two-stage start asks for. */
  function HoldOfRequest(request: StartRequest, targetPercent: real): Hold
    requires request.TwoStage?
  {
    Hold(Some(request.holdPercent), Some(request.readyBy), targetPercent, request.carbonAwareHold)
  }

  /** A two-stage start at or before the latest start, whose session is held once its first
      stage took no longer than estimated: the session is charging again no later than one
      tick after the moment that leaves the second stage its estimate before the window ends,
      whatever the forecasts in between. */
  lemma {:induction false} BothStagesFit(sch: Schedule, zone: int, v: Vehicle, w: Window, started: Instant,
                                         held: Instant, gap: int, ticks: seq<Tick>)
    requires ScheduleWindow(started, zone, sch) == Some(w) && RunsTwoStage(sch, v)
    requires Stage1Minutes(v).Some? && Stage2Minutes(v).Some?
    requires started <= LatestStart(sch, v, w) && started < held <= started + Stage1Minutes(v).value * MINUTE
    requires var h := HoldOfRequest(Request(sch, zone, v, w), v.targetPercent);
             gap <= Stage2Minutes(v).value * MINUTE && HoldRun(h, zone, v, held, gap, ticks)
    requires ticks != [] && ticks[|ticks| - 1].now >= w.end - Stage2Minutes(v).value * MINUTE
    requires forall k :: 0 <= k < |ticks| ==> ticks[k].confirmed
    ensures held <= w.end - Stage2Minutes(v).value * MINUTE
    ensures var d := Stage2Minutes(v).value * MINUTE;
            var k := FirstAt(ticks, At, w.end - d);
            ActiveAfter(ticks[..k + 1]) && ticks[k].now + d <= w.end + gap && ticks[k].now <= w.end
  {
    hide HoldRun, ScheduleWindow, Stage1Minutes, Stage2Minutes;
    CarbonAwareResumesInWindow(sch, zone, v, started, held, gap, ticks);
  }

  /** The target is reported reachable exactly when the guard does not fire as the window
      opens, in one stage or two. */
  lemma ReachableExactlyIfGuardCanWait(now: Instant, zone: int, sch: Schedule, v: Vehicle, w: Window)
    requires sch.CarbonAware? && sch.enabled && ScheduleWindow(now, zone, sch) == Some(w)
    ensures EstimateTargetReachable(now, zone, sch, Some(v)) <==> w.start <= LatestStart(sch, v, w)
  {
    hide ScheduleWindow, Estimate;
    if Reserved(sch, v).Some? {
      MinutesFit(w.end - w.start, Reserved(sch, v).value);
    }
  }

  lemma MinutesFit(available: int, minutes: int)
    ensures Minutes(available) >= minutes as real <==> minutes * MINUTE <= available
  {
  }
}
