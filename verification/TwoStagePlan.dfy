/** Plan previews and reachability warnings for two-stage schedules
    (api/services/schedule_service.go). Plans hold instants; the source formats them as HH:MM. */
module TwoStagePlan {
  import opened Wrappers
  import opened Clock
  import opened Models
  import opened ChargeEstimate
  import opened Forecast
  import opened Planner

  datatype Schedule =
    | CarbonAware(enabled: bool, windowStart: Option<string>, windowEnd: Option<string>, twoStage: bool)
    | Daily(enabled: bool, time: string, readyBy: Option<string>)

  datatype StagePlan = StagePlan(stage1Start: Instant, stage1End: Instant, stage2Start: Instant, stage2End: Instant)

  /** Estimated minutes of the two stages: current to hold, and hold to target. */
  function Stage1Minutes(v: Vehicle): Option<int> {
    Estimate(v, v.currentPercent, v.HoldPercent())
  }

  function Stage2Minutes(v: Vehicle): Option<int> {
    Estimate(v, v.HoldPercent(), v.targetPercent)
  }

  /** `worthwhileTwoStage`: the deferred stage is long enough to justify a relay cycle. */
  predicate WorthwhileTwoStage(v: Vehicle) {
    v.HoldPercent() > v.currentPercent &&
    match Stage2Minutes(v)
    case None => true
    case Some(d2) => d2 >= MIN_TWO_STAGE_STAGE_DURATION_MIN
  }

  predicate HasTwoStageIntent(sch: Schedule) {
    match sch
    case CarbonAware(_, _, _, twoStage) => twoStage
    case Daily(_, _, readyBy) => readyBy.Some?
  }

  /** The repeat of a carbon-aware schedule's window that is current at `now`. */
  function ScheduleWindow(now: Instant, zone: int, sch: Schedule): Option<Window> {
    if sch.CarbonAware? && sch.windowStart.Some? && sch.windowEnd.Some? then
      ResolveWindow(now, zone, sch.windowStart.value, sch.windowEnd.value)
    else None
  }

  /** `resolveScheduleDeadlineWindow`: the earliest start and the deadline, when there is one. */
  function DeadlineWindow(now: Instant, zone: int, sch: Schedule): Option<Window> {
    match sch
    case CarbonAware(_, _, _, _) => ScheduleWindow(now, zone, sch)
    case Daily(_, time, readyBy) =>
      if readyBy.None? then None
      else match ResolveDeadline(now, zone, time)
        case None => None
        case Some(start) =>
          match ResolveDeadline(start, zone, readyBy.value)
          case None => None
          case Some(deadline) => Some(Window(start, deadline))
  }

  /** `EstimateTargetReachable`, for the candidate vehicle if the plug has one. */
  predicate EstimateTargetReachable(now: Instant, zone: int, sch: Schedule, candidate: Option<Vehicle>) {
    if !sch.enabled || DeadlineWindow(now, zone, sch).None? || candidate.None? then true
    else
      var w := DeadlineWindow(now, zone, sch).value;
      var v := candidate.value;
      var available := Minutes(w.end - w.start);
      if HasTwoStageIntent(sch) && WorthwhileTwoStage(v) then
        match (Stage1Minutes(v), Stage2Minutes(v))
        case (Some(d1), Some(d2)) => available >= (d1 + d2) as real
        case _ => true
      else
        match Estimate(v, v.currentPercent, v.targetPercent)
        case Some(d) => available >= d as real
        case None => true
  }

  /** `EstimateDailyTwoStagePlan`. */
  function EstimateDailyTwoStagePlan(now: Instant, zone: int, sch: Schedule,
                                     candidate: Option<Vehicle>): Option<StagePlan> {
    if sch.CarbonAware? || !sch.enabled || sch.readyBy.None? || candidate.None? then None
    else
      var v := candidate.value;
      match ResolveDeadline(now, zone, sch.time)
      case None => None
      case Some(stage1Start) =>
        if !WorthwhileTwoStage(v) then None
        else
          match (Stage1Minutes(v), Stage2Minutes(v),
                 ResolveDeadline(stage1Start, zone, sch.readyBy.value))
          case (Some(d1), Some(d2), Some(deadline)) =>
            Some(StagePlan(stage1Start, stage1Start + d1 * MINUTE, deadline - d2 * MINUTE, deadline))
          case _ => None
  }

  /** The daily plan keeps its stages in order exactly when the target is reported reachable. */
  lemma DailyPlanOrderedIffReachable(now: Instant, zone: int, sch: Schedule, candidate: Option<Vehicle>)
    requires EstimateDailyTwoStagePlan(now, zone, sch, candidate).Some?
    ensures var plan := EstimateDailyTwoStagePlan(now, zone, sch, candidate).value;
            plan.stage1End <= plan.stage2Start <==> EstimateTargetReachable(now, zone, sch, candidate)
  {
  }

  /** With its times and durations known, a daily plan exists exactly when the first stage takes
      any time and the second at least a quarter of an hour; and its stages last that long. */
  lemma DailyPlanExactly(now: Instant, zone: int, sch: Schedule, v: Vehicle)
    requires sch.Daily? && sch.enabled && sch.readyBy.Some?
    requires ParseHHMM(sch.time).Some? && ParseHHMM(sch.readyBy.value).Some?
    requires Stage1Minutes(v).Some? && Stage2Minutes(v).Some?
    ensures var plan := EstimateDailyTwoStagePlan(now, zone, sch, Some(v));
            && (plan.Some? <==> Stage1Minutes(v).value >= 1 && Stage2Minutes(v).value >= 15)
            && (plan.Some? ==>
                  && now <= plan.value.stage1Start < now + DAY
                  && plan.value.stage1Start <= plan.value.stage2End < plan.value.stage1Start + DAY
                  && TimeOfDay(plan.value.stage1Start, zone) == ParseHHMM(sch.time).value * MINUTE
                  && TimeOfDay(plan.value.stage2End, zone) == ParseHHMM(sch.readyBy.value).value * MINUTE
                  && plan.value.stage1End - plan.value.stage1Start
                     == Estimate(v, v.currentPercent, v.targetPercent * 0.8).value * MINUTE
                  && plan.value.stage2End - plan.value.stage2Start
                     == Estimate(v, v.targetPercent * 0.8, v.targetPercent).value * MINUTE)
  {
    hide Estimate, ParseHHMM;
    ZeroExactlyAtTarget(v, v.currentPercent, v.HoldPercent());
  }

  /** Some bucket overlaps the range. */
  ghost predicate Reaches(forecast: Option<seq<Bucket>>, from: Instant, to: Instant) {
    forecast.Some? && exists b :: b in forecast.value && b.to > from && b.from < to
  }

  lemma NothingReaches(forecast: Option<seq<Bucket>>, from: Instant, later: Instant, to: Instant)
    requires from <= later && Usable(forecast, from, to).None?
    ensures !Reaches(forecast, later, to)
  {
  }

  /** A start the balanced search may report for [from, latest]: the balanced slot of the whole
      forecast, or `latest` when no slot is left. */
  ghost predicate IsStageStart(forecast: seq<Bucket>, from: Instant, latest: Instant, deadline: Instant, d: int,
                               start: Instant) {
    var f := SlotScores(forecast, d);
    if latest <= from then start == latest
    else
      || IsBalanced(f, from, latest, deadline, d, Some(start))
      || (IsBalanced(f, from, latest, deadline, d, None) && start == latest)
  }

  function ForecastOrNothing(forecast: Option<seq<Bucket>>): seq<Bucket> {
    if forecast.Some? then forecast.value else []
  }

  /** `estimateBalancedStageStart`. */
  method EstimateBalancedStageStart(forecast: Option<seq<Bucket>>, from: Instant, latest: Instant, windowEnd: Instant,
                                    d: int)
    returns (r: Option<Instant>)
    ensures r.Some? ==> r.value <= latest && (if from <= latest then from <= r.value else r.value == latest)
    ensures r.Some? && latest + d <= windowEnd ==>
              IsStageStart(ForecastOrNothing(forecast), from, latest, windowEnd, d, r.value)
    ensures r.None? <==> from < latest && Usable(forecast, from, windowEnd).None?
  {
    if !(from < latest) {
      return Some(latest);
    }
    var buckets := Usable(forecast, from, windowEnd);
    if buckets.None? {
      return None;
    }
    var start := FindBalancedStart(buckets.value, from, latest, windowEnd, d);
    if latest + d <= windowEnd {
      SliceKeepsBalanced(forecast.value, from, windowEnd, from, latest, windowEnd, d, start);
    }
    if start.Some? {
      SlotOf(SlotScores(buckets.value, d), from, latest, windowEnd, d, start.value);
      return start;
    }
    return Some(latest);
  }

  lemma SlotOf(f: Scores, now: Instant, latest: Instant, deadline: Instant, d: int, b: Instant)
    requires IsBalanced(f, now, latest, deadline, d, Some(b))
    ensures now <= b <= latest
  {
    var g :| AreRanges(f, now, latest, deadline, d, g) && IsCheapest(f, now, latest, deadline, d, g, b);
  }

  /** The schedule, window and vehicle data a carbon-aware plan needs. */
  predicate PlanInputs(now: Instant, zone: int, sch: Schedule, candidate: Option<Vehicle>) {
    && sch.CarbonAware? && sch.enabled && sch.twoStage
    && ScheduleWindow(now, zone, sch).Some?
    && candidate.Some? && WorthwhileTwoStage(candidate.value)
    && Stage1Minutes(candidate.value).Some? && Stage2Minutes(candidate.value).Some?
  }

  function Later(a: Instant, b: Instant): Instant {
    if a < b then b else a
  }

  /** The stages take d1 and d2, the first ends before the second starts, and the second ends
      inside the window. */
  ghost predicate IsOrdered(plan: StagePlan, d1: int, d2: int, w: Window) {
    && plan.stage1End == plan.stage1Start + d1
    && plan.stage1End <= plan.stage2Start
    && plan.stage2End == plan.stage2Start + d2
    && plan.stage2End <= w.end
  }

  /** The plan lies in what is left of the window exactly when both stages fit there. */
  ghost predicate StartsInTime(plan: StagePlan, reserved: int, now: Instant, w: Window) {
    w.start <= plan.stage1Start && now <= plan.stage1Start <==>
    w.start + reserved <= w.end && now + reserved <= w.end
  }

  /** Each stage starts at the balanced choice among what the other stage leaves it. */
  ghost predicate StartsBalanced(plan: StagePlan, d1: int, d2: int, now: Instant, w: Window, forecast: seq<Bucket>) {
    var from := Later(w.start, now);
    && IsStageStart(forecast, from, w.end - (d1 + d2), w.end, d1, plan.stage1Start)
    && IsStageStart(forecast, Later(plan.stage1End, from), w.end - d2, w.end, d2, plan.stage2Start)
  }

  /** The two searches of the plan, for stages of d1 and d2. */
  method PlanStages(now: Instant, w: Window, d1: int, d2: int, forecast: Option<seq<Bucket>>)
    returns (plan: Option<StagePlan>)
    requires w.start < w.end && d1 >= 0 && d2 > 0
    ensures plan.Some? ==>
              && IsOrdered(plan.value, d1, d2, w)
              && StartsInTime(plan.value, d1 + d2, now, w)
              && StartsBalanced(plan.value, d1, d2, now, w, ForecastOrNothing(forecast))
    ensures Reaches(forecast, w.end - d2, w.end) ==> plan.Some?
  {
    hide IsBalanced;
    var searchFrom := Later(w.start, now);
    var stage1 := EstimateBalancedStageStart(forecast, searchFrom, w.end - (d1 + d2), w.end, d1);
    if stage1.None? {
      NothingReaches(forecast, searchFrom, w.end - d2, w.end);
      return None;
    }
    var stage1End := stage1.value + d1;
    var stage2From := Later(stage1End, searchFrom);
    var stage2 := EstimateBalancedStageStart(forecast, stage2From, w.end - d2, w.end, d2);
    if stage2.None? {
      NothingReaches(forecast, stage2From, w.end - d2, w.end);
      return None;
    }
    StagesFit(now, w, d1, d2, stage1.value, stage2.value);
    StagesBalanced(now, w, d1, d2, ForecastOrNothing(forecast), stage1.value, stage2.value);
    return Some(StagePlan(stage1.value, stage1End, stage2.value, stage2.value + d2));
  }

  lemma StagesBalanced(now: Instant, w: Window, d1: int, d2: int, forecast: seq<Bucket>, stage1: Instant,
                       stage2: Instant)
    requires IsStageStart(forecast, Later(w.start, now), w.end - (d1 + d2), w.end, d1, stage1)
    requires IsStageStart(forecast, Later(stage1 + d1, Later(w.start, now)), w.end - d2, w.end, d2, stage2)
    ensures StartsBalanced(StagePlan(stage1, stage1 + d1, stage2, stage2 + d2), d1, d2, now, w, forecast)
  {
  }

  lemma StagesFit(now: Instant, w: Window, d1: int, d2: int, stage1: Instant, stage2: Instant)
    requires w.start < w.end && d1 >= 0 && d2 > 0
    requires stage1 <= w.end - (d1 + d2) && stage2 <= w.end - d2
    requires Later(w.start, now) <= w.end - (d1 + d2) ==> Later(w.start, now) <= stage1
    requires Later(stage1 + d1, Later(w.start, now)) <= w.end - d2 ==> Later(stage1 + d1, Later(w.start, now)) <= stage2
    requires w.end - d2 < Later(stage1 + d1, Later(w.start, now)) ==> stage2 == w.end - d2
    ensures IsOrdered(StagePlan(stage1, stage1 + d1, stage2, stage2 + d2), d1, d2, w)
    ensures StartsInTime(StagePlan(stage1, stage1 + d1, stage2, stage2 + d2), d1 + d2, now, w)
  {
  }

  /** `EstimateCarbonAwareTwoStagePlan`: for any forecast and any `now`, stage 1 ends before
      stage 2 starts and stage 2 ends inside the window, each stage starting at its balanced
      choice; and there is a plan whenever the forecast reaches into the time reserved for
      stage 2. */
  method EstimateCarbonAwareTwoStagePlan(now: Instant, zone: int, sch: Schedule, candidate: Option<Vehicle>,
                                         hasForecaster: bool, forecast: Option<seq<Bucket>>)
    returns (plan: Option<StagePlan>)
    ensures plan.Some? ==>
              && hasForecaster && PlanInputs(now, zone, sch, candidate)
              && IsPlan(candidate.value, plan.value, now, ScheduleWindow(now, zone, sch).value, forecast)
    ensures hasForecaster && PlanInputs(now, zone, sch, candidate) ==>
              var end := ScheduleWindow(now, zone, sch).value.end;
              Reaches(forecast, end - Stage2Minutes(candidate.value).value * MINUTE, end) ==> plan.Some?
  {
    if !sch.CarbonAware? || !sch.enabled || !sch.twoStage || !hasForecaster {
      return None;
    }
    var window := ScheduleWindow(now, zone, sch);
    if window.None? || candidate.None? {
      return None;
    }
    var v := candidate.value;
    if v.HoldPercent() <= v.currentPercent {
      return None;
    }
    var d1 := EstimateMinutes(v, v.currentPercent, v.HoldPercent());
    var d2 := EstimateMinutes(v, v.HoldPercent(), v.targetPercent);
    if d1.None? || d2.None? || d2.value < MIN_TWO_STAGE_STAGE_DURATION_MIN {
      return None;
    }
    ZeroExactlyAtTarget(v, v.currentPercent, v.HoldPercent());
    plan := PlanStages(now, window.value, d1.value * MINUTE, d2.value * MINUTE, forecast);
  }

  ghost predicate IsPlan(v: Vehicle, plan: StagePlan, now: Instant, w: Window, forecast: Option<seq<Bucket>>)
    requires Stage1Minutes(v).Some?
    requires Stage2Minutes(v).Some?
  {
    var d1, d2 := Stage1Minutes(v).value * MINUTE, Stage2Minutes(v).value * MINUTE;
    && IsOrdered(plan, d1, d2, w)
    && StartsInTime(plan, d1 + d2, now, w)
    && StartsBalanced(plan, d1, d2, now, w, ForecastOrNothing(forecast))
  }

  /** Seen before the window opens, a plan starts inside the window exactly when the target is
      reported reachable. */
  lemma CarbonAwarePlanInsideIffReachable(now: Instant, zone: int, sch: Schedule, v: Vehicle, plan: StagePlan)
    requires sch.CarbonAware? && sch.enabled && sch.twoStage && WorthwhileTwoStage(v)
    requires ScheduleWindow(now, zone, sch).Some? && now <= ScheduleWindow(now, zone, sch).value.start
    requires Stage1Minutes(v).Some?
    requires Stage2Minutes(v).Some?
    requires StartsInTime(plan, (Stage1Minutes(v).value + Stage2Minutes(v).value) * MINUTE, now,
                          ScheduleWindow(now, zone, sch).value)
    ensures ScheduleWindow(now, zone, sch).value.start <= plan.stage1Start <==>
            EstimateTargetReachable(now, zone, sch, Some(v))
  {
    var w := ScheduleWindow(now, zone, sch).value;
    var reserved := Stage1Minutes(v).value + Stage2Minutes(v).value;
    assert EstimateTargetReachable(now, zone, sch, Some(v)) <==> Minutes(w.end - w.start) >= reserved as real;
  }
}
