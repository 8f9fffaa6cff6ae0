/** Activation of schedules: deadline guard, throttle, start-failure backoff and shortfall
    notices (api/services/schedule_service.go). */
module Scheduler {
  import opened Wrappers
  import opened Clock
  import opened Models
  import opened ChargeEstimate
  import opened Forecast
  import opened Planner
  import opened TwoStagePlan

  /** `scheduleThrottleDuration`. */
  const THROTTLE: int := 60_000_000_000

  /** What the charge service answered to a start. */
  datatype Outcome = Started | AlreadyActive | Failed

  datatype StartRequest =
    | SingleStage
    | TwoStage(holdPercent: real, readyBy: string, carbonAwareHold: bool)

  /** A call of the charge service; `carbonAware` tells the two activation paths apart. */
  datatype Attempt = Attempt(plug: PlugId, at: Instant, carbonAware: bool, forced: bool, request: StartRequest,
                             outcome: Outcome)

  /** The service's pacing fields, and the history of its attempts. */
  datatype Pacing = Pacing(lastActivation: Option<Instant>, lastStartFailure: map<PlugId, Instant>, log: seq<Attempt>)

  /** What the forecast has to say once the guard and the throttle have not decided. */
  datatype Verdict = Unavailable | Wait | StartNow

  // ---------------------------------------------------------------- one activation

  predicate BackoffActive(s: Pacing, plug: PlugId, now: Instant) {
    plug in s.lastStartFailure && now - s.lastStartFailure[plug] < THROTTLE
  }

  predicate Throttled(lastAct: Option<Instant>, now: Instant) {
    lastAct.Some? && now - lastAct.value < THROTTLE
  }

  /** `startCarbonAwareSession` and `startCarbonAwareTwoStageSession`. */
  function StartCarbonAware(s: Pacing, plug: PlugId, now: Instant, forced: bool, request: StartRequest,
                            outcome: Outcome): Pacing {
    if BackoffActive(s, plug, now) then s
    else
      var log := s.log + [Attempt(plug, now, true, forced, request, outcome)];
      match outcome
      case AlreadyActive => s.(log := log)
      case Failed => s.(log := log, lastStartFailure := s.lastStartFailure[plug := now])
      case Started => Pacing(Some(now), s.lastStartFailure - {plug}, log)
  }

  /** Whether the carbon-aware schedule runs in two stages for this vehicle. */
  predicate RunsTwoStage(sch: Schedule, v: Vehicle) {
    HasTwoStageIntent(sch) && WorthwhileTwoStage(v)
  }

  /** Minutes that must be left before the window's end, when they can be estimated. */
  function Reserved(sch: Schedule, v: Vehicle): Option<int> {
    if RunsTwoStage(sch, v) then
      match (Stage1Minutes(v), Stage2Minutes(v))
      case (Some(d1), Some(d2)) => Some(d1 + d2)
      case _ => None
    else Estimate(v, v.currentPercent, v.targetPercent)
  }

  function Request(sch: Schedule, zone: int, v: Vehicle, w: Window): StartRequest {
    if RunsTwoStage(sch, v) then TwoStage(v.HoldPercent(), FormatTime(w.end, zone), true) else SingleStage
  }

  /** `tryActivateCarbonAware`, with the forecast's verdict and the start's outcome given. */
  function ActivateCarbonAware(s: Pacing, plug: PlugId, sch: Schedule, zone: int, now: Instant,
                               lastAct: Option<Instant>, candidate: Option<Vehicle>, verdict: Verdict,
                               outcome: Outcome): Pacing
  {
    match (ScheduleWindow(now, zone, sch), candidate)
    case (Some(w), Some(v)) =>
      if now < w.start then s
      else
        var due := Reserved(sch, v).None? || w.end - Reserved(sch, v).value * MINUTE <= now;
        GuardedStart(s, plug, now, lastAct, due, verdict, Request(sch, zone, v, w), outcome)
    case _ => s
  }

  /** The deadline guard forces a start; otherwise the throttle and the forecast decide. */
  function GuardedStart(s: Pacing, plug: PlugId, now: Instant, lastAct: Option<Instant>, due: bool, verdict: Verdict,
                        request: StartRequest, outcome: Outcome): Pacing
  {
    if due then StartCarbonAware(s, plug, now, true, request, outcome)
    else if Throttled(lastAct, now) then s
    else if verdict == StartNow then StartCarbonAware(s, plug, now, false, request, outcome)
    else s
  }

  /** `tryActivateDaily`: fires on the exact clock minute; failures are not paced here. */
  function ActivateDaily(s: Pacing, plug: PlugId, sch: Schedule, zone: int, now: Instant, lastAct: Option<Instant>,
                         candidate: Option<Vehicle>, outcome: Outcome): Pacing
    requires sch.Daily?
  {
    if sch.time != FormatTime(now, zone) || Throttled(lastAct, now) || candidate.None? then s
    else
      var v := candidate.value;
      var request := if sch.readyBy.Some? && WorthwhileTwoStage(v)
                     then TwoStage(v.HoldPercent(), sch.readyBy.value, false) else SingleStage;
      var log := s.log + [Attempt(plug, now, false, false, request, outcome)];
      if outcome == Started then s.(lastActivation := Some(now), log := log) else s.(log := log)
  }

  /** The verdict is the planner's, taken on the whole forecast. */
  ghost predicate IsVerdict(sch: Schedule, v: Vehicle, now: Instant, w: Window, forecast: Option<seq<Bucket>>,
                            verdict: Verdict)
    requires Reserved(sch, v).Some?
  {
    var latest := w.end - Reserved(sch, v).value * MINUTE;
    if Usable(forecast, now, w.end).None? then verdict == Unavailable
    else exists planned ::
        && IsPlanned(sch, v, now, latest, w, forecast.value, planned)
        && verdict == if ActsNow(planned, now) then StartNow else Wait
  }

  ghost predicate IsPlanned(sch: Schedule, v: Vehicle, now: Instant, latest: Instant, w: Window,
                            forecast: seq<Bucket>, planned: Option<Instant>)
    requires Reserved(sch, v).Some?
  {
    if RunsTwoStage(sch, v) then
      var d1 := Stage1Minutes(v).value * MINUTE;
      IsBalanced(SlotScores(forecast, d1), now, latest, w.end, d1, planned)
    else
      IsOptimal(SlotScores(forecast, Reserved(sch, v).value * MINUTE), now, latest, planned)
  }

  // ---------------------------------------------------------------- shortfall notices

  /** `int(d.Minutes())`: whole minutes, truncated toward zero. */
  function WholeMinutes(duration: int): int {
    if duration >= 0 then duration / MINUTE else -(-duration / MINUTE)
  }

  /** Fewer whole minutes are left than estimated. */
  predicate IsShort(now: Instant, windowEnd: Instant, dMin: int) {
    dMin > 0 && WholeMinutes(windowEnd - now) < dMin
  }

  /** The percent is a projection for the minutes left, so below the target. */
  ghost predicate NoticeFits(v: Vehicle, now: Instant, windowEnd: Instant, dMin: int, percent: real) {
    v.currentPercent < v.targetPercent <= 100.0 && Estimate(v, v.currentPercent, v.targetPercent) == Some(dMin) ==>
      && v.currentPercent <= percent < v.targetPercent
      && Estimate(v, v.currentPercent, percent).Some?
      && (now < windowEnd ==> Estimate(v, v.currentPercent, percent).value <= WholeMinutes(windowEnd - now))
  }

  /** The notice sent after a start with an estimate of `dMin` minutes: the projected percent. */
  method ShortfallNotice(v: Vehicle, now: Instant, windowEnd: Instant, dMin: int) returns (notice: Option<real>)
    ensures notice.Some? <==> IsShort(now, windowEnd, dMin)
    ensures notice.Some? ==> NoticeFits(v, now, windowEnd, dMin, notice.value)
  {
    if dMin <= 0 {
      return None;
    }
    var available := WholeMinutes(windowEnd - now);
    if !(available < dMin) {
      return None;
    }
    var p := ProjectPercent(v, v.currentPercent, available);
    if v.currentPercent < v.targetPercent <= 100.0 && Estimate(v, v.currentPercent, v.targetPercent) == Some(dMin)
      && available > 0 {
      ProjectionBelowTarget(v, v.currentPercent, v.targetPercent, available, p, (100.0 - v.currentPercent) / Pow2(64));
    }
    return Some(p);
  }

  /** A guard-forced start notifies exactly when its poll is later than the latest start, by
      however little: the guard leaves no slack for the poll interval. */
  lemma LateGuardAlwaysNotifies(now: Instant, windowEnd: Instant, dMin: int)
    requires dMin > 0 && windowEnd - dMin * MINUTE <= now < windowEnd
    ensures WholeMinutes(windowEnd - now) < dMin <==> windowEnd - dMin * MINUTE < now
  {
  }

  // ---------------------------------------------------------------- a sweep

  /** One schedule row with what the sweep finds for it: the candidate vehicle, the client's
      forecast and the outcome a start would have. */
  datatype Entry = Entry(plug: PlugId, sch: Schedule, candidate: Option<Vehicle>, forecast: Option<seq<Bucket>>,
                         outcome: Outcome)

  /** Inside the window, before the guard and not throttled, the verdict comes from the forecast. */
  ghost predicate VerdictIsRight(e: Entry, zone: int, now: Instant, lastAct: Option<Instant>, verdict: Verdict) {
    var window := ScheduleWindow(now, zone, e.sch);
    && (e.sch.CarbonAware? && window.Some? && e.candidate.Some? && Reserved(e.sch, e.candidate.value).Some?
        && window.value.start <= now < window.value.end - Reserved(e.sch, e.candidate.value).value * MINUTE
        && !Throttled(lastAct, now)
        ==> IsVerdict(e.sch, e.candidate.value, now, window.value, e.forecast, verdict))
  }

  /** A start succeeded on the row's single-stage request, too late for its estimate: exactly
      then a notice is sent. */
  ghost predicate NoticeIsRight(e: Entry, zone: int, now: Instant, before: Pacing, after: Pacing,
                                notice: Option<real>) {
    && (notice.Some? <==>
          && after.log != before.log && e.outcome.Started? && HasEstimate(e, zone, now)
          && IsShort(now, ScheduleWindow(now, zone, e.sch).value.end, Reserved(e.sch, e.candidate.value).value))
    && (notice.Some? ==> NoticeIsDue(e, zone, now, notice.value))
  }

  ghost predicate HasEstimate(e: Entry, zone: int, now: Instant) {
    && ScheduleWindow(now, zone, e.sch).Some? && e.candidate.Some?
    && !RunsTwoStage(e.sch, e.candidate.value) && Reserved(e.sch, e.candidate.value).Some?
  }

  /** The charge no longer fits the window, and the notice's percent can be reached in the whole
      minutes left and is strictly below the vehicle's target. */
  ghost predicate NoticeIsDue(e: Entry, zone: int, now: Instant, percent: real) {
    && HasEstimate(e, zone, now)
    && var v, end := e.candidate.value, ScheduleWindow(now, zone, e.sch).value.end;
       && IsShort(now, end, Reserved(e.sch, v).value)
       && (v.currentPercent < v.targetPercent <= 100.0 ==>
             && v.currentPercent <= percent < v.targetPercent
             && Estimate(v, v.currentPercent, percent).Some?
             && Estimate(v, v.currentPercent, percent).value <= WholeMinutes(end - now))
  }

  /** What a sweep's row consults and sends. */
  ghost predicate RowIsRight(e: Entry, zone: int, now: Instant, lastAct: Option<Instant>, verdict: Verdict,
                             notice: Option<real>) {
    && (e.sch.enabled ==> VerdictIsRight(e, zone, now, lastAct, verdict))
    && (notice.Some? ==> NoticeIsDue(e, zone, now, notice.value))
  }

  function ActivateOne(s: Pacing, zone: int, now: Instant, lastAct: Option<Instant>, e: Entry,
                       verdict: Verdict): Pacing {
    if !e.sch.enabled then s
    else match e.sch
      case CarbonAware(_, _, _, _) => ActivateCarbonAware(s, e.plug, e.sch, zone, now, lastAct, e.candidate, verdict,
                                                          e.outcome)
      case Daily(_, _, _) => ActivateDaily(s, e.plug, e.sch, zone, now, lastAct, e.candidate, e.outcome)
  }

  /** `CheckAndActivateAll`: every row sees the activation time from before the sweep. */
  function Sweep(s: Pacing, zone: int, now: Instant, lastAct: Option<Instant>, es: seq<Entry>,
                 verdicts: seq<Verdict>): Pacing
    requires |es| == |verdicts|
  {
    if es == [] then s
    else
      var n := |es| - 1;
      ActivateOne(Sweep(s, zone, now, lastAct, es[..n], verdicts[..n]), zone, now, lastAct, es[n], verdicts[n])
  }

  class ScheduleService {
    var lastActivation: Option<Instant>
    var lastStartFailure: map<PlugId, Instant>
    ghost var log: seq<Attempt>

    ghost function State(): Pacing
      reads this
    {
      Pacing(lastActivation, lastStartFailure, log)
    }

    constructor ()
      ensures State() == Pacing(None, map[], [])
    {
      lastActivation, lastStartFailure, log := None, map[], [];
    }

    /** `startCarbonAwareSession`, and the two-stage variant, for which `dMin` is 0. */
    method StartSession(plug: PlugId, now: Instant, forced: bool, request: StartRequest, outcome: Outcome,
                        v: Vehicle, windowEnd: Instant, dMin: int)
      returns (notice: Option<real>)
      modifies this
      ensures State() == StartCarbonAware(old(State()), plug, now, forced, request, outcome)
      ensures notice.Some? <==>
                !BackoffActive(old(State()), plug, now) && outcome.Started? && IsShort(now, windowEnd, dMin)
      ensures notice.Some? ==> NoticeFits(v, now, windowEnd, dMin, notice.value)
    {
      notice := None;
      if plug in lastStartFailure && now - lastStartFailure[plug] < THROTTLE {
        return;
      }
      log := log + [Attempt(plug, now, true, forced, request, outcome)];
      if outcome == AlreadyActive {
        return;
      }
      if outcome == Failed {
        lastStartFailure := lastStartFailure[plug := now];
        return;
      }
      lastStartFailure := lastStartFailure - {plug};
      lastActivation := Some(now);
      notice := ShortfallNotice(v, now, windowEnd, dMin);
    }

    method TryActivateCarbonAware(e: Entry, zone: int, now: Instant, lastAct: Option<Instant>)
      returns (verdict: Verdict, notice: Option<real>)
      requires e.sch.CarbonAware?
      modifies this
      ensures State() == ActivateCarbonAware(old(State()), e.plug, e.sch, zone, now, lastAct, e.candidate, verdict,
                                             e.outcome)
      ensures VerdictIsRight(e, zone, now, lastAct, verdict)
      ensures NoticeIsRight(e, zone, now, old(State()), State(), notice)
    {
      verdict, notice := Wait, None;
      var window := ScheduleWindow(now, zone, e.sch);
      if window.None? || e.candidate.None? {
        return;
      }
      var w, v := window.value, e.candidate.value;
      if now < w.start {
        return;
      }
      var request := Request(e.sch, zone, v, w);
      var reserved := Reserved(e.sch, v);
      if reserved.None? {
        notice := StartSession(e.plug, now, true, request, e.outcome, v, w.end, 0);
        return;
      }
      var dMin := if RunsTwoStage(e.sch, v) then 0 else reserved.value;
      var latest := w.end - reserved.value * MINUTE;
      if latest <= now {
        notice := StartSession(e.plug, now, true, request, e.outcome, v, w.end, dMin);
        return;
      }
      if lastAct.Some? && now - lastAct.value < THROTTLE {
        return;
      }
      verdict := Consult(e.sch, v, now, w, e.forecast);
      if verdict == StartNow {
        notice := StartSession(e.plug, now, false, request, e.outcome, v, w.end, dMin);
      }
    }

    /** The forecast branch: fetch, plan, and compare with the current half hour. */
    method Consult(sch: Schedule, v: Vehicle, now: Instant, w: Window, forecast: Option<seq<Bucket>>)
      returns (verdict: Verdict)
      requires Reserved(sch, v).Some?
      ensures IsVerdict(sch, v, now, w, forecast, verdict)
    {
      var buckets := Usable(forecast, now, w.end);
      if buckets.None? {
        return Unavailable;
      }
      var latest := w.end - Reserved(sch, v).value * MINUTE;
      var planned;
      if RunsTwoStage(sch, v) {
        var d1 := Stage1Minutes(v).value * MINUTE;
        planned := FindBalancedStart(buckets.value, now, latest, w.end, d1);
        ReservesStage2(v);
        SliceKeepsBalanced(forecast.value, now, w.end, now, latest, w.end, d1, planned);
      } else {
        var d := Reserved(sch, v).value * MINUTE;
        planned := FindOptimalStart(buckets.value, now, latest, d);
        SliceKeepsOptimal(forecast.value, now, w.end, now, latest, d, planned);
      }
      assert IsPlanned(sch, v, now, latest, w, forecast.value, planned);
      return if ActsNow(planned, now) then StartNow else Wait;
    }

    method TryActivateDaily(e: Entry, zone: int, now: Instant, lastAct: Option<Instant>)
      requires e.sch.Daily?
      modifies this
      ensures State() == ActivateDaily(old(State()), e.plug, e.sch, zone, now, lastAct, e.candidate, e.outcome)
    {
      if e.sch.time != FormatTime(now, zone) {
        return;
      }
      if lastAct.Some? && now - lastAct.value < THROTTLE {
        return;
      }
      if e.candidate.None? {
        return;
      }
      var v := e.candidate.value;
      var request := SingleStage;
      if e.sch.readyBy.Some? && WorthwhileTwoStage(v) {
        request := TwoStage(v.HoldPercent(), e.sch.readyBy.value, false);
      }
      log := log + [Attempt(e.plug, now, false, false, request, e.outcome)];
      if e.outcome == Started {
        lastActivation := Some(now);
      }
    }

    /** `CheckAndActivateAll`, with the verdict and the notice of each row. */
    method CheckAndActivateAll(es: seq<Entry>, zone: int, now: Instant)
      returns (verdicts: seq<Verdict>, notices: seq<Option<real>>)
      modifies this
      ensures |verdicts| == |notices| == |es|
      ensures State() == Sweep(old(State()), zone, now, old(lastActivation), es, verdicts)
      ensures forall i :: 0 <= i < |es| ==>
                RowIsRight(es[i], zone, now, old(lastActivation), verdicts[i], notices[i])
    {
      hide RowIsRight, ActivateOne;
      var lastAct := lastActivation;
      verdicts, notices := [], [];
      for i := 0 to |es|
        invariant |verdicts| == |notices| == i
        invariant State() == Sweep(old(State()), zone, now, lastAct, es[..i], verdicts)
        invariant forall j :: 0 <= j < i ==> RowIsRight(es[j], zone, now, lastAct, verdicts[j], notices[j])
      {
        SweepGrows(old(State()), zone, now, lastAct, es, verdicts, i);
        var verdict, notice := ActivateRow(es[i], zone, now, lastAct);
        verdicts, notices := verdicts + [verdict], notices + [notice];
      }
      assert es[..|es|] == es;
    }

    /** One row of the sweep. */
    method ActivateRow(e: Entry, zone: int, now: Instant, lastAct: Option<Instant>)
      returns (verdict: Verdict, notice: Option<real>)
      modifies this
      ensures State() == ActivateOne(old(State()), zone, now, lastAct, e, verdict)
      ensures RowIsRight(e, zone, now, lastAct, verdict, notice)
    {
      verdict, notice := Wait, None;
      if e.sch.enabled {
        if e.sch.CarbonAware? {
          verdict, notice := TryActivateCarbonAware(e, zone, now, lastAct);
        } else {
          TryActivateDaily(e, zone, now, lastAct);
        }
      }
    }
  }

  lemma SweepGrows(s: Pacing, zone: int, now: Instant, lastAct: Option<Instant>, es: seq<Entry>,
                   verdicts: seq<Verdict>, i: nat)
    requires i < |es| && |verdicts| == i
    ensures forall verdict :: Sweep(s, zone, now, lastAct, es[..i + 1], verdicts + [verdict])
              == ActivateOne(Sweep(s, zone, now, lastAct, es[..i], verdicts), zone, now, lastAct, es[i], verdict)
  {
    assert es[..i + 1][..i] == es[..i];
    assert forall verdict: Verdict :: (verdicts + [verdict])[..i] == verdicts;
  }

  lemma ReservesStage2(v: Vehicle)
    requires Stage2Minutes(v).Some?
    ensures Stage2Minutes(v).value >= 0
  {
    ZeroExactlyAtTarget(v, v.HoldPercent(), v.targetPercent);
  }
}
