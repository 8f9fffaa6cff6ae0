# Verified model of the EV charge controller

This project models the Go API under `api/` of the EV charge controller in Dafny 4.11 and
proves properties of the model. `dafny verify dfyconfig.toml` checks all of it.

The controller charges cars through Tasmota smart plugs. It picks start times from a
carbon-intensity forecast, estimates how long a charge takes, runs each charge session
through a small state machine, meters and bills the energy, and confirms relay commands over
MQTT. The modules follow that structure:

| Module | What it models |
|---|---|
| `Clock` | HH:MM text, daily windows and deadlines resolved from "now" |
| `Models`, `Wrappers` | vehicles, meter readings, constants, `Option` |
| `ChargeEstimate` | charge-duration estimate and its inverse by bisection |
| `Forecast` | scoring a time window against forecast buckets; slicing them |
| `ForecastCache` | the caching forecast client, alone and with concurrent callers |
| `Planner` | the cleanest and the balanced start slot, and when a plan acts now |
| `TwoStagePlan` | plan previews and reachability warnings for two-stage schedules |
| `Scheduler` | schedule activation: deadline guard, throttle, failure backoff, shortfall notices |
| `SchedulerRuns` | what every run of activation sweeps keeps, and when a row attempts a start |
| `HoldResume` | when a holding two-stage session resumes |
| `ReadyBy` | the schedule's guard and the resume of a hold, taken together |
| `Energy` | battery level from the plug's cumulative meter, and its concurrent writers |
| `Cost` | time-weighted session cost |
| `Readings` | reading de-duplication, idle detection, billing of what is stored |
| `Sessions` | session rows and what each service call or worker check decides |
| `SessionRuns` | what every run of those steps keeps |
| `SessionSteps` | when exactly each step changes a session, and to what |
| `Ledger` | a vehicle's lifetime totals against its remaining sessions |
| `SessionService` | the repository's row writes and the services, as classes |
| `PowerConfirm` | confirmation of relay commands, with any interleaving of waiters, other commands and reports |
| `Lwt` | offline debounce, with callbacks that run late, and notification cooldown |
| `Breaker` | the circuit breaker in front of the plugs |

Code that computes is a function; code with loops or fields is a method or a class whose
contract ties the result, or the whole new state, to a specification function or predicate.
The properties are lemmas about those specifications: about all inputs, or about all runs.

## Conventions

- An instant is an `int` of nanoseconds UTC; the server's zone is a fixed offset, and days have
  24 hours. `float64` is `real`. Go's nil pointers, zero times and `math.MaxFloat64` are `None`.
- Clock readings, forecasts, meter readings, vehicle rows, power confirmations and start
  outcomes are parameters. Database writes succeed.
- Sessions: a plug, its vehicle and its sessions share one owner, starts name a plug, and a
  plug is of the charging type. One service call or one worker check of one session is one
  step. Rows are kept in order of creation; ids are never generated twice. The relay map holds
  how a plug's relay was last switched: by a command issued for it, or from outside as the
  manual handler is told; a switch it is not told of is not seen. Carbon intensities are not negative, and neither
  are tariff rates (`api/services/tariff_service.go:83-100` refuses negative ones).
- Statements about concurrent calls and about notices assume a clock that never goes back.
- The class methods of `SessionService` require well-formed rows (`SessionRuns.RowsOk`); each
  is a step (or a series of steps) of `Sessions.Apply`, so `SessionRuns.StepKeepsRows` carries
  that on to the next call.
- Deleting a vehicle or a plug is a step of its own: the foreign keys delete its sessions
  (`api/database/migrations/015_add_plug_cascade.up.sql:19-21`). A deletion refused because
  the row is missing or another user's changes nothing and is not a step.
- The scheduler's attempts are kept in a log (`Scheduler.Pacing.log`) that the code does not
  keep; it only serves the statements about runs.

## Where the code departs from its own documentation

The model follows the code. These are proved in the members named:

- An unforced carbon-aware start happens only at the exact instant of the chosen half-hour
  slot, or when no slot is left: the search skips slots before "now", the activation test
  compares with the truncated half hour (`Planner.ActsNowExactly`, `Planner.OffGridWaits`; over
  all runs of sweeps, `SchedulerRuns.UnforcedOnlyAtChosenInstants`).
- The one-minute throttle "across all plugs" does not bind starts of the same sweep
  (`SchedulerRuns.SweepStartsTwice`), nor starts forced by the deadline guard
  (`SchedulerRuns.ForcedStartIgnoresThrottle`), and failed daily starts are not paced
  (`SchedulerRuns.FailedDailyStartsRepeat`). Starts closer than a minute are always of the
  first two kinds (`SchedulerRuns.CloseStarts`).
- A start forced by the guard always sends a shortfall notice, however little late the poll is
  (`Scheduler.LateGuardAlwaysNotifies`).
- A window with equal ends is "always" to the scheduler and "never" to billing
  (`Clock.GateIsWithinWindow`). Equal texts are refused, but "+7:00" to "07:00" is accepted
  (`Clock.SignedEndsAreAlwaysAndNever`); two accepted texts without a sign always differ
  (`Clock.UnsignedEndsDiffer`).
- The forecast is "fetched once per half-hour" only when calls do not overlap: two callers that
  miss together both store (`ForecastCache.TwoFetchesInOneHalfHour`,
  `ForecastCache.RefetchedExactlyByOverlap`, `ForecastCache.OneFetchPerHalfHour`).
- A hold whose resume tick comes after its deadline waits for the next day's
  (`HoldResume.GuardFiresExactlyUpToDeadline`).
- "Blended energy is monotonic" fails with overlapping writers: the stored level falls exactly
  at a write that another write has overtaken with a higher level
  (`Energy.FallsExactlyAtOverlaps`, `Energy.StoredCanFall`), and never without an overlap
  (`Energy.WithoutOverlapNeverFalls`).
- De-duplication compares power, voltage, current and carbon but not the meter, so the energy
  after the last stored reading is not billed (`Readings.BillingLagsByTheTail`), and energy may
  be billed at the price of a later reading (`Readings.BillLagsInPence`).
- `DeleteSession` is documented for completed and cancelled sessions; the code also deletes a
  holding one, and then a resume that was commanded but not confirmed leaves the relay on with
  no session (`SessionRuns.DeletedHoldLosesRelay`). Deleting the vehicle or the plug of a
  session in progress does the same (`SessionRuns.CascadeLosesRelay`), also when its relay was
  switched on from outside (`SessionRuns.ResumedByHandThenDeleted`).
- "Energy must never flow untracked" after an external power-on fails for a vehicle below
  target without a configured battery: the start is refused and power is not cut
  (`SessionRuns.ManualOnTracksOrCuts`, `SessionRuns.RefusedPowerOnLosesRelay`). Over all runs,
  nothing but these deletions and this refusal leaves a relay on without a session
  (`SessionRuns.RelayLostExactly`, `SessionRuns.RelayAlwaysTracked`).
- Deleting a plug takes its completed sessions without taking their figures from the vehicle's
  totals; no other step unbalances them (`Ledger.LedgerLostExactly`).
- `confirmOffline` "fires after the debounce window with no intervening Online", but its timer
  may have expired before that Online was handled: the callback then marks the plug offline
  although it is back (`Lwt.OvertakenCallbackConfirms`), or makes the manager forget a newer
  timer, which then does so (`Lwt.StrayTimerConfirms`). Both need an Online handled while an
  expired timer's callback is still to run, and nothing else breaks the silence
  (`Lwt.SilenceBrokenExactlyByRaces`).
- "The minimum gap between plug-unavailable notifications" can be undercut: nothing is locked
  between the cooldown test and the note of the time, so two callbacks of one plug may both
  notify (`Lwt.TwoNoticesAtOnce`). Notices closer than 15 minutes are always of that kind
  (`Lwt.NoticesAreSpaced`).
- "App-initiated relay changes always register a confirmer" holds for `SetPowerAndWait`
  (`PowerConfirm.AwaitedNeverLooksManual`) but not for `SetPower`: the report of such a command
  is taken for a manual switch whenever no other call is registered and the state changes
  (`PowerConfirm.FireAndForgetLooksManual`, `PowerConfirm.AppCommandReachesHandler`).

## Model

| member | source | states |
|---|---|---|
| Clock.ParsesExactly | api/services/schedule_service.go:1000-1014 | A text parses exactly when a single colon separates an hour and a minute in range (a sign is allowed), and to that minute of the day; every other text gives no result |
| Clock.ParseFormat | api/services/schedule_service.go:1162-1164 | Formatting any instant and parsing the text gives back its local minute of the day |
| Clock.ResolveWindow | api/services/schedule_service.go:931-971 | The result is a daily repeat of the window, with its end after now and the previous end not after now; there is one exactly when both texts parse |
| Clock.ResolvedWindowIsUnique | api/services/schedule_service.go:931-971 | No other daily repeat has its end after now and the previous end at or before now |
| Clock.GateIsWithinWindow | api/services/schedule_service.go:325-327 | The activation gate is open exactly when the billing test `withinWindow` holds for now's minute of day, wrapping midnight included, or the two ends are equal |
| Clock.UnsignedEndsDiffer | api/services/schedule_service.go:202-207 | A window accepted on upsert whose texts have no sign never has equal ends |
| Clock.SignedEndsAreAlwaysAndNever | api/services/schedule_service.go:202-207 | The window "+7:00" to "07:00" is accepted, and then the scheduler's gate is always open while the billing test never holds |
| Clock.ResolveDeadline | api/services/schedule_service.go:985-997 | The first instant at or after now, within a day, with the given clock time |
| Clock.ReResolved | api/services/schedule_service.go:985-997 | Re-resolving at a later instant keeps the deadline exactly until it has passed, and then moves it by a day or more |
| Clock.ReadyByNamesWindowEnd | api/services/schedule_service.go:903-909 | The ready-by text of a carbon-aware two-stage start names the window's end: every tick in the day up to that end resolves the text to it |
| ChargeEstimate.PhaseMinutes | api/chargeestimate/chargeestimate.go:48-72 | The three accumulating phase branches add up to the difference of one cumulative work function at target and current |
| ChargeEstimate.EstimateMinutes | api/chargeestimate/chargeestimate.go:30-76 | The estimate: zero from target on, no answer exactly without timing or power data, otherwise the ceiling of the phase work with the safety margin |
| ChargeEstimate.ZeroExactlyAtTarget | api/chargeestimate/chargeestimate.go:30-76 | The estimate is zero exactly when the current percent is at or above the target, and at least one minute otherwise |
| ChargeEstimate.EstimateMonotone | api/chargeestimate/chargeestimate.go:30-76 | The estimate rises with the target and falls with the current percent |
| ChargeEstimate.SplitCharge | api/chargeestimate/chargeestimate.go:30-76 | Splitting a charge anywhere never reserves less time than the whole, and at most one minute more |
| ChargeEstimate.From0To80 | api/chargeestimate/chargeestimate.go:107-124 | With times for 20 to 80 and a longer 0 to 80, a charge from 0 to 80 is estimated as the ceiling of 1.1 times the latter |
| ChargeEstimate.From20To100 | api/chargeestimate/chargeestimate.go:139-142 | The same for a charge from 20 to 100 and its time |
| ChargeEstimate.From0To100 | api/chargeestimate/chargeestimate.go:121-145 | And from 0 to 100, when the full time is the one that supplies the missing phase |
| ChargeEstimate.Inside20To80 | api/chargeestimate/chargeestimate.go:57-66 | Between 20 and 80 a charge takes its part of the 20-to-80 time, with the margin |
| ChargeEstimate.ByPowerBelow80 | api/chargeestimate/chargeestimate.go:107-132 | With power and capacity only, a charge below 80 percent takes its energy over power times efficiency, with the margin |
| ChargeEstimate.PreCCByPower | api/chargeestimate/chargeestimate.go:128-132 | With a 20-to-80 time and power, the part below 20 percent is taken from the power |
| ChargeEstimate.PreCCAtRateOfCC | api/chargeestimate/chargeestimate.go:133-134 | Without power, a percent below 20 takes as long as one between 20 and 80 |
| ChargeEstimate.CVTakesTwice | api/chargeestimate/chargeestimate.go:146-148 | Without a time for the last fifth, a charge above 80 percent takes twice the minutes of the same rise between 20 and 80 |
| ChargeEstimate.ProjectPercent | api/chargeestimate/chargeestimate.go:83-102 | The bisection's answer is reachable in the available minutes, and every percent above it by more than (100-current)/2^64 is not |
| ChargeEstimate.ProjectionBelowTarget | api/chargeestimate/chargeestimate.go:83-102 | A projection made when the target needs more than the available minutes lies strictly below the target |
| Forecast.ScoreWindow | api/services/schedule_service.go:1136-1160 | The loop computes the overlap-weighted average of the forecast over the window, and no score without overlap |
| Forecast.ScoredIffCovered | api/services/schedule_service.go:1136-1160 | A window has a score exactly when some bucket overlaps it for a positive time |
| Forecast.ScoreIsAnAverage | api/services/schedule_service.go:1136-1160 | A score lies between the lowest and the highest forecast value |
| Forecast.RescaledScore | api/services/schedule_service.go:1136-1160 | Replacing every forecast value x by k*x+c replaces every score likewise |
| Forecast.SumsSplit | api/services/schedule_service.go:1139-1154 | Both sums of a score over a window are those over its two parts |
| Forecast.TiledWeight | api/services/schedule_service.go:1151-1152 | Where contiguous buckets tile a window their weights add up to its minutes |
| Forecast.ScoreIsTimeAverage | api/services/schedule_service.go:1134-1160 | Score times minutes adds up over adjacent windows: the score is the average over clock time, whatever the lengths of the buckets |
| Forecast.ScoreInsideBucket | api/services/schedule_service.go:1134-1160 | Inside one bucket the score is that bucket's forecast |
| Forecast.SliceBuckets | api/carbonintensity/carbonintensity.go:226-236 | The slice holds, in order, exactly the buckets that overlap the range |
| Forecast.SliceKeepsScore | api/carbonintensity/carbonintensity.go:226-236 | Any window inside the sliced range scores the same on the slice as on the full forecast |
| ForecastCache.NextHalfHour | api/carbonintensity/carbonintensity.go:239-248 | The first half-hour boundary strictly after the instant |
| ForecastCache.ForecastClient.GetForecast | api/carbonintensity/carbonintensity.go:141-171 | A call that no other overlaps: a fresh entry is served, sliced; otherwise the fetch is stored until the next half hour and served, or its error returned with the cache untouched; an empty slice is an error |
| ForecastCache.RefetchedExactlyByOverlap | api/carbonintensity/carbonintensity.go:141-166 | On every run of concurrent callers a fetch is stored in the half hour of the one before it exactly when its caller tested the cache before that store landed and stores before that half hour ends; the content is that a caller testing later never does |
| ForecastCache.OneFetchPerHalfHour | api/carbonintensity/carbonintensity.go:138-140 | When every storing caller tested the cache after the store before its own, no half hour stores two fetches |
| ForecastCache.TwoFetchesInOneHalfHour | api/carbonintensity/carbonintensity.go:141-166 | A run of two callers that miss together and store two fetches in one half hour |
| Planner.AlignToHalfHour | api/services/schedule_service.go:1017-1020 | The last half-hour grid point not after the instant, which is the instant itself exactly on the grid |
| Planner.FindOptimalStart | api/services/schedule_service.go:1029-1055 | The latest of the cleanest scored half-hour slots between now and the latest start, or none exactly when no slot has data |
| Planner.OptimalIsUnique | api/services/schedule_service.go:1029-1055 | That description has only one answer |
| Planner.SliceKeepsOptimal | api/services/schedule_service.go:493-500 | Searching the cached slice up to the window's end gives the same answer as searching the full forecast |
| Planner.CollectCandidates | api/services/schedule_service.go:1075-1096 | The first loop lists every scored half-hour slot in range, each once, in order, with its carbon and dwell |
| Planner.FindExtremes | api/services/schedule_service.go:1101-1108 | The second loop finds the exact extremes of carbon and dwell over the candidates |
| Planner.PickCheapest | api/services/schedule_service.go:1110-1120 | The third loop picks the last candidate of least normalised cost |
| Planner.FindBalancedStart | api/services/schedule_service.go:1075-1121 | The latest slot with the least sum of normalised carbon and normalised dwell over all scored slots in range, or none exactly when there is no slot |
| Planner.BalancedIsUnique | api/services/schedule_service.go:1075-1121 | That description has only one answer |
| Planner.BalancedIsPareto | api/services/schedule_service.go:1057-1121 | Every scored slot later than the balanced one is strictly dirtier |
| Planner.BalancedNotBeforeOptimal | api/services/schedule_service.go:1057-1121 | Weighing dwell never moves the start earlier than carbon alone would |
| Planner.BalancedTradesEvenly | api/services/schedule_service.go:1110-1120 | Against any other slot, what the balanced one is dirtier by, as a share of the spread of carbon, is at most what it is later by, as a share of the spread of the slots in time; strictly less if it is the earlier one |
| Planner.DeadlineIrrelevant | api/services/schedule_service.go:1094-1118 | The balanced choice does not depend on the deadline argument |
| Planner.OptimalIgnoresScale | api/services/schedule_service.go:1029-1055 | The carbon-only choice survives replacing every forecast value x by k*x+c with k > 0 |
| Planner.BalancedIgnoresScale | api/services/schedule_service.go:1110-1132 | So does the balanced choice |
| Planner.SliceKeepsBalanced | api/services/schedule_service.go:546-552 | The balanced choice on the cached slice is the one on the full forecast |
| Planner.ActsNowExactly | api/services/schedule_service.go:501-506 | An unforced start happens exactly when no scored slot is left, or now is itself the chosen grid instant |
| Planner.OffGridWaits | api/services/schedule_service.go:1036-1043 | With a forecast for every slot, a tick off the grid starts exactly when no grid point is left before the latest start |
| Planner.CleanestNowStarts | api/services/schedule_service.go:1036-1055 | A tick on the grid that is a slot strictly cleaner than every later one starts |
| TwoStagePlan.DailyPlanOrderedIffReachable | api/services/schedule_service.go:719-773 | The daily plan's first stage ends by the start of its second exactly when the target is reported reachable |
| TwoStagePlan.DailyPlanExactly | api/services/schedule_service.go:719-773 | With times and durations known a daily plan exists exactly when stage one takes any time and stage two at least 15 minutes; its stages begin and end at the schedule's times and last their estimates, with the hold at 0.8 of the target |
| TwoStagePlan.EstimateBalancedStageStart | api/services/schedule_service.go:780-799 | A stage starts at the balanced slot of the whole forecast, or at its latest start when no slot is left; there is no answer exactly when the forecast is needed and unavailable |
| TwoStagePlan.PlanStages | api/services/schedule_service.go:676-699 | Both searches: the stages are ordered, end inside the window, start at their balanced choices, and lie in what is left of the window exactly when both fit there |
| TwoStagePlan.EstimateCarbonAwareTwoStagePlan | api/services/schedule_service.go:633-708 | For any forecast and any now the plan is ordered and ends inside the window, each stage starting at its balanced choice; there is a plan whenever the forecast reaches into the time reserved for stage 2 |
| TwoStagePlan.CarbonAwarePlanInsideIffReachable | api/services/schedule_service.go:421-456 | Seen before the window opens, the plan starts inside it exactly when the target is reported reachable |
| Scheduler.ScheduleService.StartSession | api/services/schedule_service.go:866-924 | Backoff, attempt, and what success, failure and an already active session do to the throttle and the failure map |
| Scheduler.ScheduleService.Consult | api/services/schedule_service.go:493-557 | The forecast branch's verdict is the planner's on the whole forecast, for one stage or two |
| Scheduler.ScheduleService.TryActivateCarbonAware | api/services/schedule_service.go:312-345 | The gate, the guard (estimator failure or latest start reached), the throttle and the verdict decide, in that order, one attempt at most |
| Scheduler.ScheduleService.TryActivateDaily | api/services/schedule_service.go:274-309 | Fires on the exact clock minute outside the throttle, in two stages exactly when ready-by is set and the split is worthwhile |
| Scheduler.ScheduleService.CheckAndActivateAll | api/services/schedule_service.go:241-267 | A sweep serves every enabled schedule in order against the throttle time from before the sweep, with the planner's verdicts; every notice it sends belongs to a row whose charge no longer fits its window, and names a percent reachable in the minutes left and below a target that is still ahead |
| SchedulerRuns.RunsArePaced | api/services/schedule_service.go:840-862 | On every run of sweeps, failed carbon-aware attempts on one plug are at least 60 seconds apart, and an unforced start comes 60 seconds after every start of an earlier sweep |
| SchedulerRuns.CloseStarts | api/services/schedule_service.go:840-862 | On every run of sweeps, a start less than 60 seconds after an earlier one was forced by the guard or comes at the same instant of the same sweep |
| SchedulerRuns.SweepStartsTwice | api/services/schedule_service.go:241-267 | A run in which one sweep starts two plugs at the same instant |
| SchedulerRuns.ForcedStartIgnoresThrottle | api/services/schedule_service.go:474-487 | A run in which the guard forces a start five seconds after another plug's |
| SchedulerRuns.FailedDailyStartsRepeat | api/services/schedule_service.go:274-309 | A run in which a daily start fails twice, five seconds apart |
| SchedulerRuns.UnforcedOnlyAtChosenInstants | api/services/schedule_service.go:493-557 | On every run of sweeps, every unforced carbon-aware attempt was made at the very instant of a scored half-hour slot, or when no scored slot was left |
| SchedulerRuns.RowAttemptsExactly | api/services/schedule_service.go:312-345 | A carbon-aware row in its window attempts a start exactly when its plug is not backing off and either the latest start has come, which forces it, or the throttle is open and the plan of the whole forecast says now |
| SchedulerRuns.DailyRowAttemptsExactly | api/services/schedule_service.go:274-309 | A daily row attempts a start exactly on its minute with the throttle open, in two stages with the ready-by time exactly when its plan has two stages |
| SchedulerRuns.SweepKeepsPacing | api/services/schedule_service.go:241-267 | One sweep keeps that pacing, whatever its entries and verdicts |
| SchedulerRuns.SameWindow | api/services/schedule_service.go:318-327 | Until a window's end every tick in it resolves to that same window |
| SchedulerRuns.DueRowAttempts | api/services/schedule_service.go:474-487 | From the latest start on, a row in its window leaves an attempt on its plug less than 60 seconds old: its own, or the failed one that holds it back |
| SchedulerRuns.GuardForcesAttempt | api/services/schedule_service.go:462-540 | Whatever the forecast and the history, when sweeps no further apart than the reserved time find a plug idle in its window, the first sweep at or after the latest start is still inside the window, and after it an attempt on the plug is less than 60 seconds old |
| ReadyBy.ReservedCoversCharge | api/services/schedule_service.go:520-537 | What the guard reserves covers the whole charge; in two stages it is at most one minute more |
| ReadyBy.StartedInTimeEndsInTime | api/services/schedule_service.go:474-481 | A start at or before the latest start leaves the whole charge its estimate before the window ends |
| ReadyBy.BothStagesFit | api/services/schedule_service.go:510-537 | A two-stage start at or before the latest start, held once its first stage took no longer than estimated, is charging again at most one tick after the moment that leaves the second stage its estimate, and never past the window's end, whatever the forecasts |
| ReadyBy.ReachableExactlyIfGuardCanWait | api/services/schedule_service.go:421-456 | The target is reported reachable exactly when the guard does not fire as the window opens, in one stage or two |
| Scheduler.ShortfallNotice | api/services/schedule_service.go:887-894 | A notice is sent exactly when fewer whole minutes are left than estimated, and its projected percent is reachable and strictly below target |
| Scheduler.LateGuardAlwaysNotifies | api/services/schedule_service.go:887-894 | A forced start notifies exactly when its poll is later than the latest start at all |
| HoldResume.ResumeIfDue | api/services/session_monitoring_service.go:539-594 | The decision: nothing without hold data, vehicle or deadline; at once without an estimate or from the latest safe moment on; otherwise only a carbon-aware hold whose balanced slot (on the whole forecast) acts now |
| HoldResume.EstimateResume | api/services/session_monitoring_service.go:602-649 | The estimate is the latest safe moment once that has come and the balanced slot before; there is none without the data the decision needs |
| HoldResume.EstimateMirrorsDecision | api/services/session_monitoring_service.go:596-601 | Whenever the user is shown an estimate, the worker resumes at this tick exactly when the estimate is not later than now |
| HoldResume.GuardFiresExactlyUpToDeadline | api/services/session_monitoring_service.go:551-580 | From the latest safe moment on the guard resumes up to the original deadline; past it a plain hold waits for the next day's |
| HoldResume.ResumesInTime | api/services/session_monitoring_service.go:525-594 | With ticks no further apart than a gap, itself no longer than the remaining charge, and power always confirmed, a session held early enough is active again by the first tick at or after the latest safe moment, at most a gap after it and not past the deadline |
| HoldResume.RemainingCompletes | api/services/session_monitoring_service.go:564-571 | Stage one and what remains after the hold reserve the whole charge to the session's own target, and at most one minute more |
| HoldResume.PlainHoldResumesExactly | api/services/session_monitoring_service.go:539-580 | A hold without the data to judge by waits, one without an estimate resumes at once, and a plain one resumes exactly from the latest safe moment on |
| HoldResume.EstimateShownExactly | api/services/session_monitoring_service.go:602-649 | An estimate is shown exactly for a carbon-aware hold with its data, unless the forecast is of no use or has no slot left; it leaves the remaining charge its time, exactly so once the latest safe moment has come |
| HoldResume.SuchRunsExist | api/services/session_monitoring_service.go:551-580 | Every plain hold has a run meeting those premises: a tick that keeps holding, then one that resumes at the latest safe moment |
| HoldResume.CarbonAwareResumesInWindow | api/services/schedule_service.go:903-924 | The same for a session started by a carbon-aware schedule: it is charging again before its window closes |
| Energy.PersistedPercentIsLive | api/services/energy_calculator.go:92-98 | The percent derived from the persisted level of a reading equals the percent the reading showed |
| Energy.EndPercentIsLive | api/services/energy_calculator.go:103-123 | A stop at a reading that ticks, is the highest so far and inside the target records the percent being shown, capped at a full battery |
| Energy.ProgressRaises | api/services/energy_calculator.go:30-80 | A reading raises the persisted level to its own level when it ticks and is higher, and never lowers it |
| Energy.HasTickExactly | api/services/energy_calculator.go:30-80 | A progress says that its reading ticked exactly when power is drawn and the meter has gained |
| Energy.ThreadingYieldsPeak | api/services/energy_calculator.go:46-79 | Persisting the level after every reading yields exactly the highest of the start level and the levels of the readings that tick |
| Energy.ThreadingIgnoresOrder | api/services/energy_calculator.go:46-79 | The order and repetition of the readings change nothing |
| Energy.MoveKeepsAccount | api/services/charge_session_service.go:624-656 | Every capture, write or dropped job keeps each stored or captured level accounted for by a reading taken up |
| Energy.StoredStaysBelowPeak | api/services/session_monitoring_service.go:357-368 | Under any interleaving of SOC-worker and auto-stop writes the stored level stays between the start level and the peak of the readings taken up |
| Energy.FallsExactlyAtOverlaps | api/services/charge_session_service.go:624-656 | On every run the stored level falls exactly at a write whose job read before the latest write, when that write put the level above the start, what the job read and what its reading shows |
| Energy.WithoutOverlapNeverFalls | api/services/charge_session_service.go:624-656 | On a run whose writers do not overlap the stored level never falls |
| Energy.StoredCanFall | api/services/session_lifecycle_service.go:439-444 | A concrete run of four moves in which the stored level goes down |
| Cost.ApplicableRate | api/services/cost_calculator.go:50-58 | The rate of the first window containing the local minute, and off-peak; otherwise the base rate |
| Cost.CalculateSessionCost | api/services/cost_calculator.go:19-45 | The loop over the time-sorted readings computes the sum of each positive rise times its rate, and the part of the rises at off-peak readings |
| Cost.ByTimeSorts | api/services/cost_calculator.go:24-28 | The sorted copy is in time order |
| Cost.ByTimeKeepsReadings | api/services/cost_calculator.go:24-28 | It holds the same readings |
| Cost.ByTimeIsStable | api/services/cost_calculator.go:24-28 | Readings at one instant keep their order |
| Cost.RisesOfRisingMeter | api/services/cost_calculator.go:30-37 | A meter that never falls bills exactly what it gained over the baseline |
| Cost.PartsAddUp | api/services/cost_calculator.go:38-42 | Off-peak and on-peak energy add up to the energy billed, and neither is negative |
| Cost.ChargeBetween | api/services/cost_calculator.go:38-39 | The charge lies between the lowest and the highest rate times the energy billed |
| Cost.TwoRateCharge | api/services/cost_calculator.go:16-18 | With one off-peak rate the charge is each rate times its part of the energy |
| Cost.ChargedByWindow | api/services/cost_calculator.go:30-58 | For every tariff: the energy drawn at readings in each window, by configured order, is charged at that window's own rate and the rest at the base rate; the windows' energy is the off-peak energy and all of it the energy billed |
| Cost.RisesBalance | api/services/cost_calculator.go:30-37 | For any meter, the energy billed is its net gain plus its falls |
| Cost.CostBounds | api/services/cost_calculator.go:10-45 | For every tariff and any readings: the energy bounds and rate bounds together |
| Cost.CostIgnoresOrder | api/services/cost_calculator.go:24-28 | Readings at distinct times are billed the same in whatever order they are given |
| Cost.CostIsNotNegative | api/services/tariff_service.go:83-100 | Without negative rates no session costs less than nothing |
| Readings.ReadingLog.Save | api/services/session_monitoring_service.go:221-240 | A reading is stored unless the last one is fresh and equal in power, voltage, current and carbon |
| Readings.DroppedExactly | api/services/session_monitoring_service.go:676-687 | A reading is dropped exactly when it differs from the last stored one in nothing but time and meter, and that one is younger than 30 minutes |
| Readings.IdleStreakStart | api/services/session_monitoring_service.go:481-492 | The backward loop finds the first reading of the longest all-idle suffix, and idle exactly when that suffix is not empty |
| Readings.StopsIdleExactly | api/services/session_monitoring_service.go:451-475 | A session is stopped as idle exactly when it started 10 minutes ago or more and its readings have been below 30 W throughout since one that is 15 minutes old or more |
| Readings.SameStreak | api/services/session_monitoring_service.go:676-687 | The stored readings start the same idle streak, with the same reading, as the full stream |
| Readings.SameIdleVerdict | api/services/session_monitoring_service.go:451-475 | The idle check decides the same on the stored readings as on all of them |
| Readings.BillingLagsByTheTail | api/services/session_monitoring_service.go:676-687 | With a rising meter, billing the stored readings falls short of billing all by exactly what was drawn since the last stored one |
| Readings.BillLagsInPence | api/services/cost_calculator.go:38-42 | In pence, for any prices, exactly: the bill of the stored readings lacks each dropped rise times the difference between its own rate and that of the next stored reading, and the tail at its own rates |
| Readings.BillLagIsBounded | api/services/cost_calculator.go:38-42 | With all rates between two bounds the bill lacks the tail at some such rate, give or take the billed energy times the spread of the rates |
| Readings.FlatBillLacksTheTail | api/services/cost_calculator.go:38-42 | At one price throughout, the bill lacks exactly the tail at that price |
| Readings.TailIsFresh | api/services/session_monitoring_service.go:680-682 | A dropped reading finds the last stored one younger than 30 minutes |
| Readings.SteadyChargeGoesUnbilled | api/services/session_monitoring_service.go:683-686 | Whatever an otherwise equal second reading adds to the meter is not billed |
| SessionRuns.StepIsLegal | api/services/session_monitoring_service.go:320-408 | Every call and check makes one of the listed status changes, freezes non-negative figures on completion, starts nothing on a busy plug, switches on only for a session and off with its end |
| SessionRuns.RowsAlwaysOk | api/services/session_lifecycle_service.go:631-648 | In every reachable state a plug has at most one session in progress; holding implies hold percent and ready-by, conditioning a full target and no hold, figures exactly on completed sessions |
| SessionRuns.StepFollows | api/repository/charge_session.go:217-305 | A step lowers a session's rank (pending, active with hold, holding, active, conditioning, over) exactly when it changes its status; identity fields never change; a deleted id never returns |
| SessionRuns.RunFollows | api/repository/charge_session.go:217-312 | Between any two points of any run a session's rank never rises and its identity stays |
| SessionRuns.TerminalIsFinal | api/services/session_lifecycle_service.go:155-169 | A completed or cancelled session keeps its status for good |
| SessionRuns.HoldsOnce | api/repository/charge_session.go:242-260 | Having held and left the hold, a session never holds again |
| SessionRuns.RelayLostExactly | api/services/charge_session_service.go:500-559 | A step leaves a relay that was last switched on, by a command or from outside, without a session in progress exactly when it deletes a session in progress with its relay on (a holding one by itself, any with its vehicle or plug) or is an external power-on refused for want of a battery; without a session past pending, also when an external power-on leaves one pending |
| SessionRuns.RelayAlwaysTracked | api/mqtt/lwt.go:117-141 | On every run without such a step, a relay last switched on, by a command or from outside, has a session in progress, whatever was confirmed |
| SessionRuns.DeletedHoldLosesRelay | api/services/session_lifecycle_service.go:781-783 | From any state, an unconfirmed resume followed by deleting the holding session leaves the relay on without a session |
| SessionRuns.CascadeLosesRelay | api/database/migrations/015_add_plug_cascade.up.sql:19-21 | From any state, deleting the vehicle or the plug of a session in progress whose relay was last switched on leaves the relay on without a session |
| SessionRuns.ResumedByHandThenDeleted | api/services/charge_session_service.go:518-526 | From any state, a hold resumed by an external power-on and then deleted with its plug leaves the relay on without a session |
| SessionRuns.RefusedPowerOnLosesRelay | api/services/charge_session_service.go:529-559 | The first external power-on of a plug, for a vehicle below target without a battery, leaves the relay on without a session |
| SessionRuns.ManualOnTracksOrCuts | api/services/charge_session_service.go:517-559 | After an external power-on the relay is on without a session in progress exactly when the plug was idle and its vehicle is below target with no battery configured |
| SessionRuns.AcceptedTargetIsAhead | api/services/session_lifecycle_service.go:744-759 | A target accepted before the old one was reached is not reached at the same reading, so it never completes the charge by itself |
| SessionSteps.AutoStopsExactlyAtTarget | api/services/session_monitoring_service.go:355-405 | A measured session without a hold stays active exactly while the highest of start, stored level and ticking reading is below its target; at it, a 100 percent target is conditioned, any other completed at the target's percent and switched off |
| SessionSteps.HoldsExactlyAtHoldPoint | api/services/session_monitoring_service.go:370-379 | A session with a hold is held exactly when its level, within the target, has reached the hold percent of the battery and the power-off is confirmed; the power-off is sent as soon as it has |
| SessionSteps.UnmeasuredIsLeft | api/services/session_monitoring_service.go:327-352 | Without meter or battery nothing happens; a missing baseline is adopted from the meter |
| SessionSteps.EndsAtFirstReadingAtTarget | api/services/session_monitoring_service.go:293-316 | Over any stream of readings the session ends at the first that ticks and shows the target or more, and charges on until then |
| SessionSteps.ConditioningEndsExactly | api/services/session_monitoring_service.go:261-291 | A conditioning session is completed at its target exactly when its plug draws less than a tenth of the charger's known output |
| SessionSteps.IdleEndsExactly | api/services/session_monitoring_service.go:451-475 | An active or conditioning session is completed at a full battery exactly when it is ten minutes old and has idled below 30 W for 15 minutes |
| SessionSteps.StopsExactly | api/services/session_lifecycle_service.go:267-280 | The newest matching session: pending is cancelled, any other completed at its stop percent, and its plug switched off; without one nothing happens |
| SessionSteps.SwitchedOffExactly | api/services/charge_session_service.go:500-514 | A switch-off from outside does the same to the plug's session unless it is holding |
| SessionSteps.OfflineCancelsExactly | api/mqtt/lwt.go:167-187 | An offline plug's session in progress is cancelled at the furthest percent known, and switched off |
| SessionSteps.DisconnectCancelsExactly | api/services/charge_session_service.go:426-445 | Cancelled exactly when active or conditioning with a stored level above two watt-hours |
| SessionSteps.DeletesExactly | api/services/session_lifecycle_service.go:770-805 | A session can be deleted exactly when it is over or holding |
| SessionSteps.StartsExactly | api/services/session_lifecycle_service.go:86-153 | A start makes a session exactly for a vehicle with a battery on a plug without one: its levels, baseline, hold, status and relay by how the power-on went |
| SessionSteps.ActivatesExactly | api/services/session_lifecycle_service.go:156-203 | A pending session, and no other, is activated, with the meter as it then stands where known |
| SessionSteps.ResumesExactly | api/services/session_monitoring_service.go:651-672 | A holding session charges again exactly when a due resume is confirmed; power-on is sent as soon as it is due |
| SessionSteps.SwitchedOnExactly | api/services/charge_session_service.go:517-559 | A switch-on from outside resumes a hold, leaves another session alone, and on an idle plug starts a session to the vehicle's target or cuts the power when there is nothing to charge |
| SessionSteps.ReconcilesExactly | api/mqtt/lwt.go:124-141 | A plug coming online is switched off exactly without a session in progress |
| SessionSteps.ChangesTargetExactly | api/services/session_lifecycle_service.go:721-767 | A target is accepted exactly for an active session, within 0 to 100 and ahead of the percent shown, or of the start while nothing is measured |
| SessionSteps.WallIsMeterRise | api/services/session_lifecycle_service.go:510-532 | With a gain that fits the battery: wall energy is the meter's rise, battery energy that times the efficiency, carbon the wall energy at the average intensity, end percent the level reached |
| SessionSteps.FullBatteryCapsFigures | api/services/session_lifecycle_service.go:528-531 | A gain beyond the battery ends at 100 percent with the room there was |
| SessionSteps.FiguresFromPercent | api/services/session_lifecycle_service.go:496-541 | Without a gain on the meter the figures follow the percent the stop assumes |
| SessionSteps.CostByWindow | api/services/session_lifecycle_service.go:384-405 | The cost is each window's energy at its own rate and the rest at the base rate; nothing without tariff or baseline |
| SessionSteps.StopPercentFromMeter | api/services/session_lifecycle_service.go:544-554 | A stop with meter and baseline records the percent of the level the meter shows, capped at full |
| SessionSteps.StopPercentWithoutMeter | api/services/session_lifecycle_service.go:556-560 | Otherwise it records what the session was showing: the live percent while power is drawn, else the persisted one, else the target |
| SessionSteps.CancelsAtFurthest | api/services/session_lifecycle_service.go:445-471 | A cancelled session records the highest of the persisted and the live percent exactly when that is past its start |
| Ledger.FinishKeepsLedger | api/repository/vehicle.go:132-149 | Completing a session keeps the vehicle's stored totals equal to the sums over its completed sessions, and its extremes bounding them |
| Ledger.RemoveKeepsLedger | api/repository/vehicle.go:154-167 | So does deleting one: the floor at zero does not bite |
| Ledger.LedgerLostExactly | api/database/migrations/015_add_plug_cascade.up.sql:19-21 | A step unbalances the vehicles' totals exactly when it deletes a plug with a completed session; deleting a vehicle takes its totals along |
| Ledger.LedgerAlwaysBalances | api/services/session_lifecycle_service.go:304-348 | After any run without such a deletion, count, energy, CO2 and cost of every vehicle equal the sums over its remaining completed sessions, and the stored extremes bound each session's energy |
| Ledger.ExtremesAreAttained | api/repository/vehicle.go:132-149 | On every run that deletes nothing the stored extremes are the least and greatest energy of a completed session |
| SessionService.Repository.FindInProgress | api/repository/charge_session.go:79-83 | The newest in-progress row that matches, searched from the end |
| SessionService.Repository.UpdateStatus | api/repository/charge_session.go:217-222 | Unguarded: rewrites the status of the row with that id, whatever it was, and nothing else |
| SessionService.Repository.ActivatePending | api/repository/charge_session.go:224-240 | Changes the row exactly when it is pending, and reports that |
| SessionService.Repository.CancelPending | api/repository/charge_session.go:289-305 | Changes the row exactly when it is pending, and reports that |
| SessionService.Repository.ResumeHolding | api/repository/charge_session.go:242-260 | Changes the row exactly when it is holding, clearing the hold percent, and reports that |
| SessionService.Repository.UpdateTarget | api/repository/charge_session.go:329-350 | Changes target percent and energy exactly when the row is active, and reports that |
| SessionService.Service.StartSession | api/services/session_lifecycle_service.go:86-153 | Errors in order, else one fresh row that ends active, cancelled or pending as the power-on went, with a missing baseline filled in and an existing one kept |
| SessionService.Service.ActivatePending | api/services/session_lifecycle_service.go:156-203 | Only a pending session is activated, with its baseline refreshed when the meter is known |
| SessionService.Service.CancelPendingIfTimedOut | api/services/session_lifecycle_service.go:222-263 | One timeout step per listed session; answers true exactly when some session was overdue |
| SessionService.ExpiredSoFar | api/services/session_lifecycle_service.go:231-262 | After the check exactly the overdue pending sessions are cancelled and every other row is untouched |
| SessionService.RelaysAfterExpiry | api/services/session_lifecycle_service.go:231-262 | A relay is on after the check exactly when it was on and none of the overdue sessions is on its plug |
| SessionService.Service.StopSession | api/services/session_lifecycle_service.go:267-280 | The newest matching session is cancelled when pending and completed otherwise, power off, totals incremented |
| SessionService.Service.Complete | api/services/session_lifecycle_service.go:304-348 | Freezes the session's figures, cuts power and adds exactly those figures to the vehicle's totals |
| SessionService.Service.AutoStopReaching | api/services/session_monitoring_service.go:320-408 | Baseline backfill, persisted level, then hold on confirmation, conditioning exactly at a full target, or completion |
| SessionService.Service.StopConditioned | api/services/session_monitoring_service.go:261-291 | A conditioning session completes exactly when its power has tapered below a tenth of the charger's output |
| SessionService.Service.StopIdleSession | api/services/session_monitoring_service.go:451-475 | An old enough session whose plug has idled beyond the timeout completes at a full battery |
| SessionService.Service.ResumeIfDue | api/services/session_monitoring_service.go:539-672 | The resume decision on the session's own hold data, power on, and active again exactly on confirmation |
| SessionService.Service.ManualPowerOff | api/services/charge_session_service.go:500-514 | An external power-off stops the plug's session unless it is holding |
| SessionService.Service.ManualPowerOn | api/services/charge_session_service.go:517-559 | An external power-on resumes a hold, leaves another session alone, cuts power without a vehicle to charge, and otherwise starts a session to the vehicle's target |
| SessionService.Service.CancelSession | api/services/session_lifecycle_service.go:407-468 | Cancelled at the furthest percent known when past the start, and power off |
| SessionService.Service.PlugOffline | api/mqtt/lwt.go:167-187 | A confirmed offline plug's session in progress is cancelled, whatever its status |
| SessionService.Service.CancelIfDisconnected | api/services/charge_session_service.go:426-445 | Only an active or conditioning session that really charged is cancelled |
| SessionService.Service.ChangeTarget | api/services/session_lifecycle_service.go:721-767 | The checks in order, each with its error; the target changes exactly when none applies |
| SessionService.Service.DeleteSession | api/services/session_lifecycle_service.go:770-805 | Refused exactly when missing, active, pending or conditioning; otherwise the row goes and its figures are subtracted |
| SessionService.Service.DeleteVehicle | api/services/vehicle_service.go:219-228 | The vehicle's sessions and totals go, whatever their status, and no relay is switched |
| SessionService.Service.DeletePlug | api/services/mqtt_provisioning_service.go:171-187 | The plug's sessions go, whatever their status; totals and relays stay |
| SessionService.Service.ReconcileRelay | api/mqtt/lwt.go:124-141 | A plug coming online is switched off exactly when it has no session in progress |
| PowerConfirm.Dispatcher.RegisterPowerConfirm | api/mqtt/dispatcher.go:77-83 | A fresh channel, displacing one registered before for the plug |
| PowerConfirm.Dispatcher.RemovePowerConfirm | api/mqtt/dispatcher.go:86-90 | Removes whatever channel is registered for the plug, as every returning call does |
| PowerConfirm.Dispatcher.DispatchStatPower | api/mqtt/dispatcher.go:207-257 | Caches the state, takes the plug's channel, and runs the manual handler exactly for a live, unconfirmed change of a known state |
| PowerConfirm.Line.SetPowerAndWait | api/mqtt/publisher.go:99-128 | The call performed among any actions of others: it answers true exactly when published and some wake, before any by the timer or the context, finds a report of the commanded state in hand; that was dispatched since it began; and it leaves nothing registered for the plug |
| PowerConfirm.ReceiveEndsWaitExactly | api/mqtt/publisher.go:113-124 | After any run, a call that takes a value is confirmed by it exactly when it reports the commanded state; after the opposite it waits on, on a fresh channel that is now the registered one |
| PowerConfirm.ReportReachesCall | api/mqtt/dispatcher.go:228-241 | Dispatch, send and receive hand a report to the call registered for its plug |
| PowerConfirm.AwaitedCommandConfirms | api/mqtt/publisher.go:99-128 | After any run, a call whose plug answers with the commanded state has published its command and is confirmed by that report |
| PowerConfirm.RunsAreGood | api/mqtt/publisher.go:99-128 | Under any interleaving, every value in hand or delivered is a report taken by that channel after its registration, and no two calls share a channel |
| PowerConfirm.DispatchNeverBlocks | api/mqtt/dispatcher.go:228-241 | A dispatcher that took a channel finds it empty and never used, so the send cannot block and no channel gets a second value |
| PowerConfirm.ConfirmedByOwnReport | api/mqtt/publisher.go:89-98 | A call answers true only after a report of the commanded state for its plug dispatched since it began, and no report confirms two calls |
| PowerConfirm.NeverBoth | api/mqtt/dispatcher.go:228-257 | On every run a report is taken by a call or handed to the manual handler, never both, and a retained one never reaches the handler |
| PowerConfirm.StatesFollowReports | api/mqtt/dispatcher.go:207-227 | The known state of a plug is the last one reported or in telemetry; commands leave it alone |
| PowerConfirm.RepeatedReportIsNotManual | api/mqtt/dispatcher.go:243-257 | A report said again never reaches the manual handler |
| PowerConfirm.FireAndForgetLooksManual | api/mqtt/publisher.go:60-76 | After any run, a live report of a plain power command reaches the manual handler exactly when no call is registered for the plug and the report changes the known state |
| PowerConfirm.AppCommandReachesHandler | api/mqtt/publisher.go:60-76 | A run of three actions in which the report of a plain command reaches the manual handler |
| PowerConfirm.AwaitedNeverLooksManual | api/mqtt/publisher.go:99-105 | The next report after an awaited command goes to its channel and not to the handler |
| Lwt.Manager.HandleLwt | api/mqtt/lwt.go:84-164 | Online stops the registered timer if it still counts down, forgets it and marks the plug online; Offline starts a timer unless one is registered; other payloads change nothing |
| Lwt.Manager.ConfirmOffline | api/mqtt/lwt.go:167-192 | The callback of an expired timer, registered or not: whatever timer the plug has is forgotten and the plug marked offline; only a live message goes on to the cooldown |
| Lwt.Manager.CheckCooldown | api/mqtt/lwt.go:194-201 | A callback passes exactly for a known plug whose last noted notice is a cooldown old |
| Lwt.Manager.SendNotice | api/mqtt/lwt.go:203-209 | A callback that passed notes the time and sends, whatever was noted since its test |
| Lwt.RegisteredExactlyInSilence | api/mqtt/lwt.go:151-164 | On every run a timer is registered exactly while an Offline stands that no Online and no callback has followed |
| Lwt.RegisteredSinceStart | api/mqtt/lwt.go:151-164 | A registered timer dates from an Offline that nothing has followed that ends a silence |
| Lwt.ConfirmedAfterDebounce | api/mqtt/lwt.go:19-21 | A callback runs only after its timer expired, a full debounce period after its Offline |
| Lwt.ConfirmedDespiteOnline | api/mqtt/lwt.go:95-101 | For every confirmation: an Online came since its Offline exactly when one was handled while its callback was in flight or its timer was no longer the registered one |
| Lwt.SilenceBrokenExactlyByRaces | api/mqtt/lwt.go:166-167 | On every run: some confirmation of a plug has an Online since its Offline exactly when some Online was handled while a callback of the plug was in flight that ran later |
| Lwt.OvertakenCallbackConfirms | api/mqtt/lwt.go:95-106 | A run of four events in which an overtaken callback marks a plug offline that is back |
| Lwt.StrayTimerConfirms | api/mqtt/lwt.go:167-172 | A run in which a late callback makes the manager forget a newer timer, which then confirms the plug offline after an Online that never found its callback in flight |
| Lwt.NoticesAreSpaced | api/mqtt/lwt.go:23-25 | On every run two notices for one plug are at least 15 minutes apart, unless the cooldown of the later was tested before the earlier was sent |
| Lwt.NoticesAreOfLiveOfflines | api/mqtt/lwt.go:189-209 | On every run every notice is of a live Offline of its plug whose callback has run, and no callback sends two |
| Lwt.LiveCallbacksGoOn | api/mqtt/lwt.go:189-194 | A callback goes on to its cooldown exactly if its Offline was live |
| Lwt.TwoNoticesAtOnce | api/mqtt/lwt.go:194-209 | A run in which two callbacks of one plug in flight together both notify at one instant |
| Breaker.CircuitBreaker.ShouldBlock | api/tasmota/circuitbreaker.go:115-145 | The gate's answer and the promotion to a half-open probe that re-arms the clock |
| Breaker.CircuitBreaker.RecordFailure | api/tasmota/circuitbreaker.go:159-174 | A failed probe reopens; otherwise the counter grows and opens the circuit at the threshold |
| Breaker.CircuitBreaker.RecordSuccess | api/tasmota/circuitbreaker.go:149-154 | A success closes the circuit and clears the counter |
| Breaker.ClosedExactlyBelowThreshold | api/tasmota/circuitbreaker.go:54-63 | On every run the circuit is closed exactly while fewer failures than the threshold have come since the last success, and then its counter is their number |
| Breaker.RemembersLatestRearm | api/tasmota/circuitbreaker.go:65-70 | While not closed, the stored time is the latest restart of the reset window |
| Breaker.AdmitsExactly | api/tasmota/circuitbreaker.go:110-145 | A request passes exactly when every restart of the reset window since the last success is a full timeout back, so probes are at least a timeout apart and the first comes at least a timeout after opening |

## Left out

- HTTP handlers, authentication, tokens, configuration, logging, push delivery, MQTT connections and broker provisioning: plumbing.
- SQL text and column types: the tables are sequences and maps, with the guards of the WHERE clauses. Failed database writes are not modelled.
- Floating-point rounding, daylight-saving changes, leap seconds and int64 overflow of durations: reals, fixed zone offset, unbounded integers.
- Interleavings inside one session step, in particular inside the unlocked waits for power confirmation: an unguarded write that lands after a concurrent stop can bring a session back, so nothing is claimed for them.
- Whether a waiter re-registering after an opposite report catches the next report: the code does not guarantee it.
- `StopWithPercent` by session id and `CancelPending` by session id: no route or worker calls them.
- Writes of the vehicles' current and target percent after a stop or a cancellation: the candidate vehicle is a parameter.
- `CancelAll`, which stops the debounce timers at shutdown; the deletion of users, which no route offers.
- Plan previews formatted as HH:MM: the plans hold instants.
- `EstimateCarbonAwareStart`, `GetCurrent`, the SOC snapshot table, history, charts, seed data: the same shapes as what is modelled, or pass-throughs.
- Energy.StoredStaysBelowPeak: the energy baseline is fixed; it changes only while a session is pending or has none, when neither writer runs.
- SchedulerRuns.GuardForcesAttempt: assumes the plug stays idle, with the same schedule and vehicle, from the first sweep in the window to the last.
- ForecastCache.ForecastClient.GetForecast: one call with no other between its two locked parts; what overlapping calls do is in the actions of the concurrent client.
- PowerConfirm.Line.SetPowerAndWait: the order in which values and timers wake the call is a parameter, as the choice of `select` is.
- Breaker.AdmitsExactly: the clock readings never go back.
