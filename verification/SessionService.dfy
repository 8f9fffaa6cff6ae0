/** The session services over the session table, written as they run: guarded and unguarded
    row writes (api/repository/charge_session.go, api/repository/vehicle.go), and the calls
    and checks of api/services built from them. */
module SessionService {
  import opened Wrappers
  import opened Clock
  import opened Models
  import Energy
  import Cost
  import Readings
  import Forecast
  import HoldResume
  import opened Sessions
  import opened SessionRuns

  // ---------------------------------------------------------------- the repository

  /** What `UPDATE … WHERE id = ?` leaves when it turns the row into `row`. */
  ghost function Updated(rows: seq<Session>, id: SessionId, row: Session): seq<Session> {
    var i := Index(rows, id);
    if i < |rows| then rows[i := row] else rows
  }

  class Repository {
    var rows: seq<Session>
    var used: set<SessionId>
    var lifetimes: map<VehicleId, Lifetime>

    constructor ()
      ensures rows == [] && used == {} && lifetimes == map[]
    {
      rows, used, lifetimes := [], {}, map[];
    }

    method Find(id: SessionId) returns (i: nat)
      ensures i == Index(rows, id)
    {
      i := 0;
      while i < |rows| && rows[i].id != id
        invariant i <= |rows|
        invariant i + Index(rows[i..], id) == Index(rows, id)
      {
        assert rows[i..][1..] == rows[i + 1..];
        i := i + 1;
      }
    }

    /** `ORDER BY created_at DESC LIMIT 1`. */
    method FindInProgress(which: Which) returns (i: nat)
      ensures i == Newest(rows, which)
    {
      var n := |rows|;
      while n > 0
        invariant 0 <= n <= |rows|
        invariant forall j :: n <= j < |rows| ==> !Matches(which, rows[j])
      {
        if Matches(which, rows[n - 1]) {
          return n - 1;
        }
        n := n - 1;
      }
      return |rows|;
    }

    /** The row gets a fresh id. */
    method Create(row: Session)
      modifies this`rows, this`used
      ensures rows == old(rows) + [row] && used == old(used) + {row.id}
    {
      rows := rows + [row];
      used := used + {row.id};
    }

    method UpdateStatus(id: SessionId, status: Status)
      modifies this`rows
      ensures Index(old(rows), id) == |old(rows)| ==> rows == old(rows)
      ensures Index(old(rows), id) < |old(rows)| ==>
                rows == Updated(old(rows), id, old(rows)[Index(old(rows), id)].(status := status))
    {
      var i := Find(id);
      if i < |rows| {
        rows := rows[i := rows[i].(status := status)];
      }
    }

    /** Guarded: only a pending session is activated. */
    method ActivatePending(id: SessionId, startedAt: Instant) returns (ok: bool)
      modifies this`rows
      ensures var i := Index(old(rows), id);
              && (ok <==> i < |old(rows)| && old(rows)[i].status.Pending?)
              && rows == if ok then old(rows)[i := old(rows)[i].(status := Active, startedAt := Some(startedAt))]
                 else old(rows)
    {
      var i := Find(id);
      ok := i < |rows| && rows[i].status.Pending?;
      if ok {
        rows := rows[i := rows[i].(status := Active, startedAt := Some(startedAt))];
      }
    }

    /** Guarded: only a pending session is cancelled this way. */
    method CancelPending(id: SessionId) returns (ok: bool)
      modifies this`rows
      ensures var i := Index(old(rows), id);
              && (ok <==> i < |old(rows)| && old(rows)[i].status.Pending?)
              && rows == if ok then old(rows)[i := old(rows)[i].(status := Cancelled)] else old(rows)
    {
      var i := Find(id);
      ok := i < |rows| && rows[i].status.Pending?;
      if ok {
        rows := rows[i := rows[i].(status := Cancelled)];
      }
    }

    /** Guarded: only a holding session resumes. */
    method ResumeHolding(id: SessionId) returns (ok: bool)
      modifies this`rows
      ensures var i := Index(old(rows), id);
              && (ok <==> i < |old(rows)| && old(rows)[i].status.Holding?)
              && rows == if ok then old(rows)[i := ResumedRow(old(rows)[i])] else old(rows)
    {
      var i := Find(id);
      ok := i < |rows| && rows[i].status.Holding?;
      if ok {
        rows := rows[i := rows[i].(status := Active, holdPercent := None)];
      }
    }

    /** Guarded: only an active session changes its target. */
    method UpdateTarget(id: SessionId, target: real, joinedKwh: real) returns (ok: bool)
      modifies this`rows
      ensures var i := Index(old(rows), id);
              && (ok <==> i < |old(rows)| && old(rows)[i].status.Active?)
              && rows == if ok then old(rows)[i := old(rows)[i].(targetPercent := target,
                                                                 targetKwh := joinedKwh * target / 100.0)]
                         else old(rows)
    {
      var i := Find(id);
      ok := i < |rows| && rows[i].status.Active?;
      if ok {
        rows := rows[i := rows[i].(targetPercent := target, targetKwh := joinedKwh * target / 100.0)];
      }
    }

    method UpdateStartTotalKwh(id: SessionId, total: real)
      modifies this`rows
      ensures Index(old(rows), id) == |old(rows)| ==> rows == old(rows)
      ensures Index(old(rows), id) < |old(rows)| ==>
                rows == Updated(old(rows), id, old(rows)[Index(old(rows), id)].(startTotalKwh := Some(total)))
    {
      var i := Find(id);
      if i < |rows| {
        rows := rows[i := rows[i].(startTotalKwh := Some(total))];
      }
    }

    method UpdateLastBlendedKwh(id: SessionId, level: real)
      modifies this`rows
      ensures Index(old(rows), id) == |old(rows)| ==> rows == old(rows)
      ensures Index(old(rows), id) < |old(rows)| ==>
                rows == Updated(old(rows), id, old(rows)[Index(old(rows), id)].(lastBlendedKwh := Some(level)))
    {
      var i := Find(id);
      if i < |rows| {
        rows := rows[i := rows[i].(lastBlendedKwh := Some(level))];
      }
    }

    method UpdateCancelData(id: SessionId, endPercent: Option<real>)
      modifies this`rows
      ensures Index(old(rows), id) == |old(rows)| ==> rows == old(rows)
      ensures Index(old(rows), id) < |old(rows)| ==>
                rows == Updated(old(rows), id, CancelledRow(old(rows)[Index(old(rows), id)], endPercent))
    {
      var i := Find(id);
      if i < |rows| {
        rows := rows[i := rows[i].(status := Cancelled, endPercent := endPercent)];
      }
    }

    method UpdateEndWithStats(id: SessionId, endPercent: real, stats: Stats)
      modifies this`rows
      ensures Index(old(rows), id) == |old(rows)| ==> rows == old(rows)
      ensures Index(old(rows), id) < |old(rows)| ==>
                rows == Updated(old(rows), id,
                          old(rows)[Index(old(rows), id)].(status := Completed, endPercent := Some(endPercent),
                                                           stats := Some(stats)))
    {
      var i := Find(id);
      if i < |rows| {
        rows := rows[i := rows[i].(status := Completed, endPercent := Some(endPercent), stats := Some(stats))];
      }
    }

    method Delete(id: SessionId)
      modifies this`rows
      ensures var i := Index(old(rows), id); rows == if i < |old(rows)| then Without(old(rows), i) else old(rows)
    {
      var i := Find(id);
      if i < |rows| {
        rows := rows[..i] + rows[i + 1..];
      }
    }

    /** Deleting a vehicle's row deletes its totals and, by the foreign keys, its sessions. */
    method DeleteVehicle(v: VehicleId)
      modifies this`rows, this`lifetimes
      ensures rows == Unpurged(old(rows), PurgeVehicle(v)) && lifetimes == old(lifetimes) - {v}
    {
      rows, lifetimes := Unpurged(rows, PurgeVehicle(v)), lifetimes - {v};
    }

    /** Deleting a plug's row deletes its sessions by the foreign keys. */
    method DeletePlug(p: PlugId)
      modifies this`rows
      ensures rows == Unpurged(old(rows), PurgePlug(p))
    {
      rows := Unpurged(rows, PurgePlug(p));
    }

    method IncrementLifetimeStats(v: VehicleId, s: Stats)
      modifies this`lifetimes
      ensures lifetimes == old(lifetimes)[v := Incremented(LifetimeOf(old(lifetimes), v), s)]
    {
      var t := LifetimeOf(lifetimes, v);
      lifetimes := lifetimes[v := Incremented(t, s)];
    }

    method DecrementLifetimeStats(v: VehicleId, s: Stats)
      modifies this`lifetimes
      ensures lifetimes == old(lifetimes)[v := Decremented(LifetimeOf(old(lifetimes), v), s)]
    {
      var t := LifetimeOf(lifetimes, v);
      lifetimes := lifetimes[v := Decremented(t, s)];
    }
  }

  // ---------------------------------------------------------------- the services

  class Service {
    const repo: Repository
    var relays: map<PlugId, bool>

    ghost function View(): World
      reads this, repo
    {
      World(repo.rows, repo.used, repo.lifetimes, relays)
    }

    constructor ()
      ensures View() == EMPTY_WORLD && fresh(repo)
    {
      repo := new Repository();
      relays := map[];
    }

    method SetPower(plug: PlugId, on: bool)
      modifies this`relays
      ensures relays == old(relays)[plug := on]
    {
      relays := relays[plug := on];
    }

    /** `startSession`: the pending row is created first, then the power is awaited. */
    method StartSession(c: StartCall) returns (err: Option<StartError>)
      requires RowsOk(View()) && c.id !in repo.used
      modifies this, repo
      ensures View() == Apply(old(View()), Start(c))
      ensures err == StartErrorOf(old(repo.rows), c)
    {
      if c.found.None? {
        return Some(VehicleNotFound);
      }
      if c.found.value.capacityKwh <= 0.0 {
        return Some(VehicleHasNoBattery);
      }
      var existing := repo.FindInProgress(OnPlug(c.plug));
      if existing < |repo.rows| {
        return Some(ActiveSessionExists);
      }
      var row := NewRow(c);
      ghost var before := repo.rows;
      repo.Create(row);
      AwaitPower(c, row, before);
      return None;
    }

    /** The rest of a start: the row just created is activated, cancelled, or left pending. */
    method AwaitPower(c: StartCall, row: Session, ghost before: seq<Session>)
      requires row.id == c.id && row.plug == c.plug && row.status.Pending?
      requires repo.rows == before + [row] && forall i :: 0 <= i < |before| ==> before[i].id != c.id
      modifies this`relays, repo`rows
      ensures repo.rows == before + [RowAfterPower(row, c)]
      ensures relays == if c.power.NoController? then old(relays) else old(relays)[c.plug := c.power.PowerConfirmed?]
    {
      LastIndex(before, row);
      match c.power {
        case PowerConfirmed =>
          SetPower(c.plug, true);
          if row.startTotalKwh.None? && c.after.Some? {
            repo.UpdateStartTotalKwh(c.id, c.after.value.total);
            assert repo.rows == before + [row.(startTotalKwh := Some(c.after.value.total))];
            LastIndex(before, row.(startTotalKwh := Some(c.after.value.total)));
          }
          var ok := repo.ActivatePending(c.id, c.now);
        case PowerUnconfirmed =>
          SetPower(c.plug, true);
          var ok := repo.CancelPending(c.id);
          SetPower(c.plug, false);
        case NoController =>
      }
    }

    /** `ActivatePending`, for the worker that sees a pending session draw power. */
    method ActivatePending(id: SessionId, energy: Option<EnergyData>, now: Instant)
      requires RowsOk(View())
      modifies repo`rows
      ensures View() == Apply(old(View()), Activate(id, energy, now))
    {
      hide RowsOk, Unpurged, Incremented, Decremented, Newest;
      var i := repo.Find(id);
      if i == |repo.rows| || !repo.rows[i].status.Pending? {
        return;
      }
      if energy.Some? {
        repo.UpdateStartTotalKwh(id, energy.value.total);
        SameIndex(old(repo.rows), i, repo.rows[i]);
      }
      var ok := repo.ActivatePending(id, now);
    }

    /** `CancelPendingIfTimedOut`: the check on every session listed. */
    method CancelPendingIfTimedOut(now: Instant, timeout: int) returns (cancelledAny: bool)
      requires RowsOk(View())
      modifies this`relays, repo`rows
      ensures View() == Expire(old(View()), old(repo.rows), now, timeout)
      ensures cancelledAny <==> exists j :: 0 <= j < |old(repo.rows)| && Overdue(old(repo.rows)[j], now, timeout)
    {
      hide Apply, RowsOk, Expired;
      var sessions := repo.rows;
      cancelledAny := false;
      for k := 0 to |sessions|
        invariant View() == Expire(old(View()), sessions[..k], now, timeout)
        invariant cancelledAny <==> exists j :: 0 <= j < k && Overdue(sessions[j], now, timeout)
      {
        ExpiredSoFar(old(View()), k, now, timeout);
        assert repo.rows[k] == sessions[k];
        ExpireOne(old(View()), sessions, k, now, timeout);
        var cancelled := CancelIfTimedOut(sessions[k], now, timeout);
        cancelledAny := cancelledAny || cancelled;
      }
      assert sessions[..|sessions|] == sessions;
    }

    /** The check on one session. */
    method CancelIfTimedOut(session: Session, now: Instant, timeout: int) returns (cancelled: bool)
      requires RowsOk(View()) && session in repo.rows
      modifies this`relays, repo`rows
      ensures View() == Apply(old(View()), Timeout(session.id, now, timeout))
      ensures cancelled <==> Overdue(session, now, timeout)
    {
      RowIsAtIndex(repo.rows, session);
      if !session.status.Pending? || now - session.createdAt <= timeout {
        return false;
      }
      cancelled := repo.CancelPending(session.id);
      if cancelled {
        SetPower(session.plug, false);
      }
    }

    /** `stopWithPercent`, for a session as it was read: freezes its figures, cuts power and
        adds the figures to the vehicle's totals. */
    method Complete(session: Session, c: Closing, endPercent: real)
      requires RowsOk(View())
      requires var i := Index(repo.rows, session.id);
               i < |repo.rows| && repo.rows[i] == session.(lastBlendedKwh := repo.rows[i].lastBlendedKwh)
      modifies this`relays, repo`rows, repo`lifetimes
      ensures var i := Index(old(repo.rows), session.id);
              View() == Perform(old(View()), Decision(Finish(i, Finished(old(repo.rows)[i], c, endPercent)),
                                                      Off(session)))
    {
      var end, stats := Figures(session.startKwh, session.startTotalKwh, c, endPercent);
      repo.UpdateEndWithStats(session.id, end.percent, stats);
      SetPower(session.plug, false);
      repo.IncrementLifetimeStats(session.vehicle, stats);
    }

    /** The end of a session and the figures frozen into it. */
    method Figures(startKwh: real, startTotalKwh: Option<real>, c: Closing, endPercent: real)
      returns (end: End, stats: Stats)
      ensures end == EndData(startKwh, startTotalKwh, c, endPercent)
      ensures stats == StatsAt(startKwh, startTotalKwh, c, end.kwh)
    {
      end := EndData(startKwh, startTotalKwh, c, endPercent);
      var battery := end.kwh - startKwh;
      if battery < 0.0 {
        battery := 0.0;
      }
      var wall := battery / EfficiencyOf(c.vehicle);
      var co2 := 0.0;
      if wall != 0.0 && c.avgCarbon.Some? {
        co2 := wall * c.avgCarbon.value;
      }
      var cost := ComputeCost(startTotalKwh, c);
      stats := Stats(battery, wall, co2, cost);
    }

    method ComputeCost(startTotalKwh: Option<real>, c: Closing) returns (pence: real)
      ensures pence == CostPence(startTotalKwh, c)
    {
      if c.tariff.None? || startTotalKwh.None? {
        return 0.0;
      }
      var bill := Cost.CalculateSessionCost(startTotalKwh.value, c.readings, c.tariff.value, c.zone);
      return bill.totalPence;
    }

    /** `Stop`: a pending session is cancelled, any other completed. */
    method StopSession(which: Which, c: Closing) returns (found: bool)
      requires RowsOk(View())
      modifies this`relays, repo`rows, repo`lifetimes
      ensures View() == Apply(old(View()), Stop(which, c))
      ensures found <==> exists s :: s in old(repo.rows) && Matches(which, s)
    {
      hide Unpurged, StopPercent, Finished, CancelledRow, Incremented, Decremented;
      var i := repo.FindInProgress(which);
      if i == |repo.rows| {
        return false;
      }
      var session := repo.rows[i];
      RowIsAtIndex(repo.rows, session);
      found := true;
      if session.status.Pending? {
        repo.UpdateCancelData(session.id, None);
        SetPower(session.plug, false);
      } else {
        Complete(session, c, StopPercent(session, c.energy, c.vehicle));
      }
    }

    /** `autoStopReachingSession`. */
    method AutoStopReaching(id: SessionId, c: Closing, confirmed: bool)
      requires RowsOk(View())
      modifies this`relays, repo`rows, repo`lifetimes
      ensures View() == Apply(old(View()), AutoStop(id, c, confirmed))
    {
      var i := repo.Find(id);
      if i == |repo.rows| || !repo.rows[i].status.Active? || c.energy.None? || c.energy.value.total == 0.0 {
        return;
      }
      var session := repo.rows[i];
      if session.startTotalKwh.None? {
        if c.energy.value.total > 0.0 {
          repo.UpdateStartTotalKwh(id, c.energy.value.total);
        }
        return;
      }
      if c.vehicle.None? || c.vehicle.value.capacityKwh <= 0.0 {
        return;
      }
      Progress(session, c, confirmed);
    }

    /** Its second half: the level is persisted, then acted on. */
    method Progress(session: Session, c: Closing, confirmed: bool)
      requires RowsOk(View()) && session in repo.rows && HasBattery(c.vehicle)
      modifies this`relays, repo`rows, repo`lifetimes
      ensures View() == Perform(old(View()), DecideProgress(Index(old(repo.rows), session.id), session, c, confirmed))
    {
      hide Energy.CalculateProgress, Unpurged, Incremented, Decremented, Newest, EndData, StatsAt;
      RowIsAtIndex(repo.rows, session);
      ghost var i := Index(repo.rows, session.id);
      var progress := Energy.CalculateProgress(session.EnergyView(), c.energy, c.vehicle);
      repo.UpdateLastBlendedKwh(session.id, progress.lastBlendedKwh);
      SameIndex(old(repo.rows), i, repo.rows[i]);
      LevelKeepsRows(old(View()), i, progress.lastBlendedKwh);
      var leveled := session.(lastBlendedKwh := Some(progress.lastBlendedKwh));
      OverwritesLevel(old(View()), i, leveled, DecideAt(i, leveled, progress, c, confirmed));
      HoldConditionOrComplete(leveled, progress, c, confirmed);
    }

    method HoldConditionOrComplete(session: Session, progress: Energy.Progress, c: Closing, confirmed: bool)
      requires RowsOk(View()) && session in repo.rows && HasBattery(c.vehicle)
      modifies this`relays, repo`rows, repo`lifetimes
      ensures View() == Perform(old(View()), DecideAt(Index(old(repo.rows), session.id), session, progress, c,
                                                      confirmed))
    {
      RowIsAtIndex(repo.rows, session);
      if session.holdPercent.Some? {
        var holdKwh := c.vehicle.value.capacityKwh * session.holdPercent.value / 100.0;
        if progress.blendedKwh >= holdKwh {
          SetPower(session.plug, false);
          if confirmed {
            repo.UpdateStatus(session.id, Holding);
          }
        }
        return;
      }
      if progress.blendedKwh >= session.targetKwh {
        if session.targetPercent == MAX_PERCENT {
          repo.UpdateStatus(session.id, Conditioning);
        } else {
          Complete(session, c, progress.currentPercent);
        }
      }
    }

    /** `stopConditioningSession`. */
    method StopConditioned(id: SessionId, c: Closing)
      requires RowsOk(View())
      modifies this`relays, repo`rows, repo`lifetimes
      ensures View() == Apply(old(View()), StopConditioning(id, c))
    {
      var i := repo.Find(id);
      if i == |repo.rows| || !repo.rows[i].status.Conditioning? || c.vehicle.None?
        || c.vehicle.value.chargerOutputW <= 0.0 || c.energy.None? {
        return;
      }
      var threshold := c.vehicle.value.chargerOutputW * CONDITIONING_STOP_THRESHOLD_FRACTION;
      if c.energy.value.power < threshold {
        Complete(repo.rows[i], c, repo.rows[i].targetPercent);
      }
    }

    /** `stopIdleSession`. */
    method StopIdleSession(id: SessionId, readings: seq<Readings.PowerReading>, now: Instant, later: Instant,
                           c: Closing)
      requires RowsOk(View())
      modifies this`relays, repo`rows, repo`lifetimes
      ensures View() == Apply(old(View()), StopIdle(id, readings, now, later, c))
    {
      var i := repo.Find(id);
      if i == |repo.rows| || !(repo.rows[i].status.Active? || repo.rows[i].status.Conditioning?) {
        return;
      }
      var session := repo.rows[i];
      if session.startedAt.None? || now - session.startedAt.value < Readings.MIN_SESSION_DURATION_BEFORE_IDLE_CHECK
        || readings == [] {
        return;
      }
      var since, idle := Readings.IdleStreakStart(readings);
      if !idle || later - since < Readings.IDLE_SESSION_TIMEOUT {
        return;
      }
      Complete(session, c, MAX_PERCENT);
    }

    /** `resumeHoldingSessionIfDue`: the decision, then power-on, then the guarded write. */
    method ResumeIfDue(id: SessionId, zone: int, v: Option<Vehicle>, now: Instant, f: HoldResume.Forecaster,
                       confirmed: bool)
      returns (due: bool)
      requires RowsOk(View())
      modifies this`relays, repo`rows
      ensures View() == Apply(old(View()), Resume(id, due, confirmed))
      ensures var i := Index(old(repo.rows), id);
              i < |old(repo.rows)| && old(repo.rows)[i].status.Holding? ==>
                HoldResume.IsDecision(HoldOf(old(repo.rows)[i]), zone, v, now, f, due)
    {
      var i := repo.Find(id);
      if i == |repo.rows| || !repo.rows[i].status.Holding? {
        return false;
      }
      var session := repo.rows[i];
      due := HoldResume.ResumeIfDue(HoldOf(session), zone, v, now, f);
      if due {
        SetPower(session.plug, true);
        if confirmed {
          var ok := repo.ResumeHolding(id);
        }
      }
    }

    /** The plug reports a switch from outside. */
    method Report(plug: PlugId, on: bool)
      modifies this`relays
      ensures relays == old(relays)[plug := on]
    {
      relays := relays[plug := on];
    }

    /** `HandleManualPowerToggle` for a charging plug that reports being switched off. */
    method ManualPowerOff(plug: PlugId, c: Closing)
      requires RowsOk(View())
      modifies this`relays, repo`rows, repo`lifetimes
      ensures View() == Apply(old(View()), ManualOff(plug, c))
    {
      Report(plug, false);
      var i := repo.FindInProgress(OnPlug(plug));
      if i == |repo.rows| || repo.rows[i].status.Holding? {
        return;
      }
      var found := StopSession(OnPlug(plug), c);
    }

    /** `HandleManualPowerToggle` for a charging plug that reports being switched on. */
    method ManualPowerOn(c: StartCall)
      requires RowsOk(View()) && c.id !in repo.used
      modifies this, repo
      ensures View() == Apply(old(View()), ManualOn(c))
    {
      hide Unpurged, Incremented, Decremented, NewRow, RowAfterPower, Newest;
      Report(c.plug, true);
      var i := repo.FindInProgress(OnPlug(c.plug));
      if i < |repo.rows| {
        if repo.rows[i].status.Holding? {
          RowIsAtIndex(repo.rows, repo.rows[i]);
          var ok := repo.ResumeHolding(repo.rows[i].id);
        }
        return;
      }
      if c.found.None? || c.found.value.currentPercent >= c.found.value.targetPercent {
        SetPower(c.plug, false);
        return;
      }
      var err := StartSession(c.(startPercent := c.found.value.currentPercent,
                                 targetPercent := c.found.value.targetPercent, stages := None));
    }

    /** `CancelActiveSession`. */
    method CancelSession(session: Session, energy: Option<EnergyData>, v: Option<Vehicle>)
      requires RowsOk(View()) && session in repo.rows
      modifies this`relays, repo`rows
      ensures View() == Perform(old(View()), Decision(
                Edit(Index(old(repo.rows), session.id), CancelledRow(session, CancelPercent(session, energy, v))),
                Off(session)))
    {
      RowIsAtIndex(repo.rows, session);
      repo.UpdateCancelData(session.id, CancelPercent(session, energy, v));
      SetPower(session.plug, false);
    }

    /** `confirmOffline`: whatever session is in progress on the plug is cancelled. */
    method PlugOffline(plug: PlugId, energy: Option<EnergyData>, v: Option<Vehicle>)
      requires RowsOk(View())
      modifies this`relays, repo`rows
      ensures View() == Apply(old(View()), Offline(plug, energy, v))
    {
      hide Newest, Matches, CancelPercent, CancelledRow, Unpurged, Incremented, Decremented;
      var i := repo.FindInProgress(OnPlug(plug));
      if i < |repo.rows| {
        RowIsAtIndex(repo.rows, repo.rows[i]);
        CancelSession(repo.rows[i], energy, v);
      }
    }

    /** `CheckAndCancelDisconnectedSession`, for one session. */
    method CancelIfDisconnected(id: SessionId, energy: Option<EnergyData>, v: Option<Vehicle>)
      requires RowsOk(View())
      modifies this`relays, repo`rows
      ensures View() == Apply(old(View()), Disconnect(id, energy, v))
    {
      hide CancelPercent, CancelledRow, Unpurged, Incremented, Decremented;
      var i := repo.Find(id);
      if i == |repo.rows| || !(repo.rows[i].status.Active? || repo.rows[i].status.Conditioning?) {
        return;
      }
      var session := repo.rows[i];
      if session.lastBlendedKwh.None? || session.lastBlendedKwh.value <= EPSILON_KWH {
        return;
      }
      CancelSession(session, energy, v);
    }

    /** `UpdateTarget`, with its error. */
    method ChangeTarget(id: SessionId, target: real, energy: Option<EnergyData>, v: Option<Vehicle>, joinedKwh: real)
      returns (err: Option<TargetError>)
      requires RowsOk(View())
      modifies repo`rows
      ensures View() == Apply(old(View()), UpdateTarget(id, target, energy, v, joinedKwh))
      ensures err == TargetErrorOf(old(repo.rows), id, target, energy, v)
    {
      hide Energy.CalculateProgress, Unpurged, Incremented, Decremented;
      var i := repo.Find(id);
      if i == |repo.rows| {
        return Some(NotFound);
      }
      var session := repo.rows[i];
      if !session.status.Active? {
        return Some(NotActive);
      }
      if target < 0.0 || target > MAX_PERCENT {
        return Some(OutOfRange);
      }
      if energy.None? || energy.value.total == 0.0 || session.startTotalKwh.None? {
        if target <= session.startPercent {
          return Some(BelowStart);
        }
      } else {
        if v.None? || v.value.capacityKwh <= 0.0 {
          return Some(VehicleConfigMissing);
        }
        var progress := Energy.CalculateProgress(session.EnergyView(), energy, v);
        if target <= progress.currentPercent {
          return Some(BelowCurrent);
        }
      }
      var ok := repo.UpdateTarget(id, target, joinedKwh);
      return None;
    }

    /** `DeleteSession`, with its error; a holding session is not refused. */
    method DeleteSession(id: SessionId) returns (err: Option<DeleteError>)
      requires RowsOk(View())
      modifies repo`rows, repo`lifetimes
      ensures View() == Apply(old(View()), Delete(id))
      ensures err == DeleteErrorOf(old(repo.rows), id)
    {
      hide RowsOk, Unpurged, Newest, Incremented, Decremented;
      var i := repo.Find(id);
      if i == |repo.rows| {
        return Some(NoSuchSession);
      }
      var session := repo.rows[i];
      if session.status.Active? || session.status.Pending? || session.status.Conditioning? {
        return Some(StillActive);
      }
      if session.stats.Some? {
        repo.DecrementLifetimeStats(session.vehicle, session.stats.value);
      }
      repo.Delete(id);
      return None;
    }

    /** `VehicleService.DeleteVehicle`: no session is looked at and no relay is switched. */
    method DeleteVehicle(owner: VehicleId)
      modifies repo`rows, repo`lifetimes
      ensures View() == Apply(old(View()), Op.DeleteVehicle(owner))
    {
      hide Unpurged;
      repo.DeleteVehicle(owner);
    }

    /** The deletion of a plug: its sessions go with it, the vehicles' totals stay. */
    method DeletePlug(plug: PlugId)
      modifies repo`rows
      ensures View() == Apply(old(View()), Op.DeletePlug(plug))
    {
      hide Unpurged;
      repo.DeletePlug(plug);
    }

    /** `reconcileRelay`, for a charging plug that came online. */
    method ReconcileRelay(plug: PlugId)
      modifies this`relays
      ensures View() == Apply(old(View()), Reconcile(plug))
    {
      var i := repo.FindInProgress(OnPlug(plug));
      if i == |repo.rows| {
        SetPower(plug, false);
      }
    }
  }

  predicate Overdue(s: Session, now: Instant, timeout: int) {
    s.status.Pending? && now - s.createdAt > timeout
  }

  function Expired(s: Session, now: Instant, timeout: int): Session {
    if Overdue(s, now, timeout) then s.(status := Cancelled) else s
  }

  /** The timeout check, one step per session. */
  ghost function Expire(w: World, sessions: seq<Session>, now: Instant, timeout: int): World {
    if sessions == [] then w
    else
      var n := |sessions| - 1;
      Apply(Expire(w, sessions[..n], now, timeout), Timeout(sessions[n].id, now, timeout))
  }

  lemma {:induction false} OneExpires(w: World, k: nat, now: Instant, timeout: int)
    requires RowsOk(w) && k < |w.rows|
    ensures Apply(w, Timeout(w.rows[k].id, now, timeout)).rows == w.rows[k := Expired(w.rows[k], now, timeout)]
    ensures RowsOk(Apply(w, Timeout(w.rows[k].id, now, timeout)))
  {
    RowOfIs(w.rows, w.rows[k].id, k);
    RowIsAtIndex(w.rows, w.rows[k]);
    StepKeepsRows(w, Timeout(w.rows[k].id, now, timeout), Apply(w, Timeout(w.rows[k].id, now, timeout)));
  }

  /** After the check on the first k sessions those that were overdue are cancelled, and
      nothing else is touched; after the whole check no pending session is overdue. */
  lemma {:induction false} ExpiredSoFar(w: World, k: nat, now: Instant, timeout: int)
    requires RowsOk(w) && k <= |w.rows|
    ensures var after := Expire(w, w.rows[..k], now, timeout);
            && RowsOk(after) && |after.rows| == |w.rows|
            && (forall j :: 0 <= j < k ==> after.rows[j] == Expired(w.rows[j], now, timeout))
            && (forall j :: k <= j < |w.rows| ==> after.rows[j] == w.rows[j])
  {
    hide Apply, RowsOk, Expired;
    if k > 0 {
      ExpiredSoFar(w, k - 1, now, timeout);
      ExpireOne(w, w.rows, k - 1, now, timeout);
      OneExpires(Expire(w, w.rows[..k - 1], now, timeout), k - 1, now, timeout);
    }
  }

  /** One check switches off the relay of an overdue session and no other. */
  lemma {:induction false} OneSwitchesOff(w: World, k: nat, now: Instant, timeout: int, plug: PlugId)
    requires RowsOk(w) && k < |w.rows|
    ensures IsOn(Apply(w, Timeout(w.rows[k].id, now, timeout)), plug) <==>
            IsOn(w, plug) && !(Overdue(w.rows[k], now, timeout) && w.rows[k].plug == plug)
  {
    RowIsAtIndex(w.rows, w.rows[k]);
  }

  /** The first k checks leave a relay on exactly when it was on and belongs to none of the
      sessions that were overdue. */
  lemma {:induction false} RelaysAfterExpiry(w: World, k: nat, now: Instant, timeout: int, plug: PlugId)
    requires RowsOk(w) && k <= |w.rows|
    ensures IsOn(Expire(w, w.rows[..k], now, timeout), plug) <==>
            IsOn(w, plug) && forall j :: 0 <= j < k && Overdue(w.rows[j], now, timeout) ==> w.rows[j].plug != plug
  {
    hide Apply, RowsOk, Expired, Overdue, IsOn;
    if k > 0 {
      RelaysAfterExpiry(w, k - 1, now, timeout, plug);
      ExpiredSoFar(w, k - 1, now, timeout);
      ExpireOne(w, w.rows, k - 1, now, timeout);
      OneSwitchesOff(Expire(w, w.rows[..k - 1], now, timeout), k - 1, now, timeout, plug);
    }
  }

  lemma ExpireOne(w: World, sessions: seq<Session>, k: nat, now: Instant, timeout: int)
    requires k < |sessions|
    ensures Expire(w, sessions[..k + 1], now, timeout)
            == Apply(Expire(w, sessions[..k], now, timeout), Timeout(sessions[k].id, now, timeout))
  {
    assert sessions[..k + 1][..k] == sessions[..k];
  }

  function HoldOf(s: Session): HoldResume.Hold {
    HoldResume.Hold(s.holdPercent, s.readyBy, s.targetPercent, s.carbonAwareHold)
  }

  lemma SameIndex(rows: seq<Session>, i: nat, row: Session)
    requires i < |rows| && Index(rows, row.id) == i
    ensures Index(rows[i := row], row.id) == i
  {
    assert rows[i := row][i] == row;
    assert forall j :: 0 <= j < i ==> rows[i := row][j] == rows[j];
  }

  lemma RowIsAtIndex(rows: seq<Session>, s: Session)
    requires DistinctIds(rows) && s in rows
    ensures Index(rows, s.id) < |rows| && rows[Index(rows, s.id)] == s
    ensures forall j :: 0 <= j < |rows| && rows[j] == s ==> j == Index(rows, s.id)
  {
    var i :| 0 <= i < |rows| && rows[i] == s;
    RowOfIs(rows, s.id, i);
  }

  /** A step that rewrites the row is the same before and after the level is written. */
  lemma OverwritesLevel(w: World, i: nat, row: Session, d: Decision)
    requires i < |w.rows| && (d.effect.Edit? || d.effect.Finish?) && d.effect.index == i
    ensures Perform(w.(rows := w.rows[i := row]), d) == Perform(w, d)
  {
  }

  lemma LevelKeepsRows(w: World, i: nat, level: real)
    requires RowsOk(w) && i < |w.rows|
    ensures RowsOk(w.(rows := w.rows[i := w.rows[i].(lastBlendedKwh := Some(level))]))
  {
    ReplaceKeepsRows(w, i, w.rows[i].(lastBlendedKwh := Some(level)));
  }

  lemma LastIndex(rows: seq<Session>, row: Session)
    requires forall i :: 0 <= i < |rows| ==> rows[i].id != row.id
    ensures Index(rows + [row], row.id) == |rows|
  {
    var i := Index(rows + [row], row.id);
    assert (rows + [row])[|rows|] == row;
  }
}
