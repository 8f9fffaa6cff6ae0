/** Charge sessions: rows, lookups, and what every service call or worker check decides
    (api/services, api/repository). A call is one step; the relay map holds how each plug's
    relay was last switched, by a command or from outside. */
module Sessions {
  import opened Wrappers
  import opened Clock
  import opened Models
  import opened Energy
  import Cost
  import Readings

  const CONDITIONING_STOP_THRESHOLD_FRACTION: real := 0.10

  datatype Status = Pending | Active | Conditioning | Holding | Completed | Cancelled

  /** The figures frozen into a completed session. */
  datatype Stats = Stats(batteryKwh: real, wallKwh: real, co2Grams: real, costPence: real)

  datatype Session = Session(
    id: SessionId,
    vehicle: VehicleId,
    plug: PlugId,
    createdAt: Instant,
    startedAt: Option<Instant>,
    startPercent: real,
    startKwh: real,
    targetPercent: real,
    targetKwh: real,
    endPercent: Option<real>,
    status: Status,
    startTotalKwh: Option<real>,
    lastBlendedKwh: Option<real>,
    stats: Option<Stats>,
    holdPercent: Option<real>,
    readyBy: Option<string>,
    carbonAwareHold: bool)
  {
    predicate InProgress() {
      status.Pending? || status.Active? || status.Conditioning? || status.Holding?
    }

    function EnergyView(): EnergySession {
      EnergySession(startKwh, targetKwh, startTotalKwh, lastBlendedKwh)
    }
  }

  /** A vehicle's stored totals over its completed sessions. */
  datatype Lifetime = Lifetime(count: int, batteryKwh: real, wallKwh: real, co2Grams: real, costPence: real,
                               minBatteryKwh: real, maxBatteryKwh: real)

  const NO_SESSIONS := Lifetime(0, 0.0, 0.0, 0.0, 0.0, 0.0, 0.0)

  /** `used` are the session ids generated so far. */
  datatype World = World(rows: seq<Session>, used: set<SessionId>, lifetimes: map<VehicleId, Lifetime>,
                         relays: map<PlugId, bool>)

  // ---------------------------------------------------------------- lookups

  function Index(rows: seq<Session>, id: SessionId): (i: nat)
    ensures i <= |rows|
    ensures i < |rows| ==> rows[i].id == id
    ensures forall j :: 0 <= j < i ==> rows[j].id != id
  {
    if rows == [] || rows[0].id == id then 0 else 1 + Index(rows[1..], id)
  }

  /** Whose in-progress session is looked up. */
  datatype Which = Anyone | OfVehicle(vehicle: VehicleId) | OnPlug(plug: PlugId)

  predicate Matches(which: Which, s: Session) {
    && s.InProgress()
    && (which.OfVehicle? ==> s.vehicle == which.vehicle)
    && (which.OnPlug? ==> s.plug == which.plug)
  }

  /** The newest match (rows are in order of creation), or the number of rows if there is none. */
  function Newest(rows: seq<Session>, which: Which): (i: nat)
    ensures i <= |rows|
    ensures i < |rows| ==> Matches(which, rows[i])
    ensures forall j :: (if i < |rows| then i + 1 else 0) <= j < |rows| ==> !Matches(which, rows[j])
  {
    if rows == [] then 0
    else
      var n := |rows| - 1;
      if Matches(which, rows[n]) then n
      else
        var i := Newest(rows[..n], which);
        if i == n then |rows| else i
  }

  function LifetimeOf(lifetimes: map<VehicleId, Lifetime>, v: VehicleId): Lifetime {
    if v in lifetimes then lifetimes[v] else NO_SESSIONS
  }

  // ---------------------------------------------------------------- figures of a stop

  predicate HasBattery(v: Option<Vehicle>) {
    v.Some? && v.value.capacityKwh > 0.0
  }

  /** What a stop finds: the cached meter, the vehicle, the average carbon intensity of the
      readings, and the tariff and readings to bill. */
  datatype Closing = Closing(energy: Option<EnergyData>, vehicle: Option<Vehicle>, avgCarbon: Option<real>,
                             tariff: Option<Cost.Tariff>, readings: seq<Cost.MeterReading>, zone: int)

  ghost predicate ValidClosing(c: Closing) {
    && (c.avgCarbon.Some? ==> c.avgCarbon.value >= 0.0)
    && (c.tariff.Some? ==> Cost.ValidTariff(c.tariff.value))
  }

  datatype End = End(kwh: real, percent: real)

  /** `computeEndFromEnergy`. */
  function EndFromEnergy(startKwh: real, startTotalKwh: Option<real>, energy: Option<EnergyData>,
                         v: Option<Vehicle>): End {
    if energy.None? || energy.value.total <= 0.0 || startTotalKwh.None? || !HasBattery(v) then End(0.0, 0.0)
    else
      var gained := (energy.value.total - startTotalKwh.value) * v.value.Efficiency();
      if gained <= EPSILON_KWH then End(0.0, 0.0)
      else
        var kwh := Max(0.0, Min(v.value.capacityKwh, startKwh + gained));
        End(kwh, Max(0.0, Min(MAX_PERCENT, Percent(kwh, v.value))))
  }

  /** `calculateEndData`. */
  function EndData(startKwh: real, startTotalKwh: Option<real>, c: Closing, endPercent: real): End {
    var fromEnergy := EndFromEnergy(startKwh, startTotalKwh, c.energy, c.vehicle);
    if fromEnergy.kwh != 0.0 then fromEnergy
    else End(if HasBattery(c.vehicle) then c.vehicle.value.capacityKwh * endPercent / 100.0 else 0.0, endPercent)
  }

  function EfficiencyOf(v: Option<Vehicle>): (r: real)
    ensures r > 0.0
  {
    if v.None? then DEFAULT_CHARGING_EFFICIENCY else v.value.Efficiency()
  }

  /** `computeSessionCost`. */
  function CostPence(startTotalKwh: Option<real>, c: Closing): real {
    if c.tariff.None? || startTotalKwh.None? then 0.0
    else Cost.BillOf(startTotalKwh.value, Cost.ByTime(c.readings), Cost.PricesOf(c.tariff.value, c.zone)).totalPence
  }

  function StatsAt(startKwh: real, startTotalKwh: Option<real>, c: Closing, endKwh: real): Stats {
    var battery := if endKwh - startKwh < 0.0 then 0.0 else endKwh - startKwh;
    var wall := battery / EfficiencyOf(c.vehicle);
    var co2 := if wall == 0.0 || c.avgCarbon.None? then 0.0 else wall * c.avgCarbon.value;
    Stats(battery, wall, co2, CostPence(startTotalKwh, c))
  }

  /** `UpdateEndWithStats` on the row. */
  function Finished(s: Session, c: Closing, endPercent: real): Session {
    var end := EndData(s.startKwh, s.startTotalKwh, c, endPercent);
    s.(status := Completed, endPercent := Some(end.percent),
       stats := Some(StatsAt(s.startKwh, s.startTotalKwh, c, end.kwh)))
  }

  /** The percent a session view shows (`buildSessionView`). */
  function ShownPercent(s: Session, energy: Option<EnergyData>, v: Option<Vehicle>): Option<real> {
    if s.status.Pending? then None
    else if energy.None? || energy.value.power <= 0.0 then CurrentPercentFromBlended(s.EnergyView(), v)
    else if !HasBattery(v) || s.startTotalKwh.None? then None
    else Some(CalculateProgress(s.EnergyView(), energy, v).currentPercent)
  }

  /** `calculateEndPercent`. */
  function StopPercent(s: Session, energy: Option<EnergyData>, v: Option<Vehicle>): real {
    if energy.Some? && energy.value.total > 0.0 && s.startTotalKwh.Some? && HasBattery(v) then
      CalculateEndPercent(s.EnergyView(), energy, v)
    else match ShownPercent(s, energy, v)
      case Some(p) => p
      case None => s.targetPercent
  }

  /** `cancelEndPercent`: the furthest percent known, when past the start. */
  function CancelPercent(s: Session, energy: Option<EnergyData>, v: Option<Vehicle>): Option<real> {
    if !HasBattery(v) then None
    else
      var stored := match CurrentPercentFromBlended(s.EnergyView(), v) case Some(p) => p case None => 0.0;
      var best := if energy.Some? && energy.value.total > 0.0 && s.startTotalKwh.Some?
                  then Max(stored, CalculateProgress(s.EnergyView(), energy, v).currentPercent) else stored;
      if best <= s.startPercent then None else Some(best)
  }

  function CancelledRow(s: Session, endPercent: Option<real>): Session {
    s.(status := Cancelled, endPercent := endPercent)
  }

  // ---------------------------------------------------------------- decisions

  /** What a step does to the rows. `Finish` and `Remove` also move the vehicle's totals; a
      purge is the cascade of deleting a vehicle, totals and all, or a plug. */
  datatype Effect =
    | Keep
    | Insert(row: Session)
    | Edit(index: nat, row: Session)
    | Finish(index: nat, row: Session)
    | Remove(index: nat)
    | PurgeVehicle(vehicle: VehicleId)
    | PurgePlug(plug: PlugId)

  datatype Command = Command(plug: PlugId, on: bool)

  datatype Decision = Decision(effect: Effect, command: Option<Command>)

  const NOTHING := Decision(Keep, None)

  function Off(s: Session): Option<Command> {
    Some(Command(s.plug, false))
  }

  datatype TwoStage = TwoStage(holdPercent: real, readyBy: string, carbonAware: bool)

  /** How the power-on of a start went. */
  datatype PowerUp = PowerConfirmed | PowerUnconfirmed | NoController

  datatype StartError = VehicleNotFound | VehicleHasNoBattery | ActiveSessionExists

  /** A start request with what it finds. */
  datatype StartCall = StartCall(
    id: SessionId, plug: PlugId, vehicle: VehicleId, found: Option<Vehicle>, startPercent: real, targetPercent: real,
    stages: Option<TwoStage>, now: Instant, before: Option<EnergyData>, after: Option<EnergyData>, power: PowerUp)

  function StartErrorOf(rows: seq<Session>, c: StartCall): Option<StartError> {
    if c.found.None? then Some(VehicleNotFound)
    else if c.found.value.capacityKwh <= 0.0 then Some(VehicleHasNoBattery)
    else if Newest(rows, OnPlug(c.plug)) < |rows| then Some(ActiveSessionExists)
    else None
  }

  function Total(energy: Option<EnergyData>): Option<real> {
    match energy
    case Some(e) => Some(e.total)
    case None => None
  }

  /** The row as `Create` inserts it. */
  function NewRow(c: StartCall): Session
    requires c.found.Some?
  {
    var capacity := c.found.value.capacityKwh;
    Session(c.id, c.vehicle, c.plug, c.now, None,
            c.startPercent, capacity * c.startPercent / 100.0, c.targetPercent, capacity * c.targetPercent / 100.0,
            None, Pending, Total(c.before), None, None,
            if c.stages.Some? then Some(c.stages.value.holdPercent) else None,
            if c.stages.Some? then Some(c.stages.value.readyBy) else None,
            c.stages.Some? && c.stages.value.carbonAware)
  }

  /** The row after the power-on: active, cancelled, or still pending. A missing baseline is
      filled in, an existing one kept. */
  function RowAfterPower(row: Session, c: StartCall): Session {
    match c.power
    case PowerConfirmed =>
      row.(status := Active, startedAt := Some(c.now),
           startTotalKwh := if row.startTotalKwh.None? then Total(c.after) else row.startTotalKwh)
    case PowerUnconfirmed => row.(status := Cancelled)
    case NoController => row
  }

  /** `startSession`. */
  function DecideStart(w: World, c: StartCall): Decision {
    if StartErrorOf(w.rows, c).Some? || c.id in w.used then NOTHING
    else
      Decision(Insert(RowAfterPower(NewRow(c), c)),
               if c.power.NoController? then None else Some(Command(c.plug, c.power.PowerConfirmed?)))
  }

  /** `ActivatePending`: refreshes the baseline, whatever it was. */
  function DecideActivate(rows: seq<Session>, id: SessionId, energy: Option<EnergyData>, now: Instant): Decision {
    var i := Index(rows, id);
    if i == |rows| || !rows[i].status.Pending? then NOTHING
    else
      var baseline := if energy.Some? then Total(energy) else rows[i].startTotalKwh;
      Decision(Edit(i, rows[i].(status := Active, startedAt := Some(now), startTotalKwh := baseline)), None)
  }

  /** One session of `CancelPendingIfTimedOut`. */
  function DecideTimeout(rows: seq<Session>, id: SessionId, now: Instant, timeout: int): Decision {
    var i := Index(rows, id);
    if i == |rows| || !rows[i].status.Pending? || now - rows[i].createdAt <= timeout then NOTHING
    else Decision(Edit(i, rows[i].(status := Cancelled)), Off(rows[i]))
  }

  /** `Stop`: a pending session is cancelled, any other completed. */
  function DecideStop(rows: seq<Session>, i: nat, c: Closing): Decision
    requires i <= |rows|
  {
    if i == |rows| then NOTHING
    else
      var s := rows[i];
      if s.status.Pending? then Decision(Edit(i, CancelledRow(s, None)), Off(s))
      else Decision(Finish(i, Finished(s, c, StopPercent(s, c.energy, c.vehicle))), Off(s))
  }

  /** `autoStopReachingSession`. */
  function DecideAutoStop(rows: seq<Session>, id: SessionId, c: Closing, confirmed: bool): Decision {
    var i := Index(rows, id);
    if i == |rows| || !rows[i].status.Active? || c.energy.None? || c.energy.value.total == 0.0 then NOTHING
    else if rows[i].startTotalKwh.None? then
      if c.energy.value.total <= 0.0 then NOTHING
      else Decision(Edit(i, rows[i].(startTotalKwh := Total(c.energy))), None)
    else if !HasBattery(c.vehicle) then NOTHING
    else DecideProgress(i, rows[i], c, confirmed)
  }

  /** Its second half: the level is persisted, then acted on. */
  function DecideProgress(i: nat, row: Session, c: Closing, confirmed: bool): Decision
    requires HasBattery(c.vehicle)
  {
    var p := CalculateProgress(row.EnergyView(), c.energy, c.vehicle);
    DecideAt(i, row.(lastBlendedKwh := Some(p.lastBlendedKwh)), p, c, confirmed)
  }

  /** Hold, condition or complete a session whose new level is persisted. */
  function DecideAt(i: nat, s: Session, p: Progress, c: Closing, confirmed: bool): Decision
    requires HasBattery(c.vehicle)
  {
    if s.holdPercent.Some? then
      if p.blendedKwh >= c.vehicle.value.capacityKwh * s.holdPercent.value / 100.0 then
        Decision(Edit(i, if confirmed then s.(status := Holding) else s), Off(s))
      else Decision(Edit(i, s), None)
    else if p.blendedKwh >= s.targetKwh then
      if s.targetPercent == MAX_PERCENT then Decision(Edit(i, s.(status := Conditioning)), None)
      else Decision(Finish(i, Finished(s, c, p.currentPercent)), Off(s))
    else Decision(Edit(i, s), None)
  }

  /** `stopConditioningSession`. */
  function DecideConditioning(rows: seq<Session>, id: SessionId, c: Closing): Decision {
    var i := Index(rows, id);
    if i == |rows| || !rows[i].status.Conditioning? || c.vehicle.None? || c.vehicle.value.chargerOutputW <= 0.0
      || c.energy.None? then NOTHING
    else if c.energy.value.power < c.vehicle.value.chargerOutputW * CONDITIONING_STOP_THRESHOLD_FRACTION then
      Decision(Finish(i, Finished(rows[i], c, rows[i].targetPercent)), Off(rows[i]))
    else NOTHING
  }

  /** `stopIdleSession`: completed at a full battery. */
  function DecideIdle(rows: seq<Session>, id: SessionId, readings: seq<Readings.PowerReading>, now: Instant,
                      later: Instant, c: Closing): Decision {
    var i := Index(rows, id);
    if i == |rows| || !(rows[i].status.Active? || rows[i].status.Conditioning?) then NOTHING
    else if Readings.StopsIdle(rows[i].startedAt, readings, now, later) then
      Decision(Finish(i, Finished(rows[i], c, MAX_PERCENT)), Off(rows[i]))
    else NOTHING
  }

  /** `ResumeHolding`: back to active, and the hold point is cleared. */
  function ResumedRow(s: Session): Session {
    s.(status := Active, holdPercent := None)
  }

  /** `resumeHoldingSession`, when the deadline guard or the plan says so. */
  function DecideResume(rows: seq<Session>, id: SessionId, due: bool, confirmed: bool): Decision {
    var i := Index(rows, id);
    if i == |rows| || !rows[i].status.Holding? || rows[i].holdPercent.None? || rows[i].readyBy.None?
      || !due then NOTHING
    else
      var on := Some(Command(rows[i].plug, true));
      if confirmed then Decision(Edit(i, ResumedRow(rows[i])), on) else Decision(Keep, on)
  }

  /** `handleManualPowerOff`: a hold owns the relay. */
  function DecideManualOff(rows: seq<Session>, plug: PlugId, c: Closing): Decision {
    var i := Newest(rows, OnPlug(plug));
    if i < |rows| && rows[i].status.Holding? then NOTHING else DecideStop(rows, i, c)
  }

  /** `handleManualPowerOn`; `c.found` is the vehicle assigned to the plug, if there is one. */
  function DecideManualOn(w: World, c: StartCall): Decision {
    var i := Newest(w.rows, OnPlug(c.plug));
    if i < |w.rows| then
      if w.rows[i].status.Holding? then Decision(Edit(i, ResumedRow(w.rows[i])), None) else NOTHING
    else if c.found.None? || c.found.value.currentPercent >= c.found.value.targetPercent then
      Decision(Keep, Some(Command(c.plug, false)))
    else DecideStart(w, c.(startPercent := c.found.value.currentPercent, targetPercent := c.found.value.targetPercent,
                           stages := None))
  }

  /** `CancelActiveSession`, for a plug confirmed offline. */
  function DecideOffline(rows: seq<Session>, plug: PlugId, energy: Option<EnergyData>, v: Option<Vehicle>): Decision {
    var i := Newest(rows, OnPlug(plug));
    if i == |rows| then NOTHING
    else Decision(Edit(i, CancelledRow(rows[i], CancelPercent(rows[i], energy, v))), Off(rows[i]))
  }

  /** One session of `CheckAndCancelDisconnectedSession`: only if it was really charging. */
  function DecideDisconnect(rows: seq<Session>, id: SessionId, energy: Option<EnergyData>,
                            v: Option<Vehicle>): Decision {
    var i := Index(rows, id);
    if i == |rows| || !(rows[i].status.Active? || rows[i].status.Conditioning?) then NOTHING
    else if rows[i].lastBlendedKwh.None? || rows[i].lastBlendedKwh.value <= EPSILON_KWH then NOTHING
    else Decision(Edit(i, CancelledRow(rows[i], CancelPercent(rows[i], energy, v))), Off(rows[i]))
  }

  datatype TargetError = NotFound | NotActive | OutOfRange | BelowStart | VehicleConfigMissing | BelowCurrent

  /** The checks of `UpdateTarget`, in order. */
  function TargetErrorOf(rows: seq<Session>, id: SessionId, target: real, energy: Option<EnergyData>,
                         v: Option<Vehicle>): Option<TargetError> {
    var i := Index(rows, id);
    if i == |rows| then Some(NotFound)
    else if !rows[i].status.Active? then Some(NotActive)
    else if target < 0.0 || target > MAX_PERCENT then Some(OutOfRange)
    else if energy.None? || energy.value.total == 0.0 || rows[i].startTotalKwh.None? then
      if target <= rows[i].startPercent then Some(BelowStart) else None
    else if !HasBattery(v) then Some(VehicleConfigMissing)
    else if target <= CalculateProgress(rows[i].EnergyView(), energy, v).currentPercent then Some(BelowCurrent)
    else None
  }

  /** The row update joins the vehicle's capacity itself. */
  function DecideTarget(rows: seq<Session>, id: SessionId, target: real, energy: Option<EnergyData>,
                        v: Option<Vehicle>, joinedKwh: real): Decision {
    if TargetErrorOf(rows, id, target, energy, v).Some? then NOTHING
    else
      var i := Index(rows, id);
      Decision(Edit(i, rows[i].(targetPercent := target, targetKwh := joinedKwh * target / 100.0)), None)
  }

  datatype DeleteError = NoSuchSession | StillActive

  function DeleteErrorOf(rows: seq<Session>, id: SessionId): Option<DeleteError> {
    var i := Index(rows, id);
    if i == |rows| then Some(NoSuchSession)
    else if rows[i].status.Active? || rows[i].status.Pending? || rows[i].status.Conditioning? then Some(StillActive)
    else None
  }

  function DecideDelete(rows: seq<Session>, id: SessionId): Decision {
    if DeleteErrorOf(rows, id).Some? then NOTHING else Decision(Remove(Index(rows, id)), None)
  }

  /** `reconcileRelay`, for a charging plug that came online. */
  function DecideReconcile(rows: seq<Session>, plug: PlugId): Decision {
    if Newest(rows, OnPlug(plug)) < |rows| then NOTHING else Decision(Keep, Some(Command(plug, false)))
  }

  // ---------------------------------------------------------------- steps

  datatype Op =
    | Start(call: StartCall)
    | Activate(id: SessionId, energy: Option<EnergyData>, now: Instant)
    | Timeout(id: SessionId, now: Instant, timeout: int)
    | Stop(which: Which, closing: Closing)
    | AutoStop(id: SessionId, closing: Closing, confirmed: bool)
    | StopConditioning(id: SessionId, closing: Closing)
    | StopIdle(id: SessionId, readings: seq<Readings.PowerReading>, now: Instant, later: Instant, closing: Closing)
    | Resume(id: SessionId, due: bool, confirmed: bool)
    | ManualOff(plug: PlugId, closing: Closing)
    | ManualOn(call: StartCall)
    | Offline(plug: PlugId, energy: Option<EnergyData>, vehicle: Option<Vehicle>)
    | Disconnect(id: SessionId, energy: Option<EnergyData>, vehicle: Option<Vehicle>)
    | StoreLevel(id: SessionId, level: real)
    | UpdateTarget(id: SessionId, target: real, energy: Option<EnergyData>, vehicle: Option<Vehicle>, joinedKwh: real)
    | Delete(id: SessionId)
    | Reconcile(plug: PlugId)
    | DeleteVehicle(owner: VehicleId)
    | DeletePlug(plug: PlugId)

  function Decide(w: World, op: Op): Decision {
    match op
    case Start(c) => DecideStart(w, c)
    case Activate(id, energy, now) => DecideActivate(w.rows, id, energy, now)
    case Timeout(id, now, timeout) => DecideTimeout(w.rows, id, now, timeout)
    case Stop(which, c) => DecideStop(w.rows, Newest(w.rows, which), c)
    case AutoStop(id, c, confirmed) => DecideAutoStop(w.rows, id, c, confirmed)
    case StopConditioning(id, c) => DecideConditioning(w.rows, id, c)
    case StopIdle(id, readings, now, later, c) => DecideIdle(w.rows, id, readings, now, later, c)
    case Resume(id, due, confirmed) => DecideResume(w.rows, id, due, confirmed)
    case ManualOff(plug, c) => DecideManualOff(w.rows, plug, c)
    case ManualOn(c) => DecideManualOn(w, c)
    case Offline(plug, energy, v) => DecideOffline(w.rows, plug, energy, v)
    case Disconnect(id, energy, v) => DecideDisconnect(w.rows, id, energy, v)
    case StoreLevel(id, level) => DecideStoreLevel(w.rows, id, level)
    case UpdateTarget(id, target, energy, v, joinedKwh) => DecideTarget(w.rows, id, target, energy, v, joinedKwh)
    case Delete(id) => DecideDelete(w.rows, id)
    case Reconcile(plug) => DecideReconcile(w.rows, plug)
    case DeleteVehicle(vehicle) => Decision(PurgeVehicle(vehicle), None)
    case DeletePlug(plug) => Decision(PurgePlug(plug), None)
  }

  /** The SOC worker's unguarded write, possibly long after the session ended. */
  function DecideStoreLevel(rows: seq<Session>, id: SessionId, level: real): Decision {
    var i := Index(rows, id);
    if i == |rows| then NOTHING else Decision(Edit(i, rows[i].(lastBlendedKwh := Some(level))), None)
  }

  /** `IncrementLifetimeStats`. */
  function Incremented(t: Lifetime, s: Stats): Lifetime {
    Lifetime(t.count + 1, t.batteryKwh + s.batteryKwh, t.wallKwh + s.wallKwh, t.co2Grams + s.co2Grams,
             t.costPence + s.costPence,
             if t.count == 0 then s.batteryKwh else Min(t.minBatteryKwh, s.batteryKwh),
             if t.count == 0 then s.batteryKwh else Max(t.maxBatteryKwh, s.batteryKwh))
  }

  /** `DecrementLifetimeStats`, floored at zero. */
  function Decremented(t: Lifetime, s: Stats): Lifetime {
    Lifetime(if t.count - 1 > 0 then t.count - 1 else 0,
             Max(t.batteryKwh - s.batteryKwh, 0.0), Max(t.wallKwh - s.wallKwh, 0.0),
             Max(t.co2Grams - s.co2Grams, 0.0), Max(t.costPence - s.costPence, 0.0),
             if t.count <= 1 then 0.0 else t.minBatteryKwh,
             if t.count <= 1 then 0.0 else t.maxBatteryKwh)
  }

  function Without(rows: seq<Session>, i: nat): seq<Session>
    requires i < |rows|
  {
    rows[..i] + rows[i + 1..]
  }

  /** Whether a purge takes the row with it, whatever its status. */
  predicate Purged(e: Effect, s: Session) {
    match e
    case PurgeVehicle(vehicle) => s.vehicle == vehicle
    case PurgePlug(plug) => s.plug == plug
    case _ => false
  }

  /** The rows a purge leaves, in their order. */
  function Unpurged(rows: seq<Session>, e: Effect): seq<Session> {
    if rows == [] then []
    else
      var n := |rows| - 1;
      Unpurged(rows[..n], e) + if Purged(e, rows[n]) then [] else [rows[n]]
  }

  function RowsAfter(rows: seq<Session>, e: Effect): seq<Session> {
    match e
    case Keep => rows
    case Insert(row) => rows + [row]
    case Edit(i, row) => if i < |rows| then rows[i := row] else rows
    case Finish(i, row) => if i < |rows| then rows[i := row] else rows
    case Remove(i) => if i < |rows| then Without(rows, i) else rows
    case PurgeVehicle(_) => Unpurged(rows, e)
    case PurgePlug(_) => Unpurged(rows, e)
  }

  function LifetimesAfter(rows: seq<Session>, lifetimes: map<VehicleId, Lifetime>,
                          e: Effect): map<VehicleId, Lifetime> {
    match e
    case Finish(_, row) =>
      if row.stats.None? then lifetimes
      else lifetimes[row.vehicle := Incremented(LifetimeOf(lifetimes, row.vehicle), row.stats.value)]
    case Remove(i) =>
      if i >= |rows| || rows[i].stats.None? then lifetimes
      else lifetimes[rows[i].vehicle := Decremented(LifetimeOf(lifetimes, rows[i].vehicle), rows[i].stats.value)]
    case PurgeVehicle(vehicle) => lifetimes - {vehicle}
    case _ => lifetimes
  }

  function RelaysAfter(relays: map<PlugId, bool>, c: Option<Command>): map<PlugId, bool> {
    if c.None? then relays else relays[c.value.plug := c.value.on]
  }

  function Perform(w: World, d: Decision): World {
    World(RowsAfter(w.rows, d.effect),
          if d.effect.Insert? then w.used + {d.effect.row.id} else w.used,
          LifetimesAfter(w.rows, w.lifetimes, d.effect),
          RelaysAfter(w.relays, d.command))
  }

  /** The world a call finds: a switch from outside has already happened. */
  function Switched(w: World, op: Op): World {
    match op
    case ManualOff(plug, _) => w.(relays := w.relays[plug := false])
    case ManualOn(c) => w.(relays := w.relays[c.plug := true])
    case _ => w
  }

  function Apply(w: World, op: Op): World {
    Perform(Switched(w, op), Decide(w, op))
  }

  const EMPTY_WORLD := World([], {}, map[], map[])
}
