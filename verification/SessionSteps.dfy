/** When each change of a session happens: what a step makes of the row it is about. */
module SessionSteps {
  import opened Wrappers
  import opened Clock
  import opened Models
  import Energy
  import Cost
  import Readings
  import opened Sessions
  import opened SessionRuns

  // ---------------------------------------------------------------- rows after a step

  /** A row rewritten in place is found under its id. */
  lemma RewrittenRow(rows: seq<Session>, i: nat, row: Session)
    requires DistinctIds(rows) && i < |rows| && row.id == rows[i].id
    ensures RowOf(rows[i := row], row.id) == Some(row)
  {
    var after := rows[i := row];
    assert after[i] == row;
    assert DistinctIds(after);
    RowOfIs(after, row.id, i);
  }

  lemma FoundRow(rows: seq<Session>, id: SessionId) returns (i: nat)
    requires RowOf(rows, id).Some?
    ensures i == Index(rows, id) && i < |rows| && rows[i].id == id && RowOf(rows, id) == Some(rows[i])
  {
    i := Index(rows, id);
  }

  /** What a decision about row i makes of it, and of every other row. */
  lemma {:induction false} DecidedRow(w: World, i: nat, d: Decision)
    requires RowsOk(w) && i < |w.rows|
    requires d.effect.Keep? || ((d.effect.Edit? || d.effect.Finish?) && d.effect.index == i
                                && d.effect.row.id == w.rows[i].id)
    ensures RowOf(Perform(w, d).rows, w.rows[i].id)
            == Some(if d.effect.Keep? then w.rows[i] else d.effect.row)
    ensures |Perform(w, d).rows| == |w.rows|
    ensures forall j :: 0 <= j < |w.rows| && j != i ==> Perform(w, d).rows[j] == w.rows[j]
    ensures Perform(w, d).relays == RelaysAfter(w.relays, d.command)
  {
    if d.effect.Keep? {
      RowOfIs(w.rows, w.rows[i].id, i);
    } else {
      RewrittenRow(w.rows, i, d.effect.row);
    }
  }

  function PoweredOff(w: World, s: Session): map<PlugId, bool> {
    w.relays[s.plug := false]
  }

  // ---------------------------------------------------------------- reaching the target

  /** The highest level known once a reading is taken: the start, the stored level, and the
      reading's own if it ticks. */
  function PeakWith(s: Session, v: Vehicle, e: EnergyData): real
    requires s.startTotalKwh.Some?
  {
    var view := s.EnergyView();
    Max(Energy.Baseline(view), if Energy.Ticks(view, v, e) then Energy.Level(view, v, e) else s.startKwh)
  }

  /** The check has all it needs to judge the session. */
  ghost predicate Measured(s: Session, c: Closing) {
    && s.status.Active? && s.startTotalKwh.Some? && HasBattery(c.vehicle)
    && c.energy.Some? && c.energy.value.total != 0.0
  }

  lemma MeasuredProgress(s: Session, c: Closing)
    requires Measured(s, c)
    ensures var p, peak := Energy.CalculateProgress(s.EnergyView(), c.energy, c.vehicle),
                           PeakWith(s, c.vehicle.value, c.energy.value);
            && p.lastBlendedKwh == peak
            && p.blendedKwh == Max(s.startKwh, Min(s.targetKwh, peak))
            && p.currentPercent == Energy.Percent(p.blendedKwh, c.vehicle.value)
  {
    Energy.ProgressRaises(s.EnergyView(), c.vehicle.value, c.energy.value);
    hide Energy.Gained;
  }

  /** A session without a hold stays active exactly while the highest level known is below its
      target. Reaching it, it is conditioned if the target is a full battery, and otherwise
      completed and switched off. */
  lemma {:induction false} AutoStopsExactlyAtTarget(w: World, id: SessionId, c: Closing, confirmed: bool)
    requires RowsOk(w) && RowOf(w.rows, id).Some?
    requires var s := RowOf(w.rows, id).value; Measured(s, c) && s.holdPercent.None? && s.startKwh < s.targetKwh
    ensures var s, t := RowOf(w.rows, id).value, Apply(w, AutoStop(id, c, confirmed));
            var peak := PeakWith(s, c.vehicle.value, c.energy.value);
            && RowOf(t.rows, id).Some? && RowOf(t.rows, id).value.lastBlendedKwh == Some(peak)
            && RowOf(t.rows, id).value.status ==
                 (if peak < s.targetKwh then Active else if s.targetPercent == 100.0 then Conditioning else Completed)
            && t.relays == (if peak < s.targetKwh || s.targetPercent == 100.0 then w.relays else PoweredOff(w, s))
            && (peak < s.targetKwh ==> RowOf(t.rows, id).value == s.(lastBlendedKwh := Some(peak)))
            && (peak >= s.targetKwh && s.targetPercent != 100.0 ==>
                  RowOf(t.rows, id).value == Finished(s.(lastBlendedKwh := Some(peak)), c,
                                                      Energy.Percent(s.targetKwh, c.vehicle.value)))
  {
    var i := FoundRow(w.rows, id);
    MeasuredProgress(w.rows[i], c);
    hide Energy.CalculateProgress, PeakWith, Index;
    var d := DecideAutoStop(w.rows, id, c, confirmed);
    assert d == DecideProgress(i, w.rows[i], c, confirmed);
    DecidedRow(w, i, d);
  }

  /** A session with a hold is held exactly when the level, within its target, has reached the
      hold percent of the battery and the power-off is confirmed; the power-off is sent as soon
      as it has. */
  lemma {:induction false} HoldsExactlyAtHoldPoint(w: World, id: SessionId, c: Closing, confirmed: bool)
    requires RowsOk(w) && RowOf(w.rows, id).Some?
    requires Measured(RowOf(w.rows, id).value, c) && RowOf(w.rows, id).value.holdPercent.Some?
    ensures var s, t := RowOf(w.rows, id).value, Apply(w, AutoStop(id, c, confirmed));
            var peak := PeakWith(s, c.vehicle.value, c.energy.value);
            var reached := Max(s.startKwh, Min(s.targetKwh, peak))
                           >= c.vehicle.value.capacityKwh * s.holdPercent.value / 100.0;
            && RowOf(t.rows, id)
               == Some(s.(lastBlendedKwh := Some(peak), status := if reached && confirmed then Holding else Active))
            && t.relays == if reached then PoweredOff(w, s) else w.relays
  {
    var i := FoundRow(w.rows, id);
    MeasuredProgress(w.rows[i], c);
    hide Energy.CalculateProgress, PeakWith, Index;
    var d := DecideAutoStop(w.rows, id, c, confirmed);
    assert d == DecideProgress(i, w.rows[i], c, confirmed);
    DecidedRow(w, i, d);
  }

  /** A session without a baseline gets the meter as it stands; without a meter or a battery
      nothing happens. */
  lemma {:induction false} UnmeasuredIsLeft(w: World, id: SessionId, c: Closing, confirmed: bool)
    requires RowsOk(w) && RowOf(w.rows, id).Some? && !Measured(RowOf(w.rows, id).value, c)
    ensures var s, t := RowOf(w.rows, id).value, Apply(w, AutoStop(id, c, confirmed));
            if s.status.Active? && s.startTotalKwh.None? && c.energy.Some? && c.energy.value.total > 0.0
            then RowOf(t.rows, id) == Some(s.(startTotalKwh := Some(c.energy.value.total))) && t.relays == w.relays
            else t == w
  {
    var i := FoundRow(w.rows, id);
    var d := DecideAutoStop(w.rows, id, c, confirmed);
    hide Index;
    DecidedRow(w, i, d);
  }

  /** The world after a stream of checks of one session. */
  ghost function Watched(w: World, id: SessionId, cs: seq<Closing>): World {
    if cs == [] then w
    else Apply(Watched(w, id, cs[..|cs| - 1]), AutoStop(id, cs[|cs| - 1], true))
  }

  /** Reading `c` by itself shows the session at its target or above. */
  ghost predicate Reaches(s: Session, v: Vehicle, c: Closing)
    requires s.startTotalKwh.Some? && c.energy.Some?
  {
    Energy.Ticks(s.EnergyView(), v, c.energy.value) && Energy.Level(s.EnergyView(), v, c.energy.value) >= s.targetKwh
  }

  ghost predicate Stream(cs: seq<Closing>, v: Vehicle) {
    forall k :: 0 <= k < |cs| ==>
      ValidClosing(cs[k]) && cs[k].vehicle == Some(v) && cs[k].energy.Some? && cs[k].energy.value.total != 0.0
  }

  /** Some reading of the stream reaches the target. */
  ghost predicate SomeReaches(s: Session, v: Vehicle, cs: seq<Closing>)
    requires s.startTotalKwh.Some? && Stream(cs, v)
  {
    exists k :: 0 <= k < |cs| && Reaches(s, v, cs[k])
  }

  lemma SomeReachesGrows(s: Session, v: Vehicle, cs: seq<Closing>)
    requires s.startTotalKwh.Some? && cs != [] && Stream(cs, v)
    ensures Stream(cs[..|cs| - 1], v)
    ensures SomeReaches(s, v, cs) <==> SomeReaches(s, v, cs[..|cs| - 1]) || Reaches(s, v, cs[|cs| - 1])
  {
    var n := |cs| - 1;
    if SomeReaches(s, v, cs) && !Reaches(s, v, cs[n]) {
      var k :| 0 <= k < |cs| && Reaches(s, v, cs[k]);
      assert cs[..n][k] == cs[k];
    }
    if SomeReaches(s, v, cs[..n]) {
      var k :| 0 <= k < n && Reaches(s, v, cs[..n][k]);
      assert cs[..n][k] == cs[k];
    }
  }

  /** The row is the session still charging below its target, whatever its stored level. */
  ghost predicate StillCharging(row: Session, s: Session) {
    && row == s.(lastBlendedKwh := row.lastBlendedKwh)
    && Energy.Baseline(row.EnergyView()) < s.targetKwh
  }

  lemma PeakReaches(row: Session, s: Session, v: Vehicle, c: Closing)
    requires s.startTotalKwh.Some? && c.energy.Some? && s.startKwh < s.targetKwh && StillCharging(row, s)
    ensures PeakWith(row, v, c.energy.value) < s.targetKwh <==> !Reaches(s, v, c)
  {
    Energy.SameTicks(s.EnergyView(), row.EnergyView(), v, c.energy.value);
  }

  /** Over any stream of readings: the session ends at the first that ticks and shows a level at
      its target or above, and charges on until then. */
  lemma {:induction false} EndsAtFirstReadingAtTarget(w: World, id: SessionId, v: Vehicle, cs: seq<Closing>)
    requires RowsOk(w) && RowOf(w.rows, id).Some? && Stream(cs, v) && v.capacityKwh > 0.0
    requires var s := RowOf(w.rows, id).value;
             && s.status.Active? && s.holdPercent.None? && s.startTotalKwh.Some? && s.startKwh < s.targetKwh
             && Energy.Baseline(s.EnergyView()) < s.targetKwh
    ensures var s, t := RowOf(w.rows, id).value, Watched(w, id, cs);
            && RowsOk(t) && RowOf(t.rows, id).Some?
            && if SomeReaches(s, v, cs)
               then RowOf(t.rows, id).value.status == (if s.targetPercent == 100.0 then Conditioning else Completed)
               else StillCharging(RowOf(t.rows, id).value, s)
  {
    if cs != [] {
      var n, s := |cs| - 1, RowOf(w.rows, id).value;
      var before := Watched(w, id, cs[..n]);
      SomeReachesGrows(s, v, cs);
      EndsAtFirstReadingAtTarget(w, id, v, cs[..n]);
      StepKeepsRows(before, AutoStop(id, cs[n], true), Watched(w, id, cs));
      OneMoreReading(before, id, s, v, cs[n]);
    }
  }

  lemma {:induction false} OneMoreReading(w: World, id: SessionId, s: Session, v: Vehicle, c: Closing)
    requires RowsOk(w) && RowOf(w.rows, id).Some? && v.capacityKwh > 0.0
    requires c.vehicle == Some(v) && c.energy.Some? && c.energy.value.total != 0.0
    requires StillCharging(RowOf(w.rows, id).value, s) || !RowOf(w.rows, id).value.status.Active?
    requires s.status.Active? && s.holdPercent.None? && s.startTotalKwh.Some? && s.startKwh < s.targetKwh
    ensures var row, t := RowOf(w.rows, id).value, Apply(w, AutoStop(id, c, true));
            && RowOf(t.rows, id).Some?
            && (!row.status.Active? ==> RowOf(t.rows, id).value == row)
            && (StillCharging(row, s) && Reaches(s, v, c) ==>
                  RowOf(t.rows, id).value.status == if s.targetPercent == 100.0 then Conditioning else Completed)
            && (StillCharging(row, s) && !Reaches(s, v, c) ==> StillCharging(RowOf(t.rows, id).value, s))
  {
    hide Apply, RowOf, RowsOk, Reaches;
    var row := RowOf(w.rows, id).value;
    if StillCharging(row, s) {
      PeakReaches(row, s, v, c);
      AutoStopsExactlyAtTarget(w, id, c, true);
    } else if !row.status.Active? {
      UnmeasuredIsLeft(w, id, c, true);
    }
  }

  // ---------------------------------------------------------------- the other endings

  /** A conditioning session is completed at its target exactly when its plug draws less than a
      tenth of the charger's known output. */
  lemma {:induction false} ConditioningEndsExactly(w: World, id: SessionId, c: Closing)
    requires RowsOk(w) && RowOf(w.rows, id).Some?
    ensures var s, t := RowOf(w.rows, id).value, Apply(w, StopConditioning(id, c));
            if && s.status.Conditioning? && c.vehicle.Some? && c.vehicle.value.chargerOutputW > 0.0
               && c.energy.Some? && 10.0 * c.energy.value.power < c.vehicle.value.chargerOutputW
            then RowOf(t.rows, id) == Some(Finished(s, c, s.targetPercent)) && t.relays == PoweredOff(w, s)
            else t == w
  {
    var i := FoundRow(w.rows, id);
    hide Index, Finished;
    FinishedKeepsId(w.rows[i], c, w.rows[i].targetPercent);
    DecidedRow(w, i, DecideConditioning(w.rows, id, c));
  }

  lemma FinishedKeepsId(s: Session, c: Closing, percent: real)
    ensures Finished(s, c, percent).id == s.id && Finished(s, c, percent).status.Completed?
    ensures Finished(s, c, percent).stats.Some?
  {
  }

  /** An active or conditioning session is completed at a full battery exactly when it started
      ten minutes ago or more and its readings have idled below 30 W for 15 minutes or more. */
  lemma {:induction false} IdleEndsExactly(w: World, id: SessionId, readings: seq<Readings.PowerReading>, now: Instant,
                                           later: Instant, c: Closing)
    requires RowsOk(w) && RowOf(w.rows, id).Some?
    ensures var s, t := RowOf(w.rows, id).value, Apply(w, StopIdle(id, readings, now, later, c));
            if && (s.status.Active? || s.status.Conditioning?)
               && s.startedAt.Some? && now - s.startedAt.value >= 10 * MINUTE
               && exists k :: Readings.IdlesSince(readings, k) && later - readings[k].at >= 15 * MINUTE
            then RowOf(t.rows, id) == Some(Finished(s, c, 100.0)) && t.relays == PoweredOff(w, s)
            else t == w
  {
    var i := FoundRow(w.rows, id);
    Readings.StopsIdleExactly(w.rows[i].startedAt, readings, now, later);
    hide Index, Finished, Readings.StopsIdle, Readings.IdlesSince;
    FinishedKeepsId(w.rows[i], c, 100.0);
    DecidedRow(w, i, DecideIdle(w.rows, id, readings, now, later, c));
  }

  /** A stop cancels a pending session and completes any other, and switches its plug off. */
  lemma {:induction false} StopsExactly(w: World, which: Which, c: Closing)
    requires RowsOk(w)
    ensures var i, t := Newest(w.rows, which), Apply(w, Stop(which, c));
            if i == |w.rows| then t == w
            else
              var s := w.rows[i];
              && t.relays == PoweredOff(w, s)
              && RowOf(t.rows, s.id) == Some(if s.status.Pending? then s.(status := Cancelled, endPercent := None)
                                             else Finished(s, c, StopPercent(s, c.energy, c.vehicle)))
  {
    var i := Newest(w.rows, which);
    hide Index, Finished, StopPercent, Newest;
    if i < |w.rows| {
      FinishedKeepsId(w.rows[i], c, StopPercent(w.rows[i], c.energy, c.vehicle));
      DecidedRow(w, i, DecideStop(w.rows, i, c));
    }
  }

  /** A switch-off from outside does the same to the plug's session, unless it is holding. */
  lemma {:induction false} SwitchedOffExactly(w: World, plug: PlugId, c: Closing)
    requires RowsOk(w)
    ensures var i, t := Newest(w.rows, OnPlug(plug)), Apply(w, ManualOff(plug, c));
            && !IsOn(t, plug)
            && if i < |w.rows| && !w.rows[i].status.Holding?
               then t.rows == Apply(w, Stop(OnPlug(plug), c)).rows
                    && t.lifetimes == Apply(w, Stop(OnPlug(plug), c)).lifetimes
               else t.rows == w.rows && t.lifetimes == w.lifetimes
  {
    hide Finished, StopPercent, Newest, Incremented;
  }

  /** An offline plug's session in progress is cancelled at the furthest percent known. */
  lemma {:induction false} OfflineCancelsExactly(w: World, plug: PlugId, energy: Option<EnergyData>, v: Option<Vehicle>)
    requires RowsOk(w)
    ensures var i, t := Newest(w.rows, OnPlug(plug)), Apply(w, Offline(plug, energy, v));
            if i == |w.rows| then t == w
            else RowOf(t.rows, w.rows[i].id)
                 == Some(w.rows[i].(status := Cancelled, endPercent := CancelPercent(w.rows[i], energy, v)))
                 && t.relays == PoweredOff(w, w.rows[i])
  {
    var i := Newest(w.rows, OnPlug(plug));
    hide Index, CancelPercent, Newest;
    if i < |w.rows| {
      DecidedRow(w, i, DecideOffline(w.rows, plug, energy, v));
    }
  }

  /** A disconnected session is cancelled exactly when it is active or conditioning and its
      stored level passed two watt-hours. */
  lemma {:induction false} DisconnectCancelsExactly(w: World, id: SessionId, energy: Option<EnergyData>,
                                                    v: Option<Vehicle>)
    requires RowsOk(w) && RowOf(w.rows, id).Some?
    ensures var s, t := RowOf(w.rows, id).value, Apply(w, Disconnect(id, energy, v));
            if (s.status.Active? || s.status.Conditioning?) && s.lastBlendedKwh.Some? && s.lastBlendedKwh.value > 0.002
            then RowOf(t.rows, id) == Some(s.(status := Cancelled, endPercent := CancelPercent(s, energy, v)))
                 && t.relays == PoweredOff(w, s)
            else t == w
  {
    var i := FoundRow(w.rows, id);
    hide Index, CancelPercent;
    DecidedRow(w, i, DecideDisconnect(w.rows, id, energy, v));
  }

  /** A session can be deleted exactly when it is over or holding; then it is gone, and its
      figures with it. */
  lemma {:induction false} DeletesExactly(w: World, id: SessionId)
    requires RowsOk(w) && RowOf(w.rows, id).Some?
    ensures var s, t := RowOf(w.rows, id).value, Apply(w, Delete(id));
            if s.status.Completed? || s.status.Cancelled? || s.status.Holding?
            then RowOf(t.rows, id).None? && |t.rows| == |w.rows| - 1 && t.relays == w.relays
            else t == w
  {
    var i := FoundRow(w.rows, id);
    var rest := Without(w.rows, i);
    forall j | 0 <= j < |rest| ensures rest[j].id != id {
      assert rest[j] == w.rows[if j < i then j else j + 1];
    }
  }

  // ---------------------------------------------------------------- beginnings and resumes

  /** A start makes a session exactly for a vehicle with a battery on a plug without one; it is
      active, cancelled or pending as the power-on went, and its meter baseline is the one
      before the power-on where that is known. */
  lemma {:induction false} StartsExactly(w: World, c: StartCall)
    requires RowsOk(w) && c.id !in w.used
    ensures var t := Apply(w, Start(c));
            if c.found.Some? && c.found.value.capacityKwh > 0.0 && !HasSession(w.rows, c.plug, false)
            then
              && |t.rows| == |w.rows| + 1 && t.rows[..|w.rows|] == w.rows
              && IsStartOf(t.rows[|w.rows|], c)
              && t.relays == (match c.power
                              case PowerConfirmed => w.relays[c.plug := true]
                              case PowerUnconfirmed => w.relays[c.plug := false]
                              case NoController => w.relays)
            else t == w
  {
    var i := Newest(w.rows, OnPlug(c.plug));
    assert HasSession(w.rows, c.plug, false) <==> i < |w.rows|;
    hide Newest, HasSession;
  }

  ghost predicate IsStartOf(s: Session, c: StartCall)
    requires c.found.Some?
  {
    && s.id == c.id && s.vehicle == c.vehicle && s.plug == c.plug && s.createdAt == c.now
    && s.startPercent == c.startPercent && s.startKwh == c.found.value.capacityKwh * c.startPercent / 100.0
    && s.targetPercent == c.targetPercent && s.targetKwh == c.found.value.capacityKwh * c.targetPercent / 100.0
    && s.lastBlendedKwh.None? && s.endPercent.None? && s.stats.None?
    && s.status == (match c.power
                    case PowerConfirmed => Active
                    case PowerUnconfirmed => Cancelled
                    case NoController => Pending)
    && s.startedAt == (if c.power.PowerConfirmed? then Some(c.now) else None)
    && (c.before.Some? ==> s.startTotalKwh == Some(c.before.value.total))
    && (c.before.None? && c.power.PowerConfirmed? && c.after.Some? ==> s.startTotalKwh == Some(c.after.value.total))
    && (c.before.None? && !(c.power.PowerConfirmed? && c.after.Some?) ==> s.startTotalKwh.None?)
    && match c.stages
       case None => s.holdPercent.None? && s.readyBy.None? && !s.carbonAwareHold
       case Some(stages) => s.holdPercent == Some(stages.holdPercent) && s.readyBy == Some(stages.readyBy)
                            && s.carbonAwareHold == stages.carbonAware
  }

  /** A pending session is activated, with the meter as it then stands where it is known. */
  lemma {:induction false} ActivatesExactly(w: World, id: SessionId, energy: Option<EnergyData>, now: Instant)
    requires RowsOk(w) && RowOf(w.rows, id).Some?
    ensures var s, t := RowOf(w.rows, id).value, Apply(w, Activate(id, energy, now));
            && t.relays == w.relays
            && (!s.status.Pending? ==> t == w)
            && (s.status.Pending? ==>
                  && RowOf(t.rows, id).Some? && var row := RowOf(t.rows, id).value;
                  && row == s.(status := Active, startedAt := Some(now), startTotalKwh := row.startTotalKwh)
                  && (energy.Some? ==> row.startTotalKwh == Some(energy.value.total))
                  && (energy.None? ==> row.startTotalKwh == s.startTotalKwh))
  {
    var i := FoundRow(w.rows, id);
    hide Index;
    DecidedRow(w, i, DecideActivate(w.rows, id, energy, now));
  }

  /** A holding session is charging again exactly when a resume that is due is confirmed; the
      power-on is sent as soon as it is due. */
  lemma {:induction false} ResumesExactly(w: World, id: SessionId, due: bool, confirmed: bool)
    requires RowsOk(w) && RowOf(w.rows, id).Some?
    ensures var s, t := RowOf(w.rows, id).value, Apply(w, Resume(id, due, confirmed));
            if s.status.Holding? && due
            then RowOf(t.rows, id) == Some(if confirmed then s.(status := Active, holdPercent := None) else s)
                 && t.relays == w.relays[s.plug := true]
            else t == w
  {
    var i := FoundRow(w.rows, id);
    assert RowOk(w.rows[i]);
    hide Index;
    DecidedRow(w, i, DecideResume(w.rows, id, due, confirmed));
  }

  /** A switch-on from outside resumes a hold, leaves another session alone, and on an idle plug
      starts a session to the vehicle's target, or cuts the power when there is nothing to
      charge. */
  lemma {:induction false} SwitchedOnExactly(w: World, c: StartCall)
    requires RowsOk(w) && c.id !in w.used
    ensures var i, t := Newest(w.rows, OnPlug(c.plug)), Apply(w, ManualOn(c));
            if i < |w.rows| then
              && t.relays == w.relays[c.plug := true]
              && RowOf(t.rows, w.rows[i].id)
                 == Some(if w.rows[i].status.Holding? then w.rows[i].(status := Active, holdPercent := None)
                         else w.rows[i])
            else if c.found.Some? && c.found.value.currentPercent < c.found.value.targetPercent then
              t == Apply(w.(relays := w.relays[c.plug := true]),
                         Start(c.(startPercent := c.found.value.currentPercent,
                                  targetPercent := c.found.value.targetPercent, stages := None)))
            else t == w.(relays := w.relays[c.plug := false])
  {
    var i := Newest(w.rows, OnPlug(c.plug));
    hide Index, Newest, RowAfterPower, NewRow;
    var u := Switched(w, ManualOn(c));
    if i < |w.rows| {
      DecidedRow(u, i, DecideManualOn(w, c));
    } else {
      assert u.relays[c.plug := false] == w.relays[c.plug := false];
    }
  }

  /** A plug that comes online is switched off exactly when it has no session in progress. */
  lemma {:induction false} ReconcilesExactly(w: World, plug: PlugId)
    ensures Apply(w, Reconcile(plug))
            == if HasSession(w.rows, plug, false) then w else w.(relays := w.relays[plug := false])
  {
    var i := Newest(w.rows, OnPlug(plug));
    assert HasSession(w.rows, plug, false) <==> i < |w.rows|;
    hide Newest, HasSession;
  }

  // ---------------------------------------------------------------- targets and levels

  /** A new target is accepted exactly for an active session, within 0 to 100 percent and ahead
      of the percent shown, or of the start while nothing is measured; and then it is the only
      thing that changes. */
  lemma {:induction false} ChangesTargetExactly(w: World, id: SessionId, target: real, energy: Option<EnergyData>,
                                                v: Option<Vehicle>, joinedKwh: real)
    requires RowsOk(w) && RowOf(w.rows, id).Some?
    ensures var s, t := RowOf(w.rows, id).value, Apply(w, UpdateTarget(id, target, energy, v, joinedKwh));
            var measured := energy.Some? && energy.value.total != 0.0 && s.startTotalKwh.Some?;
            if && s.status.Active? && 0.0 <= target <= 100.0
               && (!measured ==> s.startPercent < target)
               && (measured ==> HasBattery(v)
                                && Energy.CalculateProgress(s.EnergyView(), energy, v).currentPercent < target)
            then RowOf(t.rows, id) == Some(s.(targetPercent := target, targetKwh := joinedKwh * target / 100.0))
                 && t.relays == w.relays
            else t == w
  {
    var i := FoundRow(w.rows, id);
    hide Index, Energy.CalculateProgress;
    DecidedRow(w, i, DecideTarget(w.rows, id, target, energy, v, joinedKwh));
  }

  /** The late write of a level changes that and nothing else, even in a session that is over. */
  lemma {:induction false} StoresLevelExactly(w: World, id: SessionId, level: real)
    requires RowsOk(w) && RowOf(w.rows, id).Some?
    ensures var t := Apply(w, StoreLevel(id, level));
            && RowOf(t.rows, id) == Some(RowOf(w.rows, id).value.(lastBlendedKwh := Some(level)))
            && t.relays == w.relays
  {
    var i := FoundRow(w.rows, id);
    hide Index;
    DecidedRow(w, i, DecideStoreLevel(w.rows, id, level));
  }

  // ---------------------------------------------------------------- the figures

  /** The meter's rise, times the efficiency, reached the battery and left room in it. */
  ghost predicate Unclamped(s: Session, c: Closing) {
    && c.energy.Some? && c.energy.value.total > 0.0 && s.startTotalKwh.Some? && HasBattery(c.vehicle)
    && s.startKwh >= 0.0
    && var gained := Energy.Gained(s.startTotalKwh.value, c.energy.value, c.vehicle.value.Efficiency());
       gained > EPSILON_KWH && s.startKwh + gained <= c.vehicle.value.capacityKwh
  }

  /** The figures of such a session: the wall energy is the meter's rise, the battery energy that
      times the efficiency, the carbon the wall energy at the average intensity, the cost the
      bill, and the end percent the level reached. */
  lemma {:induction false} WallIsMeterRise(s: Session, c: Closing, percent: real)
    requires Unclamped(s, c)
    ensures var row, v := Finished(s, c, percent), c.vehicle.value;
            var rise := c.energy.value.total - s.startTotalKwh.value;
            && row.stats.value.wallKwh == rise
            && row.stats.value.batteryKwh == rise * v.Efficiency()
            && (c.avgCarbon.Some? ==> row.stats.value.co2Grams == rise * c.avgCarbon.value)
            && row.stats.value.costPence == CostPence(s.startTotalKwh, c)
            && row.endPercent == Some(Energy.Percent(s.startKwh + rise * v.Efficiency(), v))
  {
    var v := c.vehicle.value;
    var rise, eff := c.energy.value.total - s.startTotalKwh.value, v.Efficiency();
    EndOfUnclamped(s, c);
    FilledQuotient(rise, eff);
    hide EndFromEnergy, CostPence, Energy.Percent, Vehicle.Efficiency;
    assert EndData(s.startKwh, s.startTotalKwh, c, percent).kwh == s.startKwh + rise * eff;
  }

  lemma {:induction false} EndOfUnclamped(s: Session, c: Closing)
    requires Unclamped(s, c)
    ensures var v := c.vehicle.value;
            var kwh := s.startKwh + (c.energy.value.total - s.startTotalKwh.value) * v.Efficiency();
            && kwh > 0.0
            && EndFromEnergy(s.startKwh, s.startTotalKwh, c.energy, c.vehicle) == End(kwh, Energy.Percent(kwh, v))
  {
    var v := c.vehicle.value;
    var kwh := s.startKwh + Energy.Gained(s.startTotalKwh.value, c.energy.value, v.Efficiency());
    Energy.PercentKeepsOrder(0.0, kwh, v);
    Energy.PercentKeepsOrder(kwh, v.capacityKwh, v);
    FullPercent(v);
  }

  lemma FullPercent(v: Vehicle)
    requires v.capacityKwh > 0.0
    ensures Energy.Percent(v.capacityKwh, v) == 100.0
  {
    assert v.capacityKwh / v.capacityKwh == 1.0;
  }

  lemma FilledQuotient(x: real, y: real)
    requires y > 0.0
    ensures x * y / y == x
  {
  }

  /** What the meter gained filled the battery: the figures stop at a full one. */
  lemma {:induction false} FullBatteryCapsFigures(s: Session, c: Closing, percent: real)
    requires c.energy.Some? && c.energy.value.total > 0.0 && s.startTotalKwh.Some? && HasBattery(c.vehicle)
    requires 0.0 <= s.startKwh <= c.vehicle.value.capacityKwh
    requires var gained := Energy.Gained(s.startTotalKwh.value, c.energy.value, c.vehicle.value.Efficiency());
             gained > EPSILON_KWH && s.startKwh + gained > c.vehicle.value.capacityKwh
    ensures var row := Finished(s, c, percent);
            && row.endPercent == Some(100.0)
            && row.stats.value.batteryKwh == c.vehicle.value.capacityKwh - s.startKwh
  {
    var v := c.vehicle.value;
    FullPercent(v);
    hide CostPence, Vehicle.Efficiency;
    assert EndFromEnergy(s.startKwh, s.startTotalKwh, c.energy, c.vehicle) == End(v.capacityKwh, 100.0);
  }

  /** The meter shows no gain of the session. */
  ghost predicate NoGain(s: Session, c: Closing) {
    || c.energy.None? || c.energy.value.total <= 0.0 || s.startTotalKwh.None?
    || (c.vehicle.Some? &&
        Energy.Gained(s.startTotalKwh.value, c.energy.value, c.vehicle.value.Efficiency()) <= EPSILON_KWH)
  }

  /** Then the figures follow the percent the stop assumes. */
  lemma {:induction false} FiguresFromPercent(s: Session, c: Closing, percent: real)
    requires NoGain(s, c) && HasBattery(c.vehicle)
    ensures var row, level := Finished(s, c, percent), c.vehicle.value.capacityKwh * percent / 100.0;
            && row.endPercent == Some(percent)
            && row.stats.value.batteryKwh == Max(0.0, level - s.startKwh)
            && row.stats.value.wallKwh * c.vehicle.value.Efficiency() == row.stats.value.batteryKwh
  {
    hide CostPence, Vehicle.Efficiency;
    var battery, eff := Finished(s, c, percent).stats.value.batteryKwh, c.vehicle.value.Efficiency();
    assert battery / eff * eff == battery;
  }

  /** The cost of a session: with a tariff and a baseline, the energy of each window at its own
      rate and the rest at the base rate; otherwise nothing. */
  lemma {:induction false} CostByWindow(s: Session, c: Closing, percent: real)
    ensures var pence := Finished(s, c, percent).stats.value.costPence;
            if c.tariff.Some? && s.startTotalKwh.Some?
            then pence == Cost.ChargeOfWindows(s.startTotalKwh.value, Cost.ByTime(c.readings), c.tariff.value, c.zone,
                                               |c.tariff.value.offPeakWindows| + 1)
            else pence == 0.0
  {
    if c.tariff.Some? && s.startTotalKwh.Some? {
      Cost.ChargedByWindow(s.startTotalKwh.value, Cost.ByTime(c.readings), c.tariff.value, c.zone);
    }
    hide EndFromEnergy, EndData, Cost.ChargeOfWindows, Cost.BillOf, Cost.ByTime;
  }

  /** A stop that cannot judge by the meter records what the session was showing: the live percent
      while power is drawn, the persisted one otherwise, and the target when it showed none. */
  lemma StopPercentWithoutMeter(s: Session, energy: Option<EnergyData>, v: Option<Vehicle>)
    requires energy.None? || energy.value.total <= 0.0 || s.startTotalKwh.None? || !HasBattery(v)
    ensures var stored := Energy.CurrentPercentFromBlended(s.EnergyView(), v);
            var drawing := energy.Some? && energy.value.power > 0.0;
            && (s.status.Pending? ==> StopPercent(s, energy, v) == s.targetPercent)
            && (!s.status.Pending? && !drawing ==>
                  StopPercent(s, energy, v) == if stored.Some? then stored.value else s.targetPercent)
            && (!s.status.Pending? && drawing ==>
                  StopPercent(s, energy, v) == if HasBattery(v) && s.startTotalKwh.Some?
                                               then Energy.CalculateProgress(s.EnergyView(), energy, v).currentPercent
                                               else s.targetPercent)
  {
    hide Energy.CalculateProgress, Energy.CurrentPercentFromBlended;
  }

  /** A stop with a meter and a baseline records the level the meter shows, capped at full. */
  lemma StopPercentFromMeter(s: Session, e: EnergyData, v: Vehicle)
    requires e.total > 0.0 && s.startTotalKwh.Some? && v.capacityKwh > 0.0
    requires Energy.Level(s.EnergyView(), v, e) >= 0.0
    ensures StopPercent(s, Some(e), Some(v)) == Min(100.0, Energy.Percent(Energy.Level(s.EnergyView(), v, e), v))
  {
    hide Energy.Level, Energy.CalculateProgress;
    Energy.EndPercentAtLevel(s.EnergyView(), e, v);
    hide Energy.CalculateEndPercent, Energy.Percent;
  }

  /** The percents a cancellation knows: the persisted one, and the live one where the meter
      and the baseline are there. */
  ghost predicate IsKnownPercent(s: Session, energy: Option<EnergyData>, v: Option<Vehicle>, p: real) {
    || Energy.CurrentPercentFromBlended(s.EnergyView(), v) == Some(p)
    || (energy.Some? && energy.value.total > 0.0 && s.startTotalKwh.Some?
        && p == Energy.CalculateProgress(s.EnergyView(), energy, v).currentPercent)
  }

  /** A cancelled session records the highest percent known exactly when that is past its start. */
  lemma CancelsAtFurthest(s: Session, energy: Option<EnergyData>, v: Option<Vehicle>, p: real)
    requires HasBattery(v) && s.startPercent >= 0.0
    ensures CancelPercent(s, energy, v) == Some(p) <==>
              && p > s.startPercent && IsKnownPercent(s, energy, v, p)
              && forall q :: IsKnownPercent(s, energy, v, q) ==> q <= p
  {
    hide Energy.CalculateProgress, Energy.CurrentPercentFromBlended;
    var stored := Energy.CurrentPercentFromBlended(s.EnergyView(), v);
    var live := Energy.CalculateProgress(s.EnergyView(), energy, v).currentPercent;
    assert stored.Some? ==> IsKnownPercent(s, energy, v, stored.value);
    assert energy.Some? && energy.value.total > 0.0 && s.startTotalKwh.Some? ==> IsKnownPercent(s, energy, v, live);
  }
}
