/** What every run of service calls and worker checks keeps. */
module SessionRuns {
  import opened Wrappers
  import opened Clock
  import opened Models
  import Energy
  import Cost
  import Readings
  import opened Sessions

  // ---------------------------------------------------------------- legal moves

  /** Every change of status lowers this: pending, active towards a hold, holding, active
      towards the target, conditioning, over. */
  function Rank(s: Session): nat {
    match s.status
    case Pending => 5
    case Active => if s.holdPercent.Some? then 4 else 2
    case Holding => 3
    case Conditioning => 1
    case Completed => 0
    case Cancelled => 0
  }

  ghost predicate SameIdentity(a: Session, b: Session) {
    && a.id == b.id && a.vehicle == b.vehicle && a.plug == b.plug && a.createdAt == b.createdAt
    && a.startKwh == b.startKwh && a.startPercent == b.startPercent
    && a.readyBy == b.readyBy && a.carbonAwareHold == b.carbonAwareHold
  }

  /** The status changes that exist, apart from completion. */
  ghost predicate Transition(a: Session, b: Session) {
    match (a.status, b.status)
    case (Pending, Active) => b.holdPercent == a.holdPercent
    case (Active, Holding) => a.holdPercent.Some? && b.holdPercent == a.holdPercent
    case (Holding, Active) => b.holdPercent.None?
    case (Active, Conditioning) => a.holdPercent.None? && b.holdPercent.None? && b.targetPercent == MAX_PERCENT
    case (_, Cancelled) => a.InProgress() && b.holdPercent == a.holdPercent
    case _ => false
  }

  ghost predicate LegalEdit(a: Session, b: Session) {
    && SameIdentity(a, b) && b.stats == a.stats
    && if b.status == a.status then
         b.holdPercent == a.holdPercent && (b.targetPercent == a.targetPercent || a.status.Active?)
       else
         Transition(a, b)
  }

  ghost predicate NotNegative(s: Stats) {
    s.batteryKwh >= 0.0 && s.wallKwh >= 0.0 && s.co2Grams >= 0.0 && s.costPence >= 0.0
  }

  ghost predicate LegalFinish(a: Session, b: Session) {
    && SameIdentity(a, b) && b.holdPercent == a.holdPercent
    && (a.status.Active? || a.status.Conditioning? || a.status.Holding?)
    && b.status.Completed? && b.stats.Some? && NotNegative(b.stats.value)
  }

  ghost predicate LegalInsert(w: World, row: Session) {
    && row.id !in w.used && row.stats.None?
    && (row.status.Pending? || row.status.Active? || row.status.Cancelled?)
    && (row.holdPercent.Some? <==> row.readyBy.Some?)
    && forall j :: 0 <= j < |w.rows| && w.rows[j].InProgress() ==> w.rows[j].plug != row.plug
  }

  ghost predicate LegalEffect(w: World, e: Effect) {
    match e
    case Keep => true
    case Insert(row) => LegalInsert(w, row)
    case Edit(i, row) => i < |w.rows| && LegalEdit(w.rows[i], row)
    case Finish(i, row) => i < |w.rows| && LegalFinish(w.rows[i], row)
    case Remove(i) => i < |w.rows| && (!w.rows[i].InProgress() || w.rows[i].status.Holding?)
    case PurgeVehicle(_) => true
    case PurgePlug(_) => true
  }

  /** The effect takes the row away. */
  ghost predicate Deletes(rows: seq<Session>, e: Effect, i: int) {
    0 <= i < |rows| && ((e.Remove? && e.index == i) || Purged(e, rows[i]))
  }

  /** A session that has, or is about to get, the relay on. */
  predicate Charging(s: Session) {
    s.status.Active? || s.status.Conditioning? || s.status.Holding?
  }

  /** The session accounts for a relay being on: it is in progress and, if `strict`, not just
      pending. */
  predicate Accounts(s: Session, strict: bool) {
    s.InProgress() && (strict ==> Charging(s))
  }

  ghost predicate HasSession(rows: seq<Session>, plug: PlugId, strict: bool) {
    exists i :: 0 <= i < |rows| && rows[i].plug == plug && Accounts(rows[i], strict)
  }

  /** Power goes on only for a session, and goes off with the session's end. */
  ghost predicate LegalCommand(w: World, d: Decision) {
    && (d.command.Some? && d.command.value.on ==>
          HasSession(RowsAfter(w.rows, d.effect), d.command.value.plug, true))
    && (d.effect.Remove? || d.effect.PurgeVehicle? || d.effect.PurgePlug? ==> d.command.None?)
    && (d.effect.Finish? && d.effect.index < |w.rows| ==> d.command == Off(w.rows[d.effect.index]))
    && (d.effect.Edit? && d.effect.index < |w.rows| && !d.effect.row.InProgress() ==>
          d.command == Off(w.rows[d.effect.index]) || !w.rows[d.effect.index].InProgress())
  }

  ghost predicate Legal(w: World, d: Decision) {
    LegalEffect(w, d.effect) && LegalCommand(w, d)
  }

  /** Carbon intensities and tariffs have no negative figures. */
  ghost predicate ValidOp(op: Op) {
    match op
    case Stop(_, c) => ValidClosing(c)
    case AutoStop(_, c, _) => ValidClosing(c)
    case StopConditioning(_, c) => ValidClosing(c)
    case StopIdle(_, _, _, _, c) => ValidClosing(c)
    case ManualOff(_, c) => ValidClosing(c)
    case _ => true
  }

  lemma ProductNotNegative(x: real, y: real)
    requires x >= 0.0 && y >= 0.0
    ensures x * y >= 0.0
  {
  }

  lemma QuotientNotNegative(x: real, y: real)
    requires x >= 0.0 && y > 0.0
    ensures x / y >= 0.0
  {
  }

  lemma StatsNotNegative(startKwh: real, startTotalKwh: Option<real>, c: Closing, endKwh: real)
    requires ValidClosing(c)
    ensures NotNegative(StatsAt(startKwh, startTotalKwh, c, endKwh))
  {
    var t := StatsAt(startKwh, startTotalKwh, c, endKwh);
    QuotientNotNegative(t.batteryKwh, EfficiencyOf(c.vehicle));
    if c.avgCarbon.Some? {
      ProductNotNegative(t.wallKwh, c.avgCarbon.value);
    }
    if c.tariff.Some? && startTotalKwh.Some? {
      Cost.CostIsNotNegative(startTotalKwh.value, Cost.ByTime(c.readings), c.tariff.value, c.zone);
    }
  }

  lemma FinishIsLegal(s: Session, c: Closing, endPercent: real)
    requires ValidClosing(c) && Charging(s)
    ensures LegalFinish(s, Finished(s, c, endPercent))
  {
    StatsNotNegative(s.startKwh, s.startTotalKwh, c, EndData(s.startKwh, s.startTotalKwh, c, endPercent).kwh);
  }

  lemma StartIsLegal(w: World, c: StartCall)
    ensures Legal(w, DecideStart(w, c))
  {
    var d := DecideStart(w, c);
    if d.effect.Insert? {
      assert RowsAfter(w.rows, d.effect)[|w.rows|] == d.effect.row;
    }
  }

  lemma StopIsLegal(w: World, i: nat, c: Closing)
    requires i <= |w.rows| && (i < |w.rows| ==> w.rows[i].InProgress()) && ValidClosing(c)
    ensures Legal(w, DecideStop(w.rows, i, c))
  {
    if i < |w.rows| && !w.rows[i].status.Pending? {
      FinishIsLegal(w.rows[i], c, StopPercent(w.rows[i], c.energy, c.vehicle));
    }
  }

  lemma AutoStopIsLegal(w: World, id: SessionId, c: Closing, confirmed: bool)
    requires ValidClosing(c)
    ensures Legal(w, DecideAutoStop(w.rows, id, c, confirmed))
  {
    var i := Index(w.rows, id);
    if i < |w.rows| && w.rows[i].status.Active? && HasBattery(c.vehicle) {
      ProgressIsLegal(w, i, c, confirmed);
    }
  }

  lemma ProgressIsLegal(w: World, i: nat, c: Closing, confirmed: bool)
    requires ValidClosing(c) && HasBattery(c.vehicle) && i < |w.rows| && w.rows[i].status.Active?
    ensures Legal(w, DecideProgress(i, w.rows[i], c, confirmed))
  {
    var p := Energy.CalculateProgress(w.rows[i].EnergyView(), c.energy, c.vehicle);
    LevelIsLegal(w, i, w.rows[i].(lastBlendedKwh := Some(p.lastBlendedKwh)), p, c, confirmed);
  }

  lemma LevelIsLegal(w: World, i: nat, s: Session, p: Energy.Progress, c: Closing, confirmed: bool)
    requires ValidClosing(c) && HasBattery(c.vehicle) && i < |w.rows| && w.rows[i].status.Active?
    requires s == w.rows[i].(lastBlendedKwh := s.lastBlendedKwh)
    ensures Legal(w, DecideAt(i, s, p, c, confirmed))
  {
    FinishIsLegal(s, c, p.currentPercent);
    assert LegalFinish(w.rows[i], Finished(s, c, p.currentPercent));
  }

  lemma ConditioningIsLegal(w: World, id: SessionId, c: Closing)
    requires ValidClosing(c)
    ensures Legal(w, DecideConditioning(w.rows, id, c))
  {
    var i := Index(w.rows, id);
    if i < |w.rows| && w.rows[i].status.Conditioning? {
      FinishIsLegal(w.rows[i], c, w.rows[i].targetPercent);
    }
  }

  lemma IdleIsLegal(w: World, id: SessionId, readings: seq<Readings.PowerReading>, now: Instant, later: Instant,
                    c: Closing)
    requires ValidClosing(c)
    ensures Legal(w, DecideIdle(w.rows, id, readings, now, later, c))
  {
    var i := Index(w.rows, id);
    if i < |w.rows| && Charging(w.rows[i]) {
      FinishIsLegal(w.rows[i], c, MAX_PERCENT);
    }
  }

  lemma ResumeIsLegal(w: World, id: SessionId, due: bool, confirmed: bool)
    ensures Legal(w, DecideResume(w.rows, id, due, confirmed))
  {
    var i, d := Index(w.rows, id), DecideResume(w.rows, id, due, confirmed);
    if d.command.Some? {
      assert Charging(RowsAfter(w.rows, d.effect)[i]);
    }
  }

  lemma ManualOnIsLegal(w: World, c: StartCall)
    ensures Legal(w, DecideManualOn(w, c))
  {
    if c.found.Some? {
      StartIsLegal(w, c.(startPercent := c.found.value.currentPercent, targetPercent := c.found.value.targetPercent,
                         stages := None));
    }
  }

  lemma OtherStepsAreLegal(w: World, op: Op)
    requires op.Activate? || op.Timeout? || op.Offline? || op.Disconnect? || op.StoreLevel?
             || op.Delete? || op.Reconcile? || op.DeleteVehicle? || op.DeletePlug?
    ensures Legal(w, Decide(w, op))
  {
  }

  lemma TargetIsLegal(w: World, id: SessionId, target: real, energy: Option<EnergyData>, v: Option<Vehicle>,
                      joinedKwh: real)
    ensures Legal(w, DecideTarget(w.rows, id, target, energy, v, joinedKwh))
  {
  }

  /** Every step of every service call and worker check is a legal move. */
  lemma StepIsLegal(w: World, op: Op)
    requires ValidOp(op)
    ensures Legal(w, Decide(w, op))
  {
    match op {
      case Start(c) => StartIsLegal(w, c);
      case Stop(which, c) => StopIsLegal(w, Newest(w.rows, which), c);
      case AutoStop(id, c, confirmed) => AutoStopIsLegal(w, id, c, confirmed);
      case StopConditioning(id, c) => ConditioningIsLegal(w, id, c);
      case StopIdle(id, readings, now, later, c) => IdleIsLegal(w, id, readings, now, later, c);
      case Resume(id, due, confirmed) => ResumeIsLegal(w, id, due, confirmed);
      case ManualOff(plug, c) => StopIsLegal(w, Newest(w.rows, OnPlug(plug)), c);
      case ManualOn(c) => ManualOnIsLegal(w, c);
      case UpdateTarget(id, target, energy, v, joinedKwh) => TargetIsLegal(w, id, target, energy, v, joinedKwh);
      case _ => OtherStepsAreLegal(w, op);
    }
  }

  // ---------------------------------------------------------------- rows in every reachable state

  /** Holding sessions know where and by when; conditioning ones charge to a full battery and
      have no hold left; completed ones, and no others, have their figures. */
  ghost predicate RowOk(s: Session) {
    && (s.holdPercent.Some? ==> s.readyBy.Some?)
    && (s.status.Holding? ==> s.holdPercent.Some?)
    && (s.status.Conditioning? ==> s.targetPercent == MAX_PERCENT && s.holdPercent.None?)
    && (s.status.Completed? <==> s.stats.Some?)
    && (s.stats.Some? ==> NotNegative(s.stats.value))
  }

  ghost predicate DistinctIds(rows: seq<Session>) {
    forall i, j :: 0 <= i < j < |rows| ==> rows[i].id != rows[j].id
  }

  ghost predicate OnePerPlug(rows: seq<Session>) {
    forall i, j :: 0 <= i < j < |rows| && rows[i].InProgress() && rows[j].InProgress() ==> rows[i].plug != rows[j].plug
  }

  ghost predicate RowsOk(w: World) {
    && (forall i :: 0 <= i < |w.rows| ==> RowOk(w.rows[i]) && w.rows[i].id in w.used)
    && DistinctIds(w.rows) && OnePerPlug(w.rows)
  }

  lemma {:induction false} InsertKeepsRows(w: World, row: Session)
    requires RowsOk(w) && LegalInsert(w, row)
    ensures RowsOk(w.(rows := w.rows + [row], used := w.used + {row.id}))
  {
  }

  lemma {:induction false} ReplaceKeepsRows(w: World, i: nat, row: Session)
    requires RowsOk(w) && i < |w.rows| && (LegalEdit(w.rows[i], row) || LegalFinish(w.rows[i], row))
    ensures RowsOk(w.(rows := w.rows[i := row]))
  {
    assert RowOk(row);
    assert row.InProgress() ==> w.rows[i].InProgress();
  }

  lemma {:induction false} RemoveKeepsRows(w: World, i: nat)
    requires RowsOk(w) && i < |w.rows|
    ensures RowsOk(w.(rows := Without(w.rows, i)))
  {
  }

  /** A purge keeps exactly the rows it does not name. */
  lemma {:induction false} UnpurgedRows(rows: seq<Session>, e: Effect)
    ensures forall s :: s in Unpurged(rows, e) <==> s in rows && !Purged(e, s)
  {
    if rows != [] {
      UnpurgedRows(rows[..|rows| - 1], e);
      assert rows == rows[..|rows| - 1] + [rows[|rows| - 1]];
    }
  }

  lemma {:induction false} PurgeKeepsDistinct(rows: seq<Session>, e: Effect)
    requires DistinctIds(rows) && OnePerPlug(rows)
    ensures DistinctIds(Unpurged(rows, e)) && OnePerPlug(Unpurged(rows, e))
  {
    if rows != [] {
      var n := |rows| - 1;
      PurgeKeepsDistinct(rows[..n], e);
      UnpurgedRows(rows[..n], e);
      var front := Unpurged(rows[..n], e);
      forall i | 0 <= i < |front|
        ensures front[i].id != rows[n].id
        ensures front[i].InProgress() && rows[n].InProgress() ==> front[i].plug != rows[n].plug
      {
        assert front[i] in rows[..n];
      }
    }
  }

  lemma {:induction false} PurgeKeepsRows(w: World, e: Effect)
    requires RowsOk(w)
    ensures RowsOk(w.(rows := Unpurged(w.rows, e)))
  {
    PurgeKeepsDistinct(w.rows, e);
    UnpurgedRows(w.rows, e);
    var rows := Unpurged(w.rows, e);
    forall i | 0 <= i < |rows| ensures RowOk(rows[i]) && rows[i].id in w.used {
      assert rows[i] in w.rows;
    }
  }

  lemma {:induction false} LegalKeepsRows(w: World, d: Decision)
    requires RowsOk(w) && LegalEffect(w, d.effect)
    ensures RowsOk(Perform(w, d))
  {
    match d.effect
    case Keep =>
    case Insert(row) => InsertKeepsRows(w, row);
    case Edit(i, row) => ReplaceKeepsRows(w, i, row);
    case Finish(i, row) => ReplaceKeepsRows(w, i, row);
    case Remove(i) => RemoveKeepsRows(w, i);
    case PurgeVehicle(_) => PurgeKeepsRows(w, d.effect);
    case PurgePlug(_) => PurgeKeepsRows(w, d.effect);
  }

  /** Ids of new sessions have not been used before. */
  ghost predicate FreshId(w: World, op: Op) {
    op.Start? || op.ManualOn? ==> op.call.id !in w.used
  }

  ghost predicate Stepped(w: World, op: Op, w': World) {
    ValidOp(op) && FreshId(w, op) && w' == Apply(w, op)
  }

  /** The worlds of a run: one more than its operations, from the empty one on. */
  ghost predicate IsRun(ws: seq<World>, ops: seq<Op>) {
    && |ws| == |ops| + 1 && ws[0] == EMPTY_WORLD
    && forall k :: 0 <= k < |ops| ==> Stepped(ws[k], ops[k], ws[k + 1])
  }

  lemma StepKeepsRows(w: World, op: Op, w': World)
    requires RowsOk(w) && Stepped(w, op, w')
    ensures RowsOk(w')
  {
    StepIsLegal(w, op);
    LegalKeepsRows(Switched(w, op), Decide(w, op));
  }

  /** In every reachable state a plug has at most one session in progress, and every row is
      well-formed. */
  lemma {:induction false} RowsAlwaysOk(ws: seq<World>, ops: seq<Op>, k: nat)
    requires IsRun(ws, ops) && k < |ws|
    ensures RowsOk(ws[k])
  {
    if k > 0 {
      RowsAlwaysOk(ws, ops, k - 1);
      assert Stepped(ws[k - 1], ops[k - 1], ws[(k - 1) + 1]);
      StepKeepsRows(ws[k - 1], ops[k - 1], ws[k]);
    }
  }

  // ---------------------------------------------------------------- one session over a run

  function RowOf(rows: seq<Session>, id: SessionId): Option<Session> {
    var i := Index(rows, id);
    if i < |rows| then Some(rows[i]) else None
  }

  lemma {:induction false} RowOfIs(rows: seq<Session>, id: SessionId, i: nat)
    requires DistinctIds(rows) && i < |rows| && rows[i].id == id
    ensures RowOf(rows, id) == Some(rows[i])
  {
    var j := Index(rows, id);
    assert j <= i && rows[j].id == rows[i].id;
  }

  /** A session only moves down in rank, and strictly when its status differs. */
  ghost predicate Descends(before: Option<Session>, after: Option<Session>) {
    before.Some? && after.Some? ==>
      && SameIdentity(before.value, after.value)
      && Rank(after.value) <= Rank(before.value)
      && (after.value.status != before.value.status ==> Rank(after.value) < Rank(before.value))
  }

  lemma {:induction false} KnownIds(w: World, id: SessionId)
    requires RowsOk(w)
    ensures RowOf(w.rows, id).Some? ==> id in w.used
  {
  }

  /** What a later world has of a session: the same session at no higher a rank; and a
      session once gone stays gone. */
  ghost predicate Follows(w: World, w': World, id: SessionId) {
    && Descends(RowOf(w.rows, id), RowOf(w'.rows, id))
    && w.used <= w'.used
    && (id in w.used && RowOf(w.rows, id).None? ==> RowOf(w'.rows, id).None?)
  }

  ghost predicate RankMarksStatus(before: Option<Session>, after: Option<Session>) {
    before.Some? && after.Some? ==>
      (Rank(after.value) < Rank(before.value) <==> after.value.status != before.value.status)
  }

  /** A purge leaves a row as it was or not at all. */
  lemma {:induction false} PurgeFollows(w: World, e: Effect, id: SessionId)
    requires RowsOk(w) && (e.PurgeVehicle? || e.PurgePlug?) && DistinctIds(Unpurged(w.rows, e))
    ensures RowOf(Unpurged(w.rows, e), id).None? || RowOf(Unpurged(w.rows, e), id) == RowOf(w.rows, id)
  {
    var rows' := Unpurged(w.rows, e);
    var j := Index(rows', id);
    UnpurgedRows(w.rows, e);
    if j < |rows'| {
      RowOfIs(rows', id, j);
      assert rows'[j] in w.rows;
      var i :| 0 <= i < |w.rows| && w.rows[i] == rows'[j];
      RowOfIs(w.rows, id, i);
    }
  }

  /** The session is the same row, or the row legally rewritten. */
  ghost predicate Moves(a: Session, b: Session) {
    a == b || LegalEdit(a, b) || LegalFinish(a, b)
  }

  lemma MovesDescend(a: Session, b: Session)
    requires Moves(a, b)
    ensures Descends(Some(a), Some(b)) && RankMarksStatus(Some(a), Some(b))
  {
  }

  /** A session found after a step that purges nothing is new, or was there before. */
  lemma {:induction false} LegalMoves(w: World, d: Decision, id: SessionId)
    requires RowsOk(w) && LegalEffect(w, d.effect) && DistinctIds(RowsAfter(w.rows, d.effect))
    requires !d.effect.PurgeVehicle? && !d.effect.PurgePlug?
    ensures var before, after := RowOf(w.rows, id), RowOf(RowsAfter(w.rows, d.effect), id);
            after.Some? ==> if before.Some? then Moves(before.value, after.value) else id !in w.used
  {
    hide LegalEdit, LegalFinish, RowOk, OnePerPlug;
    var rows' := RowsAfter(w.rows, d.effect);
    var j := Index(rows', id);
    if j < |rows'| {
      RowOfIs(rows', id, j);
      var i := if d.effect.Remove? && d.effect.index <= j then j + 1 else j;
      if i < |w.rows| {
        LegalEditKeepsId(w.rows[i], rows'[j]);
        RowOfIs(w.rows, id, i);
      }
    }
  }

  lemma LegalEditKeepsId(a: Session, b: Session)
    ensures LegalEdit(a, b) || LegalFinish(a, b) ==> a.id == b.id
  {
  }

  lemma {:induction false} LegalFollows(w: World, d: Decision, id: SessionId)
    requires RowsOk(w) && LegalEffect(w, d.effect)
    ensures Follows(w, Perform(w, d), id)
    ensures RankMarksStatus(RowOf(w.rows, id), RowOf(RowsAfter(w.rows, d.effect), id))
  {
    hide LifetimesAfter, RelaysAfter, LegalEffect, Moves, RowOf, RowOk, OnePerPlug, Rank, SameIdentity;
    LegalKeepsRows(w, d);
    KnownIds(w, id);
    var before, after := RowOf(w.rows, id), RowOf(RowsAfter(w.rows, d.effect), id);
    if d.effect.PurgeVehicle? || d.effect.PurgePlug? {
      PurgeFollows(w, d.effect, id);
      if before.Some? {
        assert Moves(before.value, before.value) by { Same(before.value); }
        MovesDescend(before.value, before.value);
      }
    } else {
      LegalMoves(w, d, id);
      if before.Some? && after.Some? {
        MovesDescend(before.value, after.value);
      }
    }
  }

  lemma Same(a: Session)
    ensures Moves(a, a)
  {
  }

  /** A step lowers the rank exactly when it changes the status. */
  lemma {:induction false} StepFollows(w: World, op: Op, w': World, id: SessionId)
    requires RowsOk(w) && Stepped(w, op, w')
    ensures Follows(w, w', id)
    ensures RankMarksStatus(RowOf(w.rows, id), RowOf(w'.rows, id))
  {
    StepIsLegal(w, op);
    var d := Decide(w, op);
    LegalFollows(Switched(w, op), d, id);
  }

  lemma {:induction false} FollowsChains(u: World, v: World, w: World, id: SessionId)
    requires RowsOk(u) && Follows(u, v, id) && Follows(v, w, id)
    ensures Follows(u, w, id)
  {
    KnownIds(u, id);
  }

  lemma {:induction false} FollowsThroughout(ws: seq<World>, n: nat, m: nat, id: SessionId)
    requires n <= m < |ws|
    requires forall k :: 0 <= k < |ws| ==> RowsOk(ws[k])
    requires forall k :: 0 <= k < |ws| - 1 ==> Follows(ws[k], ws[k + 1], id)
    ensures Follows(ws[n], ws[m], id)
  {
    if n < m {
      FollowsThroughout(ws, n, m - 1, id);
      assert Follows(ws[m - 1], ws[(m - 1) + 1], id);
      FollowsChains(ws[n], ws[m - 1], ws[m], id);
    }
  }

  /** The same between any two points of any run. */
  lemma {:induction false} RunFollows(ws: seq<World>, ops: seq<Op>, n: nat, m: nat, id: SessionId)
    requires IsRun(ws, ops) && n <= m < |ws|
    ensures Follows(ws[n], ws[m], id)
  {
    forall k | 0 <= k < |ws| ensures RowsOk(ws[k]) {
      RowsAlwaysOk(ws, ops, k);
    }
    forall k | 0 <= k < |ws| - 1 ensures Follows(ws[k], ws[k + 1], id) {
      StepFollows(ws[k], ops[k], ws[k + 1], id);
    }
    FollowsThroughout(ws, n, m, id);
  }

  /** A completed or cancelled session keeps its status for good. */
  lemma TerminalIsFinal(ws: seq<World>, ops: seq<Op>, n: nat, m: nat, id: SessionId)
    requires IsRun(ws, ops) && n <= m < |ws|
    requires RowOf(ws[n].rows, id).Some? && !RowOf(ws[n].rows, id).value.InProgress()
    ensures RowOf(ws[m].rows, id).None? || RowOf(ws[m].rows, id).value.status == RowOf(ws[n].rows, id).value.status
  {
    RunFollows(ws, ops, n, m, id);
  }

  ghost predicate Holds(w: World, id: SessionId) {
    RowOf(w.rows, id).Some? && RowOf(w.rows, id).value.status.Holding?
  }

  /** A session holds at most once: having held and left, it never holds again. */
  lemma HoldsOnce(ws: seq<World>, ops: seq<Op>, n: nat, m: nat, k: nat, id: SessionId)
    requires IsRun(ws, ops) && n <= m <= k < |ws|
    requires Holds(ws[n], id) && !Holds(ws[m], id)
    ensures !Holds(ws[k], id)
  {
    RowsAlwaysOk(ws, ops, n);
    KnownIds(ws[n], id);
    RunFollows(ws, ops, n, m, id);
    RunFollows(ws, ops, m, k, id);
  }

  // ---------------------------------------------------------------- the relay

  ghost predicate IsOn(w: World, plug: PlugId) {
    plug in w.relays && w.relays[plug]
  }

  /** A relay last switched on, by a command or from outside, has a session in progress; if
      `strict`, one that is not just pending. */
  ghost predicate Tracked(w: World, strict: bool) {
    forall plug :: IsOn(w, plug) ==> HasSession(w.rows, plug, strict)
  }

  /** A session in progress is deleted while its relay was last switched on. */
  ghost predicate DeletesPowered(w: World, e: Effect, strict: bool) {
    exists i :: Deletes(w.rows, e, i) && Accounts(w.rows[i], strict) && IsOn(w, w.rows[i].plug)
  }

  predicate BatterylessBelowTarget(v: Option<Vehicle>) {
    v.Some? && v.value.capacityKwh <= 0.0 && v.value.currentPercent < v.value.targetPercent
  }

  /** An external power-on of an idle plug is refused without cutting power. */
  predicate RefusesPowerOn(w: World, c: StartCall) {
    Newest(w.rows, OnPlug(c.plug)) == |w.rows| && BatterylessBelowTarget(c.found)
  }

  /** An external power-on leaves the plug with a session that is only pending. */
  predicate LeavesPending(w: World, c: StartCall) {
    var i := Newest(w.rows, OnPlug(c.plug));
    if i < |w.rows| then w.rows[i].status.Pending?
    else c.found.Some? && c.found.value.currentPercent < c.found.value.targetPercent
         && c.found.value.capacityKwh > 0.0 && c.power.NoController?
  }

  ghost predicate LosesRelay(w: World, op: Op, strict: bool) {
    || DeletesPowered(w, Decide(w, op).effect, strict)
    || (op.ManualOn? && RefusesPowerOn(w, op.call))
    || (strict && op.ManualOn? && LeavesPending(w, op.call))
  }

  /** A row survives the step, or is rewritten by it. */
  lemma {:induction false} RowStays(w: World, e: Effect, i: nat)
    requires LegalEffect(w, e) && i < |w.rows| && !Deletes(w.rows, e, i)
    ensures (if (e.Edit? || e.Finish?) && e.index == i then e.row else w.rows[i]) in RowsAfter(w.rows, e)
  {
    match e
    case Keep =>
    case Insert(row) => assert RowsAfter(w.rows, e)[i] == w.rows[i];
    case Edit(k, row) => assert RowsAfter(w.rows, e)[i] == if k == i then row else w.rows[i];
    case Finish(k, row) => assert RowsAfter(w.rows, e)[i] == if k == i then row else w.rows[i];
    case Remove(k) => assert RowsAfter(w.rows, e)[if k < i then i - 1 else i] == w.rows[i];
    case PurgeVehicle(_) => UnpurgedRows(w.rows, e);
    case PurgePlug(_) => UnpurgedRows(w.rows, e);
  }

  lemma {:induction false} SessionStays(w: World, d: Decision, plug: PlugId, strict: bool)
    requires Legal(w, d) && !DeletesPowered(w, d.effect, strict)
    requires HasSession(w.rows, plug, strict) && IsOn(w, plug)
    ensures HasSession(RowsAfter(w.rows, d.effect), plug, strict) || d.command == Some(Command(plug, false))
  {
    var i :| 0 <= i < |w.rows| && w.rows[i].plug == plug && Accounts(w.rows[i], strict);
    RowStays(w, d.effect, i);
    var row := if (d.effect.Edit? || d.effect.Finish?) && d.effect.index == i then d.effect.row else w.rows[i];
    var j :| 0 <= j < |RowsAfter(w.rows, d.effect)| && RowsAfter(w.rows, d.effect)[j] == row;
  }

  /** A legal decision in a tracked world loses a relay exactly by a deletion. */
  lemma {:induction false} DecisionLosesExactly(w: World, d: Decision, strict: bool)
    requires RowsOk(w) && Legal(w, d) && Tracked(w, strict)
    ensures Tracked(Perform(w, d), strict) <==> !DeletesPowered(w, d.effect, strict)
  {
    if DeletesPowered(w, d.effect, strict) {
      var i :| Deletes(w.rows, d.effect, i) && Accounts(w.rows[i], strict) && IsOn(w, w.rows[i].plug);
      NothingElseOnPlug(w, d.effect, i);
      assert IsOn(Perform(w, d), w.rows[i].plug);
      assert !HasSession(Perform(w, d).rows, w.rows[i].plug, strict);
    } else {
      forall plug | IsOn(Perform(w, d), plug)
        ensures HasSession(Perform(w, d).rows, plug, strict)
      {
        if d.command.None? || d.command.value.plug != plug {
          SessionStays(w, d, plug, strict);
        } else {
          PowerOnHasSession(w, d, plug, strict);
        }
      }
    }
  }

  lemma {:induction false} PowerOnHasSession(w: World, d: Decision, plug: PlugId, strict: bool)
    requires Legal(w, d) && d.command == Some(Command(plug, true))
    ensures HasSession(RowsAfter(w.rows, d.effect), plug, strict)
  {
    var rows := RowsAfter(w.rows, d.effect);
    var i :| 0 <= i < |rows| && rows[i].plug == plug && Accounts(rows[i], true);
    assert Accounts(rows[i], strict);
  }

  lemma {:induction false} NothingElseOnPlug(w: World, e: Effect, i: nat)
    requires RowsOk(w) && Deletes(w.rows, e, i) && w.rows[i].InProgress()
    ensures forall strict :: !HasSession(RowsAfter(w.rows, e), w.rows[i].plug, strict)
  {
    if e.Remove? {
      NoOtherOnPlug(w.rows, i);
    } else {
      UnpurgedRows(w.rows, e);
      var rest := Unpurged(w.rows, e);
      forall j | 0 <= j < |rest| && rest[j].plug == w.rows[i].plug ensures !rest[j].InProgress() {
        assert rest[j] in w.rows && !Purged(e, rest[j]);
        var k :| 0 <= k < |w.rows| && w.rows[k] == rest[j];
        assert k != i;
      }
    }
  }

  lemma {:induction false} NoOtherOnPlug(rows: seq<Session>, i: nat)
    requires OnePerPlug(rows) && i < |rows| && rows[i].InProgress()
    ensures forall strict :: !HasSession(Without(rows, i), rows[i].plug, strict)
  {
    var rest := Without(rows, i);
    forall j | 0 <= j < |rest| && rest[j].plug == rows[i].plug ensures !rest[j].InProgress() {
      assert rest[j] == rows[if j < i then j else j + 1];
    }
  }

  /** After an external power-on the plug's relay has a session or is cut, unless the start is
      refused for want of a battery or leaves the session pending. */
  lemma {:induction false} ManualOnTracksOrCuts(w: World, c: StartCall, strict: bool)
    requires RowsOk(w) && c.id !in w.used
    ensures var t := Apply(w, ManualOn(c));
            IsOn(t, c.plug) && !HasSession(t.rows, c.plug, strict) <==>
            RefusesPowerOn(w, c) || (strict && LeavesPending(w, c))
  {
    hide HasSession, RowsOk, Accounts, RefusesPowerOn, LeavesPending, Apply;
    if Newest(w.rows, OnPlug(c.plug)) < |w.rows| {
      PowerOnWithSession(w, c, strict);
    } else {
      PowerOnWhenIdle(w, c, strict);
    }
  }

  lemma {:induction false} PowerOnWithSession(w: World, c: StartCall, strict: bool)
    requires RowsOk(w) && Newest(w.rows, OnPlug(c.plug)) < |w.rows|
    ensures var t := Apply(w, ManualOn(c));
            IsOn(t, c.plug) && !HasSession(t.rows, c.plug, strict) <==>
            RefusesPowerOn(w, c) || (strict && LeavesPending(w, c))
  {
    hide HasSession, RowsOk, StartErrorOf, NewRow, RowAfterPower, Unpurged;
    var i, rows := Newest(w.rows, OnPlug(c.plug)), Apply(w, ManualOn(c)).rows;
    assert rows[i].plug == c.plug && rows[i].InProgress();
    assert Accounts(rows[i], strict) <==> !(strict && w.rows[i].status.Pending?);
    OnlySession(w, rows, i, c.plug, strict);
  }

  lemma {:induction false} PowerOnWhenIdle(w: World, c: StartCall, strict: bool)
    requires c.id !in w.used && Newest(w.rows, OnPlug(c.plug)) == |w.rows|
    ensures var t := Apply(w, ManualOn(c));
            IsOn(t, c.plug) && !HasSession(t.rows, c.plug, strict) <==>
            RefusesPowerOn(w, c) || (strict && LeavesPending(w, c))
  {
    hide Unpurged, Newest;
    var d, rows := DecideManualOn(w, c), Apply(w, ManualOn(c)).rows;
    assert forall j :: 0 <= j < |w.rows| ==> rows[j] == w.rows[j] && !Matches(OnPlug(c.plug), w.rows[j]);
    if d.effect.Insert? {
      assert rows[|w.rows|] == d.effect.row && |rows| == |w.rows| + 1;
    }
  }

  /** With row i in progress on the plug, only row i can account for its relay. */
  lemma {:induction false} OnlySession(w: World, rows: seq<Session>, i: nat, plug: PlugId, strict: bool)
    requires RowsOk(w) && i < |w.rows| == |rows| && w.rows[i].plug == plug && w.rows[i].InProgress()
    requires rows == w.rows[i := rows[i]] && rows[i].plug == plug
    ensures HasSession(rows, plug, strict) <==> Accounts(rows[i], strict)
  {
    forall j | 0 <= j < |rows| && j != i ensures !(rows[j].plug == plug && Accounts(rows[j], strict)) {
      assert rows[j] == w.rows[j];
    }
  }

  /** An external power-on takes no session away. */
  lemma {:induction false} PowerOnKeepsOthers(w: World, c: StartCall, plug: PlugId, strict: bool)
    requires HasSession(w.rows, plug, strict)
    ensures HasSession(Apply(w, ManualOn(c)).rows, plug, strict)
  {
    var i :| 0 <= i < |w.rows| && w.rows[i].plug == plug && Accounts(w.rows[i], strict);
    assert Apply(w, ManualOn(c)).rows[i].plug == plug && Accounts(Apply(w, ManualOn(c)).rows[i], strict);
  }

  lemma {:induction false} PowerOnTracks(w: World, c: StartCall, strict: bool)
    requires RowsOk(w) && c.id !in w.used && Tracked(w, strict)
    ensures Tracked(Apply(w, ManualOn(c)), strict) <==> !(RefusesPowerOn(w, c) || (strict && LeavesPending(w, c)))
  {
    var t := Apply(w, ManualOn(c));
    ManualOnTracksOrCuts(w, c, strict);
    forall plug | plug != c.plug && IsOn(t, plug) ensures HasSession(t.rows, plug, strict) {
      OtherRelays(w, c, plug);
      PowerOnKeepsOthers(w, c, plug, strict);
    }
  }

  lemma OtherRelays(w: World, c: StartCall, plug: PlugId)
    requires plug != c.plug
    ensures IsOn(Apply(w, ManualOn(c)), plug) <==> IsOn(w, plug)
  {
  }

  /** An external power-off stops the plug's session and never loses a relay. */
  lemma {:induction false} PowerOffTracks(w: World, plug: PlugId, c: Closing, strict: bool)
    requires RowsOk(w) && ValidClosing(c) && Tracked(w, strict)
    ensures Tracked(Apply(w, ManualOff(plug, c)), strict)
  {
    hide Decide, Legal, Perform, HasSession, ValidClosing;
    var u, d := Switched(w, ManualOff(plug, c)), Decide(w, ManualOff(plug, c));
    StepIsLegal(w, ManualOff(plug, c));
    LegalAnyRelays(w, u, d);
    PowerOffDeletesNothing(w, u, plug, c, strict);
    assert Tracked(u, strict) by {
      assert forall p :: IsOn(u, p) ==> IsOn(w, p);
    }
    DecisionLosesExactly(u, d, strict);
  }

  lemma LegalAnyRelays(w: World, u: World, d: Decision)
    requires u == w.(relays := u.relays) && Legal(w, d)
    ensures Legal(u, d)
  {
  }

  lemma PowerOffDeletesNothing(w: World, u: World, plug: PlugId, c: Closing, strict: bool)
    ensures !DeletesPowered(u, Decide(w, ManualOff(plug, c)).effect, strict)
  {
  }

  /** A step leaves a relay that was last switched on, by a command or from outside, without a
      session exactly when it deletes a session in progress whose relay was last switched on
      (a holding one by itself, any with its vehicle or its plug), or is an external power-on
      refused for want of a battery. If the session must be more than pending, an external
      power-on may also leave it pending. */
  lemma {:induction false} RelayLostExactly(w: World, op: Op, strict: bool)
    requires RowsOk(w) && ValidOp(op) && FreshId(w, op) && Tracked(w, strict)
    ensures Tracked(Apply(w, op), strict) <==> !LosesRelay(w, op, strict)
  {
    hide Decide, Legal, ValidClosing, Tracked, RowsOk, DeletesPowered, RefusesPowerOn, LeavesPending, Perform;
    match op {
      case ManualOn(c) =>
        PowerOnTracks(w, c, strict);
        PowerOnDeletesNothing(w, c, strict);
      case ManualOff(plug, c) =>
        PowerOffTracks(w, plug, c, strict);
        PowerOffDeletesNothing(w, w, plug, c, strict);
      case _ =>
        StepIsLegal(w, op);
        DecisionLosesExactly(w, Decide(w, op), strict);
    }
  }

  lemma PowerOnDeletesNothing(w: World, c: StartCall, strict: bool)
    ensures !DeletesPowered(w, Decide(w, ManualOn(c)).effect, strict)
  {
  }

  /** On every run without such a step, a relay last switched on, by a command or from outside,
      has a session in progress, whatever was confirmed; and one past pending, if no external
      power-on left it pending. */
  lemma {:induction false} RelayAlwaysTracked(ws: seq<World>, ops: seq<Op>, k: nat, strict: bool)
    requires IsRun(ws, ops) && k < |ws|
    requires forall j :: 0 <= j < |ops| ==> !LosesRelay(ws[j], ops[j], strict)
    ensures Tracked(ws[k], strict)
  {
    hide LosesRelay, Tracked, RowsOk, Apply, ValidOp, FreshId;
    if k == 0 {
      NothingIsOn(strict);
    } else {
      RelayAlwaysTracked(ws, ops, k - 1, strict);
      RowsAlwaysOk(ws, ops, k - 1);
      assert Stepped(ws[k - 1], ops[k - 1], ws[(k - 1) + 1]);
      RelayLostExactly(ws[k - 1], ops[k - 1], strict);
    }
  }

  lemma NothingIsOn(strict: bool)
    ensures Tracked(EMPTY_WORLD, strict)
  {
  }

  /** The exceptions are real. Deleting any holding session right after an unconfirmed resume
      leaves its plug's relay on with no session. */
  lemma {:induction false} DeletedHoldLosesRelay(w: World, id: SessionId)
    requires RowsOk(w) && Holds(w, id)
    ensures var resumed := Apply(w, Resume(id, true, false));
            !Tracked(Apply(resumed, Delete(id)), false)
  {
    var i := Index(w.rows, id);
    var plug := w.rows[i].plug;
    var resumed := Apply(w, Resume(id, true, false));
    assert resumed == w.(relays := w.relays[plug := true]);
    var deleted := Apply(resumed, Delete(id));
    assert deleted.rows == Without(w.rows, i) && deleted.relays == resumed.relays;
    NoOtherOnPlug(w.rows, i);
    assert IsOn(deleted, plug) && !HasSession(deleted.rows, plug, false);
  }

  /** So does deleting the vehicle, or the plug, of any session in progress with its relay on. */
  lemma {:induction false} CascadeLosesRelay(w: World, i: nat, op: Op)
    requires RowsOk(w) && i < |w.rows| && w.rows[i].InProgress() && IsOn(w, w.rows[i].plug)
    requires op == DeleteVehicle(w.rows[i].vehicle) || op == DeletePlug(w.rows[i].plug)
    ensures !Tracked(Apply(w, op), false)
  {
    NothingElseOnPlug(w, Decide(w, op).effect, i);
    assert IsOn(Apply(w, op), w.rows[i].plug) && !HasSession(Apply(w, op).rows, w.rows[i].plug, false);
  }

  /** The relay need not have been switched on by the service: a hold resumed by an external
      power-on and then deleted with its plug leaves it on as well. */
  lemma {:induction false} ResumedByHandThenDeleted(w: World, id: SessionId, c: StartCall)
    requires RowsOk(w) && Holds(w, id) && c.plug == RowOf(w.rows, id).value.plug && c.id !in w.used
    ensures var resumed := Apply(w, ManualOn(c));
            && RowOf(resumed.rows, id).Some? && RowOf(resumed.rows, id).value.status.Active?
            && !Tracked(Apply(resumed, DeletePlug(c.plug)), false)
  {
    var i := Index(w.rows, id);
    var n := Newest(w.rows, OnPlug(c.plug));
    assert n == i;
    var resumed := Apply(w, ManualOn(c));
    assert resumed.rows == w.rows[i := ResumedRow(w.rows[i])];
    StepKeepsRows(w, ManualOn(c), resumed);
    RowOfIs(resumed.rows, id, i);
    CascadeLosesRelay(resumed, i, DeletePlug(c.plug));
  }

  /** A plug that was never used, switched on from outside for a vehicle without a battery. */
  lemma RefusedPowerOnLosesRelay(c: StartCall)
    requires BatterylessBelowTarget(c.found)
    ensures !Tracked(Apply(EMPTY_WORLD, ManualOn(c)), false)
  {
    var t := Apply(EMPTY_WORLD, ManualOn(c));
    assert IsOn(t, c.plug) && t.rows == [];
  }

  /** Without a controller the session such a power-on starts is only pending. */
  lemma PowerOnLeavesPending(c: StartCall)
    requires LeavesPending(EMPTY_WORLD, c)
    ensures var t := Apply(EMPTY_WORLD, ManualOn(c)); Tracked(t, false) && !Tracked(t, true)
  {
    var t := Apply(EMPTY_WORLD, ManualOn(c));
    assert |t.rows| == 1 && t.rows[0].status.Pending? && t.rows[0].plug == c.plug;
    assert IsOn(t, c.plug) && HasSession(t.rows, c.plug, false) && !HasSession(t.rows, c.plug, true);
  }

  // ---------------------------------------------------------------- targets

  lemma PercentBelow(kwh: real, percent: real, v: Vehicle)
    requires v.capacityKwh > 0.0 && Energy.Percent(kwh, v) < percent
    ensures kwh < v.capacityKwh * percent / 100.0
  {
    var q := kwh / v.capacityKwh;
    assert q * v.capacityKwh == kwh;
    assert q < percent / 100.0;
    ScaledBelow(q, percent / 100.0, v.capacityKwh);
  }

  lemma ScaledBelow(x: real, y: real, k: real)
    requires x < y && k > 0.0
    ensures x * k < k * y
  {
    assert (y - x) * k > 0.0;
  }

  /** A new target accepted while the old one was not yet reached is not reached either at
      the same reading: changing the target never completes a charge by itself. */
  lemma AcceptedTargetIsAhead(rows: seq<Session>, id: SessionId, target: real, energy: EnergyData, v: Vehicle)
    requires TargetErrorOf(rows, id, target, Some(energy), Some(v)).None?
    requires energy.total != 0.0 && rows[Index(rows, id)].startTotalKwh.Some?
    requires var s := rows[Index(rows, id)];
             Energy.CalculateProgress(s.EnergyView(), Some(energy), Some(v)).blendedKwh < s.targetKwh
    ensures var s := rows[Index(rows, id)].(targetPercent := target, targetKwh := v.capacityKwh * target / 100.0);
            Energy.CalculateProgress(s.EnergyView(), Some(energy), Some(v)).blendedKwh < s.targetKwh
  {
    var s := rows[Index(rows, id)];
    var p := Energy.CalculateProgress(s.EnergyView(), Some(energy), Some(v));
    PercentBelow(p.blendedKwh, target, v);
    WithinBothTargets(s.startKwh, s.targetKwh, p.lastBlendedKwh, v.capacityKwh * target / 100.0);
  }

  lemma WithinBothTargets(start: real, before: real, level: real, target: real)
    requires Max(start, Min(before, level)) < before && Max(start, Min(before, level)) < target
    ensures Max(start, Min(target, level)) < target
  {
  }
}
