/** A vehicle's stored totals against the sessions it still has. */
module Ledger {
  import opened Wrappers
  import opened Models
  import opened Sessions
  import opened SessionRuns

  predicate Counted(s: Session, v: VehicleId) {
    s.vehicle == v && s.status.Completed? && s.stats.Some?
  }

  /** A number of sessions and their figures added up. */
  datatype Totals = Totals(count: int, stats: Stats)

  const ZERO := Totals(0, Stats(0.0, 0.0, 0.0, 0.0))

  function Plus(a: Totals, b: Totals): Totals {
    Totals(a.count + b.count,
           Stats(a.stats.batteryKwh + b.stats.batteryKwh, a.stats.wallKwh + b.stats.wallKwh,
                 a.stats.co2Grams + b.stats.co2Grams, a.stats.costPence + b.stats.costPence))
  }

  type Measure = Session -> Totals

  /** What a session contributes to a vehicle. */
  function Share(v: VehicleId): Measure {
    (s: Session) => if Counted(s, v) then Totals(1, s.stats.value) else ZERO
  }

  function Sum(rows: seq<Session>, f: Measure): Totals {
    if rows == [] then ZERO else Plus(Sum(rows[..|rows| - 1], f), f(rows[|rows| - 1]))
  }

  lemma Appended(rows: seq<Session>, s: Session, f: Measure)
    ensures Sum(rows + [s], f) == Plus(Sum(rows, f), f(s))
  {
    assert (rows + [s])[..|rows|] == rows;
  }

  lemma WithoutEarlier(rows: seq<Session>, i: nat)
    requires i < |rows| - 1
    ensures Without(rows, i) == Without(rows[..|rows| - 1], i) + [rows[|rows| - 1]]
  {
  }

  lemma PlusLast(a: Totals, b: Totals, c: Totals)
    ensures Plus(Plus(a, b), c) == Plus(Plus(a, c), b)
  {
  }

  /** A removed row takes its share with it. */
  lemma {:induction false} Removed(rows: seq<Session>, i: nat, f: Measure)
    requires i < |rows|
    ensures Sum(rows, f) == Plus(Sum(Without(rows, i), f), f(rows[i]))
  {
    var n := |rows| - 1;
    if i == n {
      assert Without(rows, i) == rows[..n];
    } else {
      Removed(rows[..n], i, f);
      WithoutEarlier(rows, i);
      Appended(Without(rows[..n], i), rows[n], f);
      PlusLast(Sum(Without(rows[..n], i), f), f(rows[i]), f(rows[n]));
    }
  }

  /** A replaced row exchanges its share. */
  lemma Replaced(rows: seq<Session>, i: nat, s: Session, f: Measure)
    requires i < |rows|
    ensures Plus(Sum(rows[i := s], f), f(rows[i])) == Plus(Sum(rows, f), f(s))
  {
    Removed(rows, i, f);
    Removed(rows[i := s], i, f);
    assert Without(rows[i := s], i) == Without(rows, i);
    PlusLast(Sum(Without(rows, i), f), f(rows[i]), f(s));
  }

  lemma {:induction false} SumNotNegative(rows: seq<Session>, v: VehicleId)
    requires forall i :: 0 <= i < |rows| ==> RowOk(rows[i])
    ensures Sum(rows, Share(v)).count >= 0 && NotNegative(Sum(rows, Share(v)).stats)
  {
    if rows != [] {
      assert RowOk(rows[|rows| - 1]);
      SumNotNegative(rows[..|rows| - 1], v);
    }
  }

  lemma {:induction false} NoneCounted(rows: seq<Session>, v: VehicleId)
    ensures Sum(rows, Share(v)).count >= 0
    ensures Sum(rows, Share(v)).count == 0 <==> forall i :: 0 <= i < |rows| ==> !Counted(rows[i], v)
  {
    if rows != [] {
      NoneCounted(rows[..|rows| - 1], v);
    }
  }

  /** The stored totals are the sums over the completed sessions that remain, and the stored
      extremes bound the battery energy of each. */
  ghost predicate Matching(t: Lifetime, rows: seq<Session>, v: VehicleId) {
    && Totals(t.count, Stats(t.batteryKwh, t.wallKwh, t.co2Grams, t.costPence)) == Sum(rows, Share(v))
    && (t.count == 0 ==> t.minBatteryKwh == 0.0 && t.maxBatteryKwh == 0.0)
    && Bounded(t, rows, v)
  }

  ghost predicate Bounded(t: Lifetime, rows: seq<Session>, v: VehicleId) {
    forall i :: 0 <= i < |rows| && Counted(rows[i], v) ==>
      t.minBatteryKwh <= rows[i].stats.value.batteryKwh <= t.maxBatteryKwh
  }

  lemma {:induction false} FinishKeepsLedger(rows: seq<Session>, i: nat, s: Session, t: Lifetime)
    requires i < |rows| && LegalFinish(rows[i], s)
    requires Matching(t, rows, s.vehicle)
    ensures Matching(Incremented(t, s.stats.value), rows[i := s], s.vehicle)
  {
    var f, t' := Share(s.vehicle), Incremented(t, s.stats.value);
    JoinsSum(rows, i, s, f);
    NoneCounted(rows, s.vehicle);
    assert Bounded(t', rows, s.vehicle);
    ReplaceKeepsBounds(rows, i, s, t', s.vehicle);
  }

  lemma JoinsSum(rows: seq<Session>, i: nat, s: Session, f: Measure)
    requires i < |rows| && f(rows[i]) == ZERO
    ensures Sum(rows[i := s], f) == Plus(Sum(rows, f), f(s))
  {
    Replaced(rows, i, s, f);
  }

  lemma {:induction false} RemoveKeepsLedger(rows: seq<Session>, i: nat, t: Lifetime)
    requires forall j :: 0 <= j < |rows| ==> RowOk(rows[j])
    requires i < |rows| && rows[i].stats.Some?
    requires Matching(t, rows, rows[i].vehicle)
    ensures Matching(Decremented(t, rows[i].stats.value), Without(rows, i), rows[i].vehicle)
  {
    var v, rest := rows[i].vehicle, Without(rows, i);
    assert RowOk(rows[i]);
    Removed(rows, i, Share(v));
    SumNotNegative(rest, v);
    NoneCounted(rest, v);
  }

  /** Rows that neither join nor leave the vehicle's completed sessions change nothing. */
  lemma {:induction false} InsertKeepsOthers(rows: seq<Session>, s: Session, t: Lifetime, v: VehicleId)
    requires Matching(t, rows, v) && !Counted(s, v)
    ensures Matching(t, rows + [s], v)
  {
    Appended(rows, s, Share(v));
  }

  lemma {:induction false} ReplaceKeepsOthers(rows: seq<Session>, i: nat, s: Session, t: Lifetime, v: VehicleId)
    requires Matching(t, rows, v) && i < |rows|
    requires Counted(s, v) <==> Counted(rows[i], v)
    requires Counted(s, v) ==> s.stats == rows[i].stats
    ensures Matching(t, rows[i := s], v)
  {
    EqualShare(rows, i, s, Share(v));
    ReplaceKeepsBounds(rows, i, s, t, v);
  }

  lemma EqualShare(rows: seq<Session>, i: nat, s: Session, f: Measure)
    requires i < |rows| && f(s) == f(rows[i])
    ensures Sum(rows[i := s], f) == Sum(rows, f)
  {
    Replaced(rows, i, s, f);
  }

  lemma ReplaceKeepsBounds(rows: seq<Session>, i: nat, s: Session, t: Lifetime, v: VehicleId)
    requires i < |rows| && Bounded(t, rows, v)
    requires Counted(s, v) ==> t.minBatteryKwh <= s.stats.value.batteryKwh <= t.maxBatteryKwh
    ensures Bounded(t, rows[i := s], v)
  {
  }

  lemma {:induction false} RemoveKeepsOthers(rows: seq<Session>, i: nat, t: Lifetime, v: VehicleId)
    requires Matching(t, rows, v) && i < |rows| && !Counted(rows[i], v)
    ensures Matching(t, Without(rows, i), v)
  {
    assert Share(v)(rows[i]) == ZERO;
    hide Sum, Share, Without;
    NoShareRemoved(rows, i, Share(v));
    WithoutKeepsBounds(rows, i, t, v);
  }

  lemma NoShareRemoved(rows: seq<Session>, i: nat, f: Measure)
    requires i < |rows| && f(rows[i]) == ZERO
    ensures Sum(Without(rows, i), f) == Sum(rows, f)
  {
    Removed(rows, i, f);
  }

  lemma WithoutKeepsBounds(rows: seq<Session>, i: nat, t: Lifetime, v: VehicleId)
    requires i < |rows| && Bounded(t, rows, v)
    ensures Bounded(t, Without(rows, i), v)
  {
    var rest := Without(rows, i);
    assert forall j :: 0 <= j < |rest| ==> rest[j] == rows[if j < i then j else j + 1];
  }

  // ---------------------------------------------------------------- purges

  lemma UnpurgedSum(rows: seq<Session>, e: Effect, f: Measure)
    requires rows != []
    ensures var n := |rows| - 1;
            Sum(Unpurged(rows, e), f)
            == if Purged(e, rows[n]) then Sum(Unpurged(rows[..n], e), f)
              else Plus(Sum(Unpurged(rows[..n], e), f), f(rows[n]))
  {
    var n := |rows| - 1;
    if Purged(e, rows[n]) {
      assert Unpurged(rows, e) == Unpurged(rows[..n], e);
    } else {
      Appended(Unpurged(rows[..n], e), rows[n], f);
    }
  }

  /** A purge of rows without a share takes nothing away. */
  lemma {:induction false} PurgeTakesNothing(rows: seq<Session>, e: Effect, f: Measure)
    requires forall i :: 0 <= i < |rows| && Purged(e, rows[i]) ==> f(rows[i]) == ZERO
    ensures Sum(Unpurged(rows, e), f) == Sum(rows, f)
  {
    if rows != [] {
      PurgeTakesNothing(rows[..|rows| - 1], e, f);
      UnpurgedSum(rows, e, f);
    }
  }

  lemma {:induction false} PurgeNeverAdds(rows: seq<Session>, e: Effect, f: Measure)
    requires forall i :: 0 <= i < |rows| ==> f(rows[i]).count >= 0
    ensures Sum(Unpurged(rows, e), f).count <= Sum(rows, f).count
  {
    if rows != [] {
      PurgeNeverAdds(rows[..|rows| - 1], e, f);
      UnpurgedSum(rows, e, f);
    }
  }

  /** A purge takes away no less than the share of any one purged row. */
  lemma {:induction false} PurgeTakesShare(rows: seq<Session>, e: Effect, f: Measure, i: nat)
    requires forall k :: 0 <= k < |rows| ==> f(rows[k]).count >= 0
    requires i < |rows| && Purged(e, rows[i])
    ensures Sum(Unpurged(rows, e), f).count + f(rows[i]).count <= Sum(rows, f).count
  {
    var n := |rows| - 1;
    UnpurgedSum(rows, e, f);
    if i == n {
      PurgeNeverAdds(rows[..n], e, f);
    } else {
      PurgeTakesShare(rows[..n], e, f, i);
    }
  }

  lemma {:induction false} PurgeKeepsBounds(rows: seq<Session>, e: Effect, t: Lifetime, v: VehicleId)
    requires Bounded(t, rows, v)
    ensures Bounded(t, Unpurged(rows, e), v)
  {
    UnpurgedRows(rows, e);
    var rest := Unpurged(rows, e);
    forall i | 0 <= i < |rest| && Counted(rest[i], v)
      ensures t.minBatteryKwh <= rest[i].stats.value.batteryKwh <= t.maxBatteryKwh
    {
      assert rest[i] in rows;
    }
  }

  /** A purge that takes none of the vehicle's completed sessions keeps its totals right. */
  lemma {:induction false} PurgeKeepsOthers(rows: seq<Session>, e: Effect, t: Lifetime, v: VehicleId)
    requires Matching(t, rows, v)
    requires forall i :: 0 <= i < |rows| && Purged(e, rows[i]) ==> !Counted(rows[i], v)
    ensures Matching(t, Unpurged(rows, e), v)
  {
    PurgeTakesNothing(rows, e, Share(v));
    PurgeKeepsBounds(rows, e, t, v);
  }

  /** A deleted vehicle has neither sessions nor totals left. */
  lemma {:induction false} DeletedVehicleHasNothing(rows: seq<Session>, v: VehicleId)
    ensures Matching(NO_SESSIONS, Unpurged(rows, PurgeVehicle(v)), v)
  {
    UnpurgedRows(rows, PurgeVehicle(v));
    var rest := Unpurged(rows, PurgeVehicle(v));
    forall i | 0 <= i < |rest| ensures !Counted(rest[i], v) {
      assert rest[i] in rest;
    }
    AllUncounted(rest, v);
  }

  lemma {:induction false} AllUncounted(rows: seq<Session>, v: VehicleId)
    requires forall i :: 0 <= i < |rows| ==> !Counted(rows[i], v)
    ensures Sum(rows, Share(v)) == ZERO
  {
    if rows != [] {
      AllUncounted(rows[..|rows| - 1], v);
    }
  }

  // ---------------------------------------------------------------- every step and every run

  ghost predicate LedgerOk(w: World) {
    forall v :: Matching(LifetimeOf(w.lifetimes, v), w.rows, v)
  }

  /** The deletion of a plug sweeps away a completed session, whose vehicle keeps its figures. */
  ghost predicate StrandsFigures(w: World, e: Effect) {
    e.PurgePlug? && exists i :: 0 <= i < |w.rows| && w.rows[i].plug == e.plug && w.rows[i].status.Completed?
  }

  lemma {:induction false} StepKeepsLedger(w: World, d: Decision, v: VehicleId)
    requires RowsOk(w) && LegalEffect(w, d.effect) && !StrandsFigures(w, d.effect)
    requires Matching(LifetimeOf(w.lifetimes, v), w.rows, v)
    ensures Matching(LifetimeOf(Perform(w, d).lifetimes, v), Perform(w, d).rows, v)
  {
    var t := LifetimeOf(w.lifetimes, v);
    if d.effect.Finish? && d.effect.row.vehicle == v {
      FinishKeepsLedger(w.rows, d.effect.index, d.effect.row, t);
    } else if d.effect.Remove? && w.rows[d.effect.index].vehicle == v && w.rows[d.effect.index].stats.Some? {
      RemoveKeepsLedger(w.rows, d.effect.index, t);
    } else if d.effect == PurgeVehicle(v) {
      DeletedVehicleHasNothing(w.rows, v);
    } else {
      match d.effect
      case Keep =>
      case Insert(row) => InsertKeepsOthers(w.rows, row, t, v);
      case Edit(i, row) => ReplaceKeepsOthers(w.rows, i, row, t, v);
      case Finish(i, row) => ReplaceKeepsOthers(w.rows, i, row, t, v);
      case Remove(i) => RemoveKeepsOthers(w.rows, i, t, v);
      case PurgeVehicle(_) => PurgeKeepsOthers(w.rows, d.effect, t, v);
      case PurgePlug(_) => PurgeKeepsOthers(w.rows, d.effect, t, v);
    }
  }

  /** A legal step unbalances the totals exactly when it deletes a plug with a completed
      session. */
  lemma {:induction false} LedgerLostExactly(w: World, d: Decision)
    requires RowsOk(w) && LegalEffect(w, d.effect) && LedgerOk(w)
    ensures LedgerOk(Perform(w, d)) <==> !StrandsFigures(w, d.effect)
  {
    if StrandsFigures(w, d.effect) {
      var i :| 0 <= i < |w.rows| && w.rows[i].plug == d.effect.plug && w.rows[i].status.Completed?;
      var v := w.rows[i].vehicle;
      assert RowOk(w.rows[i]) && Counted(w.rows[i], v);
      PurgeTakesShare(w.rows, d.effect, Share(v), i);
      assert Matching(LifetimeOf(w.lifetimes, v), w.rows, v);
      assert !Matching(LifetimeOf(w.lifetimes, v), Unpurged(w.rows, d.effect), v);
    } else {
      forall v ensures Matching(LifetimeOf(Perform(w, d).lifetimes, v), Perform(w, d).rows, v) {
        StepKeepsLedger(w, d, v);
      }
    }
  }

  lemma {:induction false} LedgerLostByStep(w: World, op: Op)
    requires RowsOk(w) && ValidOp(op) && LedgerOk(w)
    ensures LedgerOk(Apply(w, op)) <==> !StrandsFigures(w, Decide(w, op).effect)
  {
    hide Decide, ValidOp, LegalCommand;
    StepIsLegal(w, op);
    SwitchingIsNothing(w, Switched(w, op), Decide(w, op).effect);
    hide RowsOk, LegalEffect, LedgerOk, StrandsFigures, Perform, Switched;
    LedgerLostExactly(Switched(w, op), Decide(w, op));
  }

  /** Relays play no part in the ledger. */
  lemma SwitchingIsNothing(w: World, u: World, e: Effect)
    requires u == w.(relays := u.relays)
    ensures RowsOk(u) <==> RowsOk(w)
    ensures LegalEffect(u, e) <==> LegalEffect(w, e)
    ensures LedgerOk(u) <==> LedgerOk(w)
    ensures StrandsFigures(u, e) <==> StrandsFigures(w, e)
  {
  }

  lemma EmptyLedger()
    ensures LedgerOk(EMPTY_WORLD)
  {
  }

  /** On every run in which no plug with a completed session is deleted, the stored totals of
      every vehicle are the sums over its completed sessions: the floor at zero never bites. */
  lemma {:induction false} LedgerAlwaysBalances(ws: seq<World>, ops: seq<Op>, k: nat)
    requires IsRun(ws, ops) && k < |ws|
    requires forall j :: 0 <= j < |ops| ==> !StrandsFigures(ws[j], Decide(ws[j], ops[j]).effect)
    ensures LedgerOk(ws[k])
  {
    hide Apply, ValidOp, FreshId, RowsOk, LedgerOk, StrandsFigures, Decide;
    if k == 0 {
      EmptyLedger();
    } else {
      LedgerAlwaysBalances(ws, ops, k - 1);
      RowsAlwaysOk(ws, ops, k - 1);
      assert Stepped(ws[k - 1], ops[k - 1], ws[(k - 1) + 1]);
      LedgerLostByStep(ws[k - 1], ops[k - 1]);
    }
  }

  // ---------------------------------------------------------------- the extremes

  ghost predicate IsBatteryOf(rows: seq<Session>, v: VehicleId, i: int, kwh: real) {
    0 <= i < |rows| && Counted(rows[i], v) && rows[i].stats.value.batteryKwh == kwh
  }

  /** Once there is a session, the stored extremes are energies of completed sessions. */
  ghost predicate Attained(t: Lifetime, rows: seq<Session>, v: VehicleId) {
    t.count != 0 ==>
      && (exists i :: IsBatteryOf(rows, v, i, t.minBatteryKwh))
      && (exists i :: IsBatteryOf(rows, v, i, t.maxBatteryKwh))
  }

  ghost predicate ExtremesOk(w: World) {
    forall v :: Attained(LifetimeOf(w.lifetimes, v), w.rows, v)
  }

  ghost predicate TakesRows(e: Effect) {
    e.Remove? || e.PurgeVehicle? || e.PurgePlug?
  }

  /** A completed session keeps its figures while no row is taken. */
  lemma {:induction false} BatteryStays(w: World, e: Effect, v: VehicleId, i: int, kwh: real)
    requires LegalEffect(w, e) && !TakesRows(e) && IsBatteryOf(w.rows, v, i, kwh)
    ensures IsBatteryOf(RowsAfter(w.rows, e), v, i, kwh)
  {
  }

  lemma {:induction false} StepKeepsExtremes(w: World, d: Decision, v: VehicleId)
    requires LegalEffect(w, d.effect) && !TakesRows(d.effect)
    requires Attained(LifetimeOf(w.lifetimes, v), w.rows, v)
    ensures Attained(LifetimeOf(Perform(w, d).lifetimes, v), Perform(w, d).rows, v)
  {
    var t, rows := LifetimeOf(w.lifetimes, v), RowsAfter(w.rows, d.effect);
    if t.count != 0 {
      var i :| IsBatteryOf(w.rows, v, i, t.minBatteryKwh);
      var j :| IsBatteryOf(w.rows, v, j, t.maxBatteryKwh);
      BatteryStays(w, d.effect, v, i, t.minBatteryKwh);
      BatteryStays(w, d.effect, v, j, t.maxBatteryKwh);
    }
    if d.effect.Finish? && d.effect.row.vehicle == v {
      assert IsBatteryOf(rows, v, d.effect.index, d.effect.row.stats.value.batteryKwh);
    }
  }

  /** On every run that deletes nothing the stored extremes are the least and the greatest
      energy of a completed session. */
  lemma {:induction false} ExtremesAreAttained(ws: seq<World>, ops: seq<Op>, k: nat)
    requires IsRun(ws, ops) && k < |ws|
    requires forall j :: 0 <= j < |ops| ==> !TakesRows(Decide(ws[j], ops[j]).effect)
    ensures ExtremesOk(ws[k])
    ensures forall v :: Bounded(LifetimeOf(ws[k].lifetimes, v), ws[k].rows, v)
  {
    hide Apply, ValidOp, FreshId, RowsOk, LedgerOk, Decide;
    forall j | 0 <= j < |ops| ensures !StrandsFigures(ws[j], Decide(ws[j], ops[j]).effect) {
    }
    LedgerAlwaysBalances(ws, ops, k);
    BalancedIsBounded(ws[k]);
    if k == 0 {
      NoExtremes();
    } else {
      ExtremesAreAttained(ws, ops, k - 1);
      assert Stepped(ws[k - 1], ops[k - 1], ws[(k - 1) + 1]);
      ExtremesByStep(ws[k - 1], ops[k - 1]);
    }
  }

  lemma BalancedIsBounded(w: World)
    requires LedgerOk(w)
    ensures forall v :: Bounded(LifetimeOf(w.lifetimes, v), w.rows, v)
  {
    forall v ensures Bounded(LifetimeOf(w.lifetimes, v), w.rows, v) {
      assert Matching(LifetimeOf(w.lifetimes, v), w.rows, v);
    }
  }

  lemma NoExtremes()
    ensures ExtremesOk(EMPTY_WORLD)
  {
  }

  lemma {:induction false} ExtremesByStep(w: World, op: Op)
    requires ValidOp(op) && ExtremesOk(w) && !TakesRows(Decide(w, op).effect)
    ensures ExtremesOk(Apply(w, op))
  {
    hide Decide, ValidOp, LegalCommand;
    StepIsLegal(w, op);
    var u, d := Switched(w, op), Decide(w, op);
    forall v ensures Attained(LifetimeOf(Perform(u, d).lifetimes, v), Perform(u, d).rows, v) {
      assert Attained(LifetimeOf(u.lifetimes, v), u.rows, v);
      StepKeepsExtremes(u, d, v);
    }
  }
}
