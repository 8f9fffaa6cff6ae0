/** Offline debounce and notification cooldown of the plugs (api/mqtt/lwt.go). */
module Lwt {
  import opened Wrappers
  import opened Clock
  import opened Models

  const OFFLINE_DEBOUNCE: int := 60_000_000_000
  const OFFLINE_COOLDOWN: int := 900_000_000_000

  /** A debounce timer counts down, has been stopped, has expired with its callback still to
      run, or its callback has run. */
  datatype Phase = Running | Stopped | InFlight | Ran

  /** `start` is the number of events before the Offline that started the timer. */
  datatype Timer = Timer(plug: PlugId, start: nat, since: Instant, retained: bool, phase: Phase)

  /** A last-will message, the expiry of a timer, the run of an expired timer's callback up to
      its cooldown test, that test (`known` tells whether the plug's row is found), or the
      notice after it. No lock is held between the last three. */
  datatype Event =
    | Message(plug: PlugId, payload: string, retained: bool, at: Instant)
    | Expire(timer: nat, at: Instant)
    | Callback(timer: nat, at: Instant)
    | Check(gate: nat, known: bool, at: Instant)
    | Send(gate: nat, at: Instant)

  /** Where the rest of a live callback stands: before its cooldown test, past it with `seen`
      notices sent until then, or done. */
  datatype Stage = Waiting | Passed(seen: nat) | Done

  datatype Gate = Gate(timer: nat, plug: PlugId, stage: Stage)

  /** A notice, whose callback sent it, and how many had been sent when its cooldown was tested. */
  datatype Notice = Notice(timer: nat, plug: PlugId, at: Instant, seen: nat)

  /** `lastNotified` is a column of the plug. */
  datatype Outbox = Outbox(gates: seq<Gate>, lastNotified: map<PlugId, Instant>, notices: seq<Notice>)

  /** `registered` is the manager's map from plugs to timers; `pool` are all timers ever
      started. `online` is a column of the plug. */
  datatype State = State(events: nat, registered: map<PlugId, nat>, pool: seq<Timer>, online: map<PlugId, bool>,
                         outbox: Outbox)

  const INITIAL := State(0, map[], [], map[], Outbox([], map[], []))

  predicate IsOnline(e: Event, plug: PlugId) {
    e.Message? && e.plug == plug && e.payload == "Online"
  }

  predicate IsOffline(e: Event, plug: PlugId) {
    e.Message? && e.plug == plug && e.payload == "Offline"
  }

  /** `Stop` on a timer takes effect only while it counts down. */
  function StopTimer(pool: seq<Timer>, id: nat): seq<Timer> {
    if id < |pool| && pool[id].phase.Running? then pool[id := pool[id].(phase := Stopped)] else pool
  }

  function OnOnline(s: State, plug: PlugId): State {
    s.(events := s.events + 1,
       registered := s.registered - {plug},
       pool := if plug in s.registered then StopTimer(s.pool, s.registered[plug]) else s.pool,
       online := s.online[plug := true])
  }

  function OnOffline(s: State, plug: PlugId, retained: bool, at: Instant): State {
    if plug in s.registered then s.(events := s.events + 1)
    else
      s.(events := s.events + 1,
         registered := s.registered[plug := |s.pool|],
         pool := s.pool + [Timer(plug, s.events, at, retained, Running)])
  }

  predicate Expires(s: State, id: nat, at: Instant) {
    id < |s.pool| && s.pool[id].phase.Running? && at - s.pool[id].since >= OFFLINE_DEBOUNCE
  }

  /** The callback of an expired timer is about to run. Nothing asks whether the timer is
      still registered. */
  predicate Confirms(s: State, e: Event) {
    e.Callback? && e.timer < |s.pool| && s.pool[e.timer].phase.InFlight?
  }

  /** `confirmOffline` up to the cooldown: whatever timer is registered for the plug is
      forgotten, the plug is marked offline, and its session cancelled by the caller. Only a
      live message goes on to the cooldown. */
  function OnCallback(s: State, id: nat): State
    requires id < |s.pool|
  {
    var t := s.pool[id];
    s.(events := s.events + 1,
       registered := s.registered - {t.plug},
       pool := s.pool[id := t.(phase := Ran)],
       online := s.online[t.plug := false],
       outbox := if t.retained then s.outbox else Joined(s.outbox, id, t.plug))
  }

  function Joined(o: Outbox, timer: nat, plug: PlugId): Outbox {
    o.(gates := o.gates + [Gate(timer, plug, Waiting)])
  }

  predicate CoolsDown(o: Outbox, plug: PlugId, at: Instant) {
    plug in o.lastNotified && at - o.lastNotified[plug] < OFFLINE_COOLDOWN
  }

  /** The cooldown test of a callback. */
  function Checked(o: Outbox, k: nat, known: bool, at: Instant): Outbox {
    if k < |o.gates| && o.gates[k].stage.Waiting? then
      var passes := known && !CoolsDown(o, o.gates[k].plug, at);
      o.(gates := o.gates[k := o.gates[k].(stage := if passes then Passed(|o.notices|) else Done)])
    else o
  }

  /** The notice of a callback that passed, remembered in the plug's row. */
  function Sent(o: Outbox, k: nat, at: Instant): Outbox {
    if k < |o.gates| && o.gates[k].stage.Passed? then
      var g := o.gates[k];
      Outbox(o.gates[k := g.(stage := Done)], o.lastNotified[g.plug := at],
             o.notices + [Notice(g.timer, g.plug, at, g.stage.seen)])
    else o
  }

  function Next(s: State, e: Event): State {
    match e
    case Message(plug, payload, retained, at) =>
      if payload == "Online" then OnOnline(s, plug)
      else if payload == "Offline" then OnOffline(s, plug, retained, at)
      else s.(events := s.events + 1)
    case Expire(id, at) =>
      if Expires(s, id, at) then s.(events := s.events + 1, pool := s.pool[id := s.pool[id].(phase := InFlight)])
      else s.(events := s.events + 1)
    case Callback(id, at) =>
      if Confirms(s, e) then OnCallback(s, id) else s.(events := s.events + 1)
    case Check(k, known, at) => s.(events := s.events + 1, outbox := Checked(s.outbox, k, known, at))
    case Send(k, at) => s.(events := s.events + 1, outbox := Sent(s.outbox, k, at))
  }

  class Manager {
    var events: nat
    var registered: map<PlugId, nat>
    var pool: seq<Timer>
    var online: map<PlugId, bool>
    var gates: seq<Gate>
    var lastNotified: map<PlugId, Instant>
    var notices: seq<Notice>

    ghost function View(): State
      reads this
    {
      State(events, registered, pool, online, Outbox(gates, lastNotified, notices))
    }

    constructor ()
      ensures View() == INITIAL
    {
      events, registered, pool, online := 0, map[], [], map[];
      gates, lastNotified, notices := [], map[], [];
    }

    /** `HandleLWT`: an Offline starts a timer unless one is registered; an Online stops the
        registered one if it can, and forgets it. */
    method HandleLwt(plug: PlugId, payload: string, retained: bool, at: Instant)
      modifies this
      ensures View() == Next(old(View()), Message(plug, payload, retained, at))
    {
      events := events + 1;
      if payload == "Online" {
        if plug in registered {
          pool := StopTimer(pool, registered[plug]);
          registered := registered - {plug};
        }
        online := online[plug := true];
        assert registered == old(registered) - {plug};
      } else if payload == "Offline" {
        if plug in registered {
          return;
        }
        registered := registered[plug := |pool|];
        pool := pool + [Timer(plug, events - 1, at, retained, Running)];
      }
    }

    /** The runtime's part: a timer that has counted down can no longer be stopped. */
    method RunOut(id: nat, at: Instant)
      requires id < |pool| && pool[id].phase.Running? && at - pool[id].since >= OFFLINE_DEBOUNCE
      modifies this
      ensures View() == Next(old(View()), Expire(id, at))
    {
      events := events + 1;
      pool := pool[id := pool[id].(phase := InFlight)];
    }

    /** The first part of `confirmOffline`, run by an expired timer at any later time. */
    method ConfirmOffline(id: nat, at: Instant)
      requires id < |pool| && pool[id].phase.InFlight?
      modifies this
      ensures View() == Next(old(View()), Callback(id, at))
    {
      var t := pool[id];
      events := events + 1;
      pool := pool[id := t.(phase := Ran)];
      registered := registered - {t.plug};
      online := online[t.plug := false];
      if t.retained {
        return;
      }
      gates := gates + [Gate(id, t.plug, Waiting)];
    }

    /** Its second part reads the plug's row and tests the cooldown. */
    method CheckCooldown(k: nat, known: bool, at: Instant) returns (pass: bool)
      requires k < |gates| && gates[k].stage.Waiting?
      modifies this
      ensures View() == Next(old(View()), Check(k, known, at))
      ensures pass <==> known && !CoolsDown(old(View()).outbox, old(gates)[k].plug, at)
      ensures pass <==> gates[k].stage.Passed?
    {
      events := events + 1;
      var g := gates[k];
      if !known || (g.plug in lastNotified && at - lastNotified[g.plug] < OFFLINE_COOLDOWN) {
        gates := gates[k := g.(stage := Done)];
        return false;
      }
      gates := gates[k := g.(stage := Passed(|notices|))];
      return true;
    }

    /** Its third part writes the time to the row and sends the notice. */
    method SendNotice(k: nat, at: Instant)
      requires k < |gates| && gates[k].stage.Passed?
      modifies this
      ensures View() == Next(old(View()), Send(k, at))
    {
      events := events + 1;
      var g := gates[k];
      lastNotified := lastNotified[g.plug := at];
      notices := notices + [Notice(g.timer, g.plug, at, g.stage.seen)];
      gates := gates[k := g.(stage := Done)];
    }
  }

  // ---------------------------------------------------------------- runs

  /** The states of a run: one more than its events. */
  ghost predicate IsRun(ss: seq<State>, es: seq<Event>) {
    && |ss| == |es| + 1 && ss[0] == INITIAL
    && forall k :: 0 <= k < |es| ==> ss[k + 1] == Next(ss[k], es[k])
  }

  /** A timer keeps its origin, and its phase only moves on. */
  ghost predicate Develops(t: Timer, t': Timer) {
    && t' == t.(phase := t'.phase)
    && match t.phase
       case Running => true
       case Stopped => t'.phase.Stopped?
       case InFlight => t'.phase.InFlight? || t'.phase.Ran?
       case Ran => t'.phase.Ran?
  }

  lemma {:induction false} TimersDevelop(ss: seq<State>, es: seq<Event>, k: nat, n: nat, id: nat)
    requires IsRun(ss, es) && k <= n < |ss| && id < |ss[k].pool|
    ensures id < |ss[n].pool| && Develops(ss[k].pool[id], ss[n].pool[id])
  {
    if k < n {
      TimersDevelop(ss, es, k, n - 1, id);
      assert ss[(n - 1) + 1] == Next(ss[n - 1], es[n - 1]);
    }
  }

  /** Every timer was started by the Offline it records, and a registered one is alive. */
  ghost predicate PoolOk(s: State, es: seq<Event>) {
    OriginsOk(s, es) && RegistrationsOk(s)
  }

  ghost predicate OriginsOk(s: State, es: seq<Event>) {
    && s.events <= |es|
    && forall id :: 0 <= id < |s.pool| ==> StartedBy(s.pool[id], s.events, es)
  }

  ghost predicate StartedBy(t: Timer, events: nat, es: seq<Event>) {
    && t.start < events <= |es|
    && IsOffline(es[t.start], t.plug) && es[t.start].at == t.since && es[t.start].retained == t.retained
  }

  ghost predicate Alive(t: Timer) {
    t.phase.Running? || t.phase.InFlight?
  }

  ghost predicate RegistrationsOk(s: State) {
    forall plug :: plug in s.registered ==>
      && s.registered[plug] < |s.pool|
      && s.pool[s.registered[plug]].plug == plug && Alive(s.pool[s.registered[plug]])
  }

  lemma {:induction false} StepKeepsOrigins(s: State, es: seq<Event>)
    requires OriginsOk(s, es) && s.events < |es|
    ensures OriginsOk(Next(s, es[s.events]), es) && Next(s, es[s.events]).events == s.events + 1
  {
    var t := Next(s, es[s.events]);
    forall id | 0 <= id < |t.pool| ensures StartedBy(t.pool[id], t.events, es) {
      assert id < |s.pool| ==> StartedBy(s.pool[id], s.events, es);
    }
  }

  lemma {:induction false} StepKeepsRegistrations(s: State, e: Event)
    requires RegistrationsOk(s)
    ensures RegistrationsOk(Next(s, e))
  {
  }

  lemma {:induction false} PoolAlwaysOk(ss: seq<State>, es: seq<Event>, n: nat)
    requires IsRun(ss, es) && n < |ss|
    ensures PoolOk(ss[n], es) && ss[n].events == n
  {
    if n > 0 {
      PoolAlwaysOk(ss, es, n - 1);
      assert ss[(n - 1) + 1] == Next(ss[n - 1], es[n - 1]);
      StepKeepsOrigins(ss[n - 1], es);
      StepKeepsRegistrations(ss[n - 1], es[n - 1]);
    }
  }

  // ---------------------------------------------------------------- silence

  /** The event ends a silence of the plug: an Online, or a callback for the plug. */
  ghost predicate ClearsAt(s: State, e: Event, plug: PlugId) {
    IsOnline(e, plug) || (Confirms(s, e) && s.pool[e.timer].plug == plug)
  }

  ghost predicate Clears(ss: seq<State>, es: seq<Event>, plug: PlugId, k: nat)
    requires k < |es| < |ss|
  {
    ClearsAt(ss[k], es[k], plug)
  }

  /** A registration is made by an Offline when there is none, kept, or cleared. */
  lemma {:induction false} StepRegisters(s: State, e: Event, plug: PlugId)
    requires RegistrationsOk(s)
    ensures plug in Next(s, e).registered <==> !ClearsAt(s, e, plug) && (plug in s.registered || IsOffline(e, plug))
    ensures plug in s.registered && plug in Next(s, e).registered ==> Next(s, e).registered[plug] == s.registered[plug]
    ensures plug !in s.registered && plug in Next(s, e).registered ==>
              && Next(s, e).registered[plug] == |s.pool| < |Next(s, e).pool|
              && Next(s, e).pool[|s.pool|].start == s.events
  {
  }

  /** A registered timer dates from an Offline that nothing has cleared since. */
  lemma {:induction false} RegisteredSinceStart(ss: seq<State>, es: seq<Event>, n: nat, plug: PlugId)
    requires IsRun(ss, es) && n < |ss| && plug in ss[n].registered
    ensures var id := ss[n].registered[plug];
            && id < |ss[n].pool| && ss[n].pool[id].start < n
            && forall k :: ss[n].pool[id].start < k < n ==> !Clears(ss, es, plug, k)
  {
    hide Next;
    PoolAlwaysOk(ss, es, n);
    PoolAlwaysOk(ss, es, n - 1);
    assert ss[(n - 1) + 1] == Next(ss[n - 1], es[n - 1]);
    StepRegisters(ss[n - 1], es[n - 1], plug);
    if plug in ss[n - 1].registered {
      RegisteredSinceStart(ss, es, n - 1, plug);
      TimersDevelop(ss, es, n - 1, n, ss[n].registered[plug]);
    }
  }

  /** An Offline of the plug stands uncleared. */
  ghost predicate Silent(ss: seq<State>, es: seq<Event>, n: nat, plug: PlugId)
    requires n <= |es| < |ss|
  {
    exists i :: 0 <= i < n && IsOffline(es[i], plug) && forall k :: i < k < n ==> !Clears(ss, es, plug, k)
  }

  lemma {:induction false} StillSilent(ss: seq<State>, es: seq<Event>, n: nat, plug: PlugId)
    requires 0 < n <= |es| < |ss|
    ensures Silent(ss, es, n, plug) <==>
            IsOffline(es[n - 1], plug) || (Silent(ss, es, n - 1, plug) && !Clears(ss, es, plug, n - 1))
  {
    if Silent(ss, es, n - 1, plug) && !Clears(ss, es, plug, n - 1) {
      var i :| 0 <= i < n - 1 && IsOffline(es[i], plug) && forall k :: i < k < n - 1 ==> !Clears(ss, es, plug, k);
      assert forall k :: i < k < n ==> !Clears(ss, es, plug, k);
    }
  }

  /** A timer is registered exactly while some Offline of the plug stands uncleared: later
      Offlines neither restart the timer nor change its retained flag. */
  lemma {:induction false} RegisteredExactlyInSilence(ss: seq<State>, es: seq<Event>, n: nat, plug: PlugId)
    requires IsRun(ss, es) && n < |ss|
    ensures plug in ss[n].registered <==> Silent(ss, es, n, plug)
  {
    if n > 0 {
      RegisteredExactlyInSilence(ss, es, n - 1, plug);
      PoolAlwaysOk(ss, es, n - 1);
      assert ss[(n - 1) + 1] == Next(ss[n - 1], es[n - 1]);
      StepRegisters(ss[n - 1], es[n - 1], plug);
      StillSilent(ss, es, n, plug);
    }
  }

  // ---------------------------------------------------------------- confirmations

  /** Event n runs the callback of timer `id` of the plug. */
  ghost predicate RunsCallback(ss: seq<State>, es: seq<Event>, n: int, plug: PlugId, id: int) {
    && 0 <= n < |es| < |ss| && es[n].Callback? && es[n].timer == id
    && Confirms(ss[n], es[n]) && ss[n].pool[id].plug == plug
  }

  /** An Online of the plug was handled between the Offline of timer `id` and event n. */
  ghost predicate OnlineSince(ss: seq<State>, es: seq<Event>, n: int, plug: PlugId, id: int)
    requires 0 <= n < |es| < |ss| && 0 <= id < |ss[n].pool|
  {
    exists k :: ss[n].pool[id].start < k < n && IsOnline(es[k], plug)
  }

  /** Event k is an Online of the plug handled while the callback of timer `id` is in flight:
      `Stop` comes too late. */
  ghost predicate Overtakes(ss: seq<State>, es: seq<Event>, k: int, plug: PlugId, id: int) {
    && 0 <= k < |es| < |ss| && IsOnline(es[k], plug)
    && 0 <= id < |ss[k].pool| && ss[k].pool[id].plug == plug && ss[k].pool[id].phase.InFlight?
  }

  ghost predicate IsRegistered(s: State, plug: PlugId, id: nat) {
    plug in s.registered && s.registered[plug] == id
  }

  /** For each confirmation: an Online came since its Offline exactly when one was handled
      while its callback was in flight, or while its timer was no longer the registered one. */
  lemma {:induction false} ConfirmedDespiteOnline(ss: seq<State>, es: seq<Event>, n: nat, plug: PlugId, id: nat)
    requires IsRun(ss, es) && RunsCallback(ss, es, n, plug, id)
    ensures OnlineSince(ss, es, n, plug, id) <==>
            exists k :: ss[n].pool[id].start < k < n && IsOnline(es[k], plug)
                        && (Overtakes(ss, es, k, plug, id) || !IsRegistered(ss[k], plug, id))
  {
    if OnlineSince(ss, es, n, plug, id) {
      var k :| ss[n].pool[id].start < k < n && IsOnline(es[k], plug);
      if IsRegistered(ss[k], plug, id) {
        PoolAlwaysOk(ss, es, k);
        TimersDevelop(ss, es, k, n, id);
        TimersDevelop(ss, es, k + 1, n, id);
        assert Overtakes(ss, es, k, plug, id);
      }
    }
  }

  /** A callback runs only a full debounce period after its Offline. */
  lemma {:induction false} ConfirmedAfterDebounce(ss: seq<State>, es: seq<Event>, n: nat, id: nat)
    requires IsRun(ss, es) && n < |ss| && id < |ss[n].pool|
    requires ss[n].pool[id].phase.InFlight? || ss[n].pool[id].phase.Ran?
    ensures exists k :: 0 <= k < n && es[k].Expire? && es[k].timer == id
                        && es[k].at - ss[n].pool[id].since >= OFFLINE_DEBOUNCE
  {
    assert ss[(n - 1) + 1] == Next(ss[n - 1], es[n - 1]);
    if id < |ss[n - 1].pool| && (ss[n - 1].pool[id].phase.InFlight? || ss[n - 1].pool[id].phase.Ran?) {
      ConfirmedAfterDebounce(ss, es, n - 1, id);
      TimersDevelop(ss, es, n - 1, n, id);
    }
  }

  /** An Online overtook a callback that has run since. */
  ghost predicate CallbackLostRace(ss: seq<State>, es: seq<Event>, m: nat, plug: PlugId) {
    exists k, n, id :: k < n < m && Overtakes(ss, es, k, plug, id) && RunsCallback(ss, es, n, plug, id)
  }

  /** Every living timer of the plug is registered, or an Online overtook its callback. */
  ghost predicate NoOrphans(ss: seq<State>, es: seq<Event>, m: nat, plug: PlugId)
    requires m < |ss|
  {
    forall id :: 0 <= id < |ss[m].pool| && ss[m].pool[id].plug == plug && Alive(ss[m].pool[id]) ==>
      || IsRegistered(ss[m], plug, id)
      || (ss[m].pool[id].phase.InFlight? && exists k :: k < m && Overtakes(ss, es, k, plug, id))
  }

  lemma {:induction false} OrphansNeedRaces(ss: seq<State>, es: seq<Event>, m: nat, plug: PlugId)
    requires IsRun(ss, es) && m < |ss| && !CallbackLostRace(ss, es, m, plug)
    ensures NoOrphans(ss, es, m, plug)
  {
    if m > 0 {
      OrphansNeedRaces(ss, es, m - 1, plug);
      PoolAlwaysOk(ss, es, m - 1);
      forall id | 0 <= id < |ss[m].pool| && ss[m].pool[id].plug == plug && Alive(ss[m].pool[id])
        ensures IsRegistered(ss[m], plug, id)
                || (ss[m].pool[id].phase.InFlight? && exists k :: k < m && Overtakes(ss, es, k, plug, id))
      {
        StaysAttached(ss, es, m - 1, plug, id);
      }
    }
  }

  lemma {:induction false} StaysAttached(ss: seq<State>, es: seq<Event>, m: nat, plug: PlugId, id: nat)
    requires IsRun(ss, es) && m < |es| && !CallbackLostRace(ss, es, m + 1, plug)
    requires PoolOk(ss[m], es) && NoOrphans(ss, es, m, plug)
    requires id < |ss[m + 1].pool| && ss[m + 1].pool[id].plug == plug && Alive(ss[m + 1].pool[id])
    ensures IsRegistered(ss[m + 1], plug, id)
            || (ss[m + 1].pool[id].phase.InFlight? && exists k :: k < m + 1 && Overtakes(ss, es, k, plug, id))
  {
    var s, e := ss[m], es[m];
    assert ss[m + 1] == Next(s, e);
    StepRegisters(s, e, plug);
    if id >= |s.pool| {
      NewTimerIsRegistered(s, e, id);
    } else {
      StepAlive(s, e, id);
      if IsRegistered(s, plug, id) {
        if IsOnline(e, plug) {
          assert Overtakes(ss, es, m, plug, id);
        } else if ClearsAt(s, e, plug) {
          assert RunsCallback(ss, es, m, plug, e.timer);
        }
      }
    }
  }

  lemma NewTimerIsRegistered(s: State, e: Event, id: nat)
    requires |s.pool| <= id < |Next(s, e).pool|
    ensures IsRegistered(Next(s, e), Next(s, e).pool[id].plug, id)
  {
  }

  /** A timer alive after a step was alive before, has the same plug, and was not stopped or
      run by it. */
  lemma StepAlive(s: State, e: Event, id: nat)
    requires RegistrationsOk(s) && id < |s.pool| <= |Next(s, e).pool| && Alive(Next(s, e).pool[id])
    ensures Alive(s.pool[id]) && s.pool[id].plug == Next(s, e).pool[id].plug
    ensures s.pool[id].phase.InFlight? ==> Next(s, e).pool[id].phase.InFlight?
    ensures Confirms(s, e) ==> e.timer != id
    ensures IsOnline(e, s.pool[id].plug) && IsRegistered(s, s.pool[id].plug, id) ==>
              s.pool[id].phase.InFlight? && Next(s, e).pool[id].phase.InFlight?
  {
  }

  /** On every run: some confirmation of the plug follows an Online that came since its
      Offline exactly when some Online overtook a callback that ran later. Without such a
      race a plug is confirmed offline only after a full debounce period of silence. */
  lemma {:induction false} SilenceBrokenExactlyByRaces(ss: seq<State>, es: seq<Event>, plug: PlugId)
    requires IsRun(ss, es)
    ensures (exists n, id :: RunsCallback(ss, es, n, plug, id) && OnlineSince(ss, es, n, plug, id))
            <==> CallbackLostRace(ss, es, |es|, plug)
  {
    if CallbackLostRace(ss, es, |es|, plug) {
      var k, n, id :| k < n < |es| && Overtakes(ss, es, k, plug, id) && RunsCallback(ss, es, n, plug, id);
      PoolAlwaysOk(ss, es, k);
      TimersDevelop(ss, es, k, n, id);
      assert OnlineSince(ss, es, n, plug, id);
    } else {
      forall n, id | RunsCallback(ss, es, n, plug, id) ensures !OnlineSince(ss, es, n, plug, id) {
        NoRaceNoOnline(ss, es, n, plug, id);
      }
    }
  }

  lemma {:induction false} NoRaceNoOnline(ss: seq<State>, es: seq<Event>, n: nat, plug: PlugId, id: nat)
    requires IsRun(ss, es) && RunsCallback(ss, es, n, plug, id) && !CallbackLostRace(ss, es, |es|, plug)
    ensures !OnlineSince(ss, es, n, plug, id)
  {
    assert !CallbackLostRace(ss, es, n, plug);
    OrphansNeedRaces(ss, es, n, plug);
    assert IsRegistered(ss[n], plug, id);
    RegisteredSinceStart(ss, es, n, plug);
    forall k | ss[n].pool[id].start < k < n ensures !IsOnline(es[k], plug) {
      assert !Clears(ss, es, plug, k);
    }
  }

  /** The race is real: an Online handled between a timer's expiry and its callback leaves the
      plug marked offline although it is back. */
  lemma OvertakenCallbackConfirms(plug: PlugId)
    ensures exists ss: seq<State>, es: seq<Event> :: IsRun(ss, es) && |es| == 4
              && IsOffline(es[0], plug) && IsOnline(es[2], plug)
              && RunsCallback(ss, es, 3, plug, 0) && OnlineSince(ss, es, 3, plug, 0)
              && ss[3].online == map[plug := true] && ss[4].online == map[plug := false]
  {
    var es := [Message(plug, "Offline", false, 0), Expire(0, 60_000_000_000),
               Message(plug, "Online", false, 60_000_000_000), Callback(0, 60_000_000_000)];
    var s1 := Next(INITIAL, es[0]);
    var s2 := Next(s1, es[1]);
    var s3 := Next(s2, es[2]);
    var s4 := Next(s3, es[3]);
    var ss := [INITIAL, s1, s2, s3, s4];
    assert s1.pool == [Timer(plug, 0, 0, false, Running)] && s1.registered == map[plug := 0];
    assert s2.pool == [Timer(plug, 0, 0, false, InFlight)] && s2.registered == map[plug := 0];
    assert s3.pool == s2.pool && s3.online == map[plug := true];
    assert s4.online == map[plug := false];
    assert IsRun(ss, es);
    assert RunsCallback(ss, es, 3, plug, 0);
    assert OnlineSince(ss, es, 3, plug, 0);
  }

  /** An expired timer of the plug whose callback is late, next to the registered running
      timer of a newer Offline. */
  ghost predicate LateBesideNewer(s: State, plug: PlugId, late: nat, newer: nat) {
    && late < |s.pool| && newer < |s.pool| && late != newer
    && s.pool[late].plug == s.pool[newer].plug == plug
    && s.pool[late].phase.InFlight? && s.pool[newer].phase.Running? && IsRegistered(s, plug, newer)
  }

  /** So is the second way: the late callback forgets the newer timer, which an Online then
      no longer stops. */
  lemma StrayTimerIgnoresOnline(s: State, plug: PlugId, late: nat, newer: nat, at: Instant, later: Instant)
    requires LateBesideNewer(s, plug, late, newer)
    ensures var t := Next(s, Callback(late, at));
            var u := Next(t, Message(plug, "Online", false, later));
            && !IsRegistered(t, plug, newer)
            && newer < |u.pool| && u.pool[newer] == s.pool[newer]
  {
  }

  /** A run to such a state: between its two Offlines the Online came too late. */
  lemma LateBesideNewerRun(plug: PlugId) returns (ss: seq<State>, es: seq<Event>)
    ensures IsRun(ss, es) && |es| == 4 && LateBesideNewer(ss[4], plug, 0, 1)
    ensures |ss[2].pool| == 1 && |ss[4].pool| == 2 && ss[4].pool[1] == Timer(plug, 3, 60 * SECOND, false, Running)
    ensures IsOffline(es[0], plug) && es[1].Expire? && IsOnline(es[2], plug) && IsOffline(es[3], plug)
    ensures Timed(es) && es[3].at == 60 * SECOND && ss[4].outbox == INITIAL.outbox
    ensures ss[4].pool[0].plug == plug && !ss[4].pool[0].retained
  {
    es := [Message(plug, "Offline", false, 0), Expire(0, 60 * SECOND),
           Message(plug, "Online", false, 60 * SECOND), Message(plug, "Offline", false, 60 * SECOND)];
    var s1 := Next(INITIAL, es[0]);
    var s2 := Next(s1, es[1]);
    var s3 := Next(s2, es[2]);
    var s4 := Next(s3, es[3]);
    var first := Timer(plug, 0, 0, false, InFlight);
    assert s1.pool == [first.(phase := Running)] && s1.registered == map[plug := 0];
    assert s2.pool == [first] && s2.registered == map[plug := 0];
    assert s3.pool == [first] && plug !in s3.registered;
    assert s4.pool == [first, Timer(plug, 3, 60 * SECOND, false, Running)];
    ss := [INITIAL, s1, s2, s3, s4];
  }

  /** The newer timer then confirms the plug offline a minute after an Online that came since
      its Offline, although no Online ever found its callback in flight. */
  lemma StrayTimerConfirms(plug: PlugId)
    ensures exists ss: seq<State>, es: seq<Event> :: IsRun(ss, es) && |es| == 8
              && RunsCallback(ss, es, 7, plug, 1) && OnlineSince(ss, es, 7, plug, 1)
              && forall k :: !Overtakes(ss, es, k, plug, 1)
  {
    var before, first := LateBesideNewerRun(plug);
    var rest := [Callback(0, 60 * SECOND), Message(plug, "Online", false, 61 * SECOND),
                 Expire(1, 120 * SECOND), Callback(1, 120 * SECOND)];
    var s4 := before[4];
    var s5 := Next(s4, rest[0]);
    var s6 := Next(s5, rest[1]);
    var s7 := Next(s6, rest[2]);
    var s8 := Next(s7, rest[3]);
    assert plug !in s5.registered && s5.pool[1] == s4.pool[1];
    assert s6.pool == s5.pool && plug !in s6.registered;
    assert s7.pool[1] == s4.pool[1].(phase := InFlight);
    var ss, es := before + [s5, s6, s7, s8], first + rest;
    assert IsRun(ss, es) by {
      forall k | 0 <= k < |es| ensures ss[k + 1] == Next(ss[k], es[k]) {
        assert k < 4 ==> before[k + 1] == Next(before[k], first[k]);
      }
    }
    assert RunsCallback(ss, es, 7, plug, 1);
    assert ss[7].pool[1].start == 3 && IsOnline(es[5], plug);
    forall k ensures !Overtakes(ss, es, k, plug, 1) {
      assert 0 <= k < 8 && IsOnline(es[k], plug) ==> k == 2 || k == 5;
    }
  }

  // ---------------------------------------------------------------- notices

  /** The clock never goes back from one event to the next. */
  ghost predicate Timed(es: seq<Event>) {
    forall i, j :: 0 <= i < j < |es| ==> es[i].at <= es[j].at
  }

  /** Every notice is remembered. */
  ghost predicate Remembered(o: Outbox, clock: Instant) {
    forall x :: x in o.notices ==> x.at <= clock && x.plug in o.lastNotified && x.at <= o.lastNotified[x.plug]
  }

  /** Who passed the test is a cooldown behind every notice for the plug sent before it. */
  ghost predicate PassedOk(o: Outbox, clock: Instant) {
    forall k :: 0 <= k < |o.gates| && o.gates[k].stage.Passed? ==>
      && o.gates[k].stage.seen <= |o.notices|
      && forall i :: 0 <= i < o.gates[k].stage.seen && o.notices[i].plug == o.gates[k].plug ==>
           clock - o.notices[i].at >= OFFLINE_COOLDOWN
  }

  /** A notice is a cooldown after every notice for the plug sent before its test. */
  ghost predicate SpacedFromSeen(o: Outbox) {
    forall j :: 0 <= j < |o.notices| ==>
      && o.notices[j].seen <= j
      && forall i :: 0 <= i < o.notices[j].seen && o.notices[i].plug == o.notices[j].plug ==>
           o.notices[j].at - o.notices[i].at >= OFFLINE_COOLDOWN
  }

  ghost predicate OutboxOk(o: Outbox, clock: Instant) {
    Remembered(o, clock) && PassedOk(o, clock) && SpacedFromSeen(o)
  }

  lemma OutboxLater(o: Outbox, clock: Instant, later: Instant)
    requires OutboxOk(o, clock) && clock <= later
    ensures OutboxOk(o, later)
  {
  }

  lemma {:induction false} CheckKeepsOutbox(o: Outbox, k: nat, known: bool, at: Instant)
    requires OutboxOk(o, at)
    ensures OutboxOk(Checked(o, k, known, at), at)
  {
    if k < |o.gates| && o.gates[k].stage.Waiting? && known && !CoolsDown(o, o.gates[k].plug, at) {
      forall i | 0 <= i < |o.notices| && o.notices[i].plug == o.gates[k].plug
        ensures at - o.notices[i].at >= OFFLINE_COOLDOWN
      {
        assert o.notices[i] in o.notices;
      }
    }
  }

  lemma {:induction false} SendKeepsOutbox(o: Outbox, k: nat, at: Instant)
    requires OutboxOk(o, at)
    ensures OutboxOk(Sent(o, k, at), at)
  {
    if k < |o.gates| && o.gates[k].stage.Passed? {
      var t, x := Sent(o, k, at), Notice(o.gates[k].timer, o.gates[k].plug, at, o.gates[k].stage.seen);
      assert forall y :: y in t.notices <==> y in o.notices || y == x;
      assert forall i :: 0 <= i < |o.notices| ==> t.notices[i] == o.notices[i];
    }
  }

  lemma JoinKeepsOutbox(o: Outbox, timer: nat, plug: PlugId, at: Instant)
    requires OutboxOk(o, at)
    ensures OutboxOk(Joined(o, timer, plug), at)
  {
  }

  lemma {:induction false} StepKeepsOutbox(s: State, e: Event)
    requires OutboxOk(s.outbox, e.at)
    ensures OutboxOk(Next(s, e).outbox, e.at)
  {
    hide OutboxOk, Checked, Sent, Joined;
    match e
    case Message(_, _, _, _) =>
    case Expire(_, _) =>
    case Callback(id, at) =>
      if Confirms(s, e) {
        JoinKeepsOutbox(s.outbox, id, s.pool[id].plug, at);
      }
    case Check(k, known, at) => CheckKeepsOutbox(s.outbox, k, known, at);
    case Send(k, at) => SendKeepsOutbox(s.outbox, k, at);
  }

  lemma {:induction false} OutboxAlwaysOk(ss: seq<State>, es: seq<Event>, n: nat, clock: Instant)
    requires IsRun(ss, es) && Timed(es) && n < |ss| && (n > 0 ==> es[n - 1].at <= clock)
    ensures OutboxOk(ss[n].outbox, clock)
  {
    hide Next;
    if n == 0 {
      EmptyOutbox(clock);
    } else {
      OutboxAlwaysOk(ss, es, n - 1, es[n - 1].at);
      assert ss[(n - 1) + 1] == Next(ss[n - 1], es[n - 1]);
      StepKeepsOutbox(ss[n - 1], es[n - 1]);
      OutboxLater(ss[n].outbox, es[n - 1].at, clock);
    }
  }

  lemma EmptyOutbox(clock: Instant)
    ensures OutboxOk(INITIAL.outbox, clock)
  {
  }

  /** On every run two notices for one plug are at least a cooldown apart, unless the cooldown
      of the later one was tested before the earlier one was sent. */
  lemma {:induction false} NoticesAreSpaced(ss: seq<State>, es: seq<Event>, n: nat, i: nat, j: nat)
    requires IsRun(ss, es) && Timed(es) && n < |ss|
    requires i < j < |ss[n].outbox.notices| && ss[n].outbox.notices[i].plug == ss[n].outbox.notices[j].plug
    ensures var early, late := ss[n].outbox.notices[i], ss[n].outbox.notices[j];
            late.at - early.at < OFFLINE_COOLDOWN ==> late.seen <= i
  {
    OutboxAlwaysOk(ss, es, n, if n > 0 then es[n - 1].at else 0);
  }

  /** The gates are those of the live callbacks that have run, one each; and a notice is of a
      callback whose gate is done, one each. */
  ghost predicate GatesOk(s: State) {
    && (forall k :: 0 <= k < |s.outbox.gates| ==> IsGateOf(s, s.outbox.gates[k]))
    && (forall j, k :: 0 <= j < k < |s.outbox.gates| ==> s.outbox.gates[j].timer != s.outbox.gates[k].timer)
    && (forall id :: 0 <= id < |s.pool| && s.pool[id].phase.Ran? && !s.pool[id].retained ==> HasGate(s, id))
  }

  ghost predicate IsGateOf(s: State, g: Gate) {
    && g.timer < |s.pool| && s.pool[g.timer].phase.Ran? && !s.pool[g.timer].retained
    && s.pool[g.timer].plug == g.plug
  }

  ghost predicate HasGate(s: State, id: int) {
    exists k :: 0 <= k < |s.outbox.gates| && s.outbox.gates[k].timer == id
  }

  ghost predicate NoticesOk(o: Outbox) {
    && (forall j :: 0 <= j < |o.notices| ==> IsDoneWith(o, o.notices[j]))
    && (forall i, j :: 0 <= i < j < |o.notices| ==> o.notices[i].timer != o.notices[j].timer)
  }

  ghost predicate IsDoneWith(o: Outbox, x: Notice) {
    exists k :: 0 <= k < |o.gates| && o.gates[k] == Gate(x.timer, x.plug, Done)
  }

  /** A timer whose callback has run ran before the step, or in it. */
  lemma RanBefore(s: State, e: Event, id: nat)
    requires id < |Next(s, e).pool| && Next(s, e).pool[id].phase.Ran?
    ensures if e.Callback? && e.timer == id && Confirms(s, e)
            then Next(s, e).pool[id] == s.pool[id].(phase := Ran) && Next(s, e) == OnCallback(s, id)
            else id < |s.pool| && Next(s, e).pool[id] == s.pool[id]
  {
  }

  /** Gates keep their timer and plug, and a new one is of the callback just run. */
  lemma GatesKeepTimers(s: State, e: Event)
    ensures var g, g' := s.outbox.gates, Next(s, e).outbox.gates;
            && |g| <= |g'| <= |g| + 1
            && (forall k :: 0 <= k < |g| ==> g'[k].timer == g[k].timer && g'[k].plug == g[k].plug)
            && (|g'| == |g| + 1 <==> Confirms(s, e) && !s.pool[e.timer].retained)
            && (|g'| == |g| + 1 ==> g'[|g|] == Gate(e.timer, s.pool[e.timer].plug, Waiting))
  {
  }

  /** The step leaves the timers of the gates as they are. */
  lemma {:induction false} RanTimersStay(s: State, e: Event, id: nat)
    requires id < |s.pool| && s.pool[id].phase.Ran?
    ensures id < |Next(s, e).pool| && Next(s, e).pool[id] == s.pool[id]
  {
  }

  lemma CallbackRuns(s: State, e: Event)
    requires Confirms(s, e)
    ensures e.timer < |Next(s, e).pool| && Next(s, e).pool[e.timer] == s.pool[e.timer].(phase := Ran)
  {
  }

  lemma {:induction false} StepKeepsGates(s: State, e: Event)
    requires GatesOk(s)
    ensures GatesOk(Next(s, e))
  {
    hide Next, OnCallback;
    var t := Next(s, e);
    GatesKeepTimers(s, e);
    forall k | 0 <= k < |t.outbox.gates| ensures IsGateOf(t, t.outbox.gates[k]) {
      if k < |s.outbox.gates| {
        assert IsGateOf(s, s.outbox.gates[k]);
        RanTimersStay(s, e, s.outbox.gates[k].timer);
      } else {
        CallbackRuns(s, e);
      }
    }
    forall id | 0 <= id < |t.pool| && t.pool[id].phase.Ran? && !t.pool[id].retained ensures HasGate(t, id) {
      RanBefore(s, e, id);
      if e.Callback? && e.timer == id && Confirms(s, e) {
        assert t.outbox.gates[|s.outbox.gates|].timer == id;
      } else {
        var k :| 0 <= k < |s.outbox.gates| && s.outbox.gates[k].timer == id;
        assert t.outbox.gates[k].timer == id;
      }
    }
  }

  lemma {:induction false} StepKeepsNotices(o: Outbox, o': Outbox, k: nat, at: Instant)
    requires NoticesOk(o) && forall i, j :: 0 <= i < j < |o.gates| ==> o.gates[i].timer != o.gates[j].timer
    requires o' == Sent(o, k, at)
    ensures NoticesOk(o')
  {
    forall j | 0 <= j < |o'.notices| ensures IsDoneWith(o', o'.notices[j]) {
      if j < |o.notices| {
        var i :| 0 <= i < |o.gates| && o.gates[i] == Gate(o.notices[j].timer, o.notices[j].plug, Done);
        assert o'.gates[i] == o.gates[i];
      } else {
        assert o'.gates[k] == Gate(o'.notices[j].timer, o'.notices[j].plug, Done);
      }
    }
  }

  lemma {:induction false} OthersKeepNotices(o: Outbox, o': Outbox)
    requires NoticesOk(o) && o'.notices == o.notices && |o.gates| <= |o'.gates|
    requires forall k :: 0 <= k < |o.gates| && o.gates[k].stage.Done? ==> o'.gates[k] == o.gates[k]
    ensures NoticesOk(o')
  {
    forall j | 0 <= j < |o'.notices| ensures IsDoneWith(o', o'.notices[j]) {
      assert IsDoneWith(o, o.notices[j]);
    }
  }

  lemma {:induction false} GatesAlwaysOk(ss: seq<State>, es: seq<Event>, n: nat)
    requires IsRun(ss, es) && n < |ss|
    ensures GatesOk(ss[n]) && NoticesOk(ss[n].outbox)
  {
    if n > 0 {
      GatesAlwaysOk(ss, es, n - 1);
      var s, e := ss[n - 1], es[n - 1];
      assert ss[(n - 1) + 1] == Next(s, e);
      StepKeepsGates(s, e);
      if e.Send? {
        StepKeepsNotices(s.outbox, ss[n].outbox, e.gate, e.at);
      } else {
        hide GatesOk, NoticesOk;
        OthersKeepNotices(s.outbox, ss[n].outbox);
      }
    }
  }

  /** On every run every notice is of a live Offline of its plug whose callback has run, and no
      callback sends two; and every callback of a live Offline goes on to its cooldown. */
  lemma {:induction false} NoticesAreOfLiveOfflines(ss: seq<State>, es: seq<Event>, n: nat, j: nat)
    requires IsRun(ss, es) && n < |ss| && j < |ss[n].outbox.notices|
    ensures var x := ss[n].outbox.notices[j];
            && x.timer < |ss[n].pool| && ss[n].pool[x.timer].phase.Ran?
            && var start := ss[n].pool[x.timer].start;
               start < n && IsOffline(es[start], x.plug) && !es[start].retained
    ensures forall i :: 0 <= i < |ss[n].outbox.notices| && i != j ==>
              ss[n].outbox.notices[i].timer != ss[n].outbox.notices[j].timer
  {
    GatesAlwaysOk(ss, es, n);
    PoolAlwaysOk(ss, es, n);
    var o := ss[n].outbox;
    assert IsDoneWith(o, o.notices[j]);
    var k :| 0 <= k < |o.gates| && o.gates[k] == Gate(o.notices[j].timer, o.notices[j].plug, Done);
    assert IsGateOf(ss[n], o.gates[k]);
    assert StartedBy(ss[n].pool[o.gates[k].timer], ss[n].events, es);
  }

  lemma {:induction false} LiveCallbacksGoOn(ss: seq<State>, es: seq<Event>, n: nat, id: nat)
    requires IsRun(ss, es) && n < |ss| && id < |ss[n].pool|
    ensures HasGate(ss[n], id) <==> ss[n].pool[id].phase.Ran? && !ss[n].pool[id].retained
  {
    GatesAlwaysOk(ss, es, n);
    hide IsRun;
    if HasGate(ss[n], id) {
      var k :| 0 <= k < |ss[n].outbox.gates| && ss[n].outbox.gates[k].timer == id;
      assert IsGateOf(ss[n], ss[n].outbox.gates[k]);
    }
  }

  /** Closer notices happen: two callbacks of one plug, in flight together, both pass and both notify. */
  lemma TwoNoticesAtOnce(plug: PlugId)
    ensures exists ss: seq<State>, es: seq<Event> ::
              && IsRun(ss, es) && Timed(es) && |es| == 11
              && ss[11].outbox.notices == [Notice(0, plug, 120 * SECOND, 0), Notice(1, plug, 120 * SECOND, 0)]
  {
    var before, first := LateBesideNewerRun(plug);
    var now := 120 * SECOND;
    var rest := [Expire(1, now), Callback(0, now), Callback(1, now), Check(0, true, now), Check(1, true, now),
                 Send(0, now), Send(1, now)];
    var s5 := Next(before[4], rest[0]);
    var s6 := Next(s5, rest[1]);
    var s7 := Next(s6, rest[2]);
    assert s7.outbox == Outbox([Gate(0, plug, Waiting), Gate(1, plug, Waiting)], map[], []);
    var s8 := Next(s7, rest[3]);
    var s9 := Next(s8, rest[4]);
    assert s9.outbox == Outbox([Gate(0, plug, Passed(0)), Gate(1, plug, Passed(0))], map[], []);
    var s10 := Next(s9, rest[5]);
    var s11 := Next(s10, rest[6]);
    assert s11.outbox.notices == [Notice(0, plug, now, 0), Notice(1, plug, now, 0)];
    var ss, es := before + [s5, s6, s7, s8, s9, s10, s11], first + rest;
    assert IsRun(ss, es) by {
      forall k | 0 <= k < |es| ensures ss[k + 1] == Next(ss[k], es[k]) {
        assert k < 4 ==> before[k + 1] == Next(before[k], first[k]);
      }
    }
    assert Timed(es);
  }
}
