/** Confirmation of relay commands by the plug's own reports
    (api/mqtt/dispatcher.go, api/mqtt/publisher.go). */
module PowerConfirm {
  import opened Wrappers
  import opened Models

  type ChannelId = nat

  function Lookup<V>(m: map<PlugId, V>, plug: PlugId): Option<V> {
    if plug in m then Some(m[plug]) else None
  }

  // ---------------------------------------------------------------- waiters and reports

  /** A dispatched report, and the channel that was registered for its plug. */
  datatype Report = Report(plug: PlugId, on: bool, retained: bool, taker: Option<ChannelId>)

  /** A power command as published. */
  datatype Command = Command(plug: PlugId, on: bool)

  /** A one-place channel. Values are the numbers of the reports they carry; `since` counts
      the reports dispatched before the channel was registered. */
  datatype Channel = Channel(plug: PlugId, since: nat, fired: bool, buffer: seq<nat>)

  /** A report taken off the table whose send is still to come. */
  datatype Flight = Flight(channel: ChannelId, report: nat)

  datatype Phase = Publishing | Waiting | Confirmed(report: nat) | GaveUp

  /** A call of `SetPowerAndWait`; `since` counts the reports dispatched before it began. */
  datatype Waiter = Waiter(plug: PlugId, commanded: bool, since: nat, channel: ChannelId, phase: Phase)

  /** `states` are the cached relay states; `manual` are the numbers of the reports that went
      to the manual handler; `sent` are the commands published. */
  datatype Bus = Bus(
    confirmers: map<PlugId, ChannelId>,
    channels: seq<Channel>,
    flights: seq<Flight>,
    waiters: seq<Waiter>,
    reports: seq<Report>,
    states: map<PlugId, bool>,
    manual: seq<nat>,
    sent: seq<Command>)

  const IDLE := Bus(map[], [], [], [], [], map[], [], [])

  /** The atomic actions of callers and dispatcher. `Abort` is a failed publish, a timeout or
      a cancelled context; `SetPower` is a command that nobody waits for; `Telemetry` is a
      periodic state message. */
  datatype Action =
    | Begin(plug: PlugId, on: bool)
    | Published(waiter: nat)
    | Dispatch(plug: PlugId, on: bool, retained: bool)
    | Send(flight: nat)
    | Receive(waiter: nat)
    | Abort(waiter: nat)
    | SetPower(plug: PlugId, on: bool)
    | Telemetry(plug: PlugId, on: bool)

  function Register(b: Bus, plug: PlugId): Bus {
    b.(confirmers := b.confirmers[plug := |b.channels|],
       channels := b.channels + [Channel(plug, |b.reports|, false, [])])
  }

  predicate Live(b: Bus, w: nat) {
    w < |b.waiters| && (b.waiters[w].phase.Publishing? || b.waiters[w].phase.Waiting?)
  }

  function Return(b: Bus, w: nat, phase: Phase): Bus
    requires w < |b.waiters|
  {
    b.(confirmers := b.confirmers - {b.waiters[w].plug}, waiters := b.waiters[w := b.waiters[w].(phase := phase)])
  }

  /** A live report that no call waits for and that changes a known state counts as a manual
      switch. */
  predicate ReachesHandler(b: Bus, plug: PlugId, on: bool, retained: bool) {
    !retained && plug !in b.confirmers && Lookup(b.states, plug) == Some(!on)
  }

  /** `dispatchSTAT_POWER` up to the send. */
  function DoDispatch(b: Bus, plug: PlugId, on: bool, retained: bool): Bus {
    var taker := Lookup(b.confirmers, plug);
    var reported := b.(reports := b.reports + [Report(plug, on, retained, taker)],
                       states := b.states[plug := on],
                       manual := if ReachesHandler(b, plug, on, retained) then b.manual + [|b.reports|] else b.manual);
    if taker.None? then reported
    else reported.(confirmers := b.confirmers - {plug}, flights := b.flights + [Flight(taker.value, |b.reports|)])
  }

  /** A send that finds the place taken would block; one after another send does nothing. */
  predicate CanSend(b: Bus, k: nat) {
    && k < |b.flights|
    && b.flights[k].channel < |b.channels|
    && !b.channels[b.flights[k].channel].fired
    && b.channels[b.flights[k].channel].buffer == []
  }

  function DoSend(b: Bus, k: nat): Bus
    requires CanSend(b, k)
  {
    var f := b.flights[k];
    var c := b.channels[f.channel];
    b.(flights := b.flights[..k] + b.flights[k + 1..],
       channels := b.channels[f.channel := c.(fired := true, buffer := c.buffer + [f.report])])
  }

  function Drained(b: Bus, c: ChannelId): Bus
    requires c < |b.channels| && b.channels[c].buffer != []
  {
    b.(channels := b.channels[c := b.channels[c].(buffer := b.channels[c].buffer[1..])])
  }

  /** A waiter takes the value off its channel: the commanded state ends the wait, the
      opposite one makes it register again. */
  function DoReceive(b: Bus, w: nat): Bus
    requires w < |b.waiters| && b.waiters[w].channel < |b.channels|
    requires b.channels[b.waiters[w].channel].buffer != []
  {
    var me := b.waiters[w];
    var c := b.channels[me.channel];
    var report := c.buffer[0];
    var drained := Drained(b, me.channel);
    if report < |b.reports| && b.reports[report].on == me.commanded then Return(drained, w, Confirmed(report))
    else Register(drained, me.plug).(waiters := b.waiters[w := me.(channel := |b.channels|)])
  }

  function Apply(b: Bus, a: Action): Bus {
    match a
    case Begin(plug, on) =>
      Register(b, plug).(waiters := b.waiters + [Waiter(plug, on, |b.reports|, |b.channels|, Publishing)])
    case Published(w) =>
      if Live(b, w) then
        b.(waiters := b.waiters[w := b.waiters[w].(phase := Waiting)],
           sent := b.sent + [Command(b.waiters[w].plug, b.waiters[w].commanded)])
      else b
    case Dispatch(plug, on, retained) => DoDispatch(b, plug, on, retained)
    case Send(k) => if CanSend(b, k) then DoSend(b, k) else b
    case Receive(w) =>
      if w < |b.waiters| && b.waiters[w].phase.Waiting? && b.waiters[w].channel < |b.channels|
         && b.channels[b.waiters[w].channel].buffer != []
      then DoReceive(b, w) else b
    case Abort(w) => if Live(b, w) then Return(b, w, GaveUp) else b
    case SetPower(plug, on) => b.(sent := b.sent + [Command(plug, on)])
    case Telemetry(plug, on) => b.(states := b.states[plug := on])
  }

  function Run(actions: seq<Action>): Bus {
    if actions == [] then IDLE
    else Apply(Run(actions[..|actions| - 1]), actions[|actions| - 1])
  }

  // ---------------------------------------------------------------- the dispatcher

  /** The relay bookkeeping of the dispatcher: at most one registered channel per plug. Each
      method performs the dispatcher's half of an action on a bus that the fields show. */
  class Dispatcher {
    var confirmers: map<PlugId, ChannelId>
    var lastPowerStates: map<PlugId, bool>
    var channels: nat

    ghost predicate Shows(b: Bus)
      reads this
    {
      confirmers == b.confirmers && channels == |b.channels| && lastPowerStates == b.states
    }

    constructor ()
      ensures Shows(IDLE)
    {
      confirmers, lastPowerStates, channels := map[], map[], 0;
    }

    /** A fresh channel; one registered before for the plug is forgotten. */
    method RegisterPowerConfirm(ghost b: Bus, plug: PlugId) returns (c: ChannelId)
      requires Shows(b)
      modifies this`confirmers, this`channels
      ensures Shows(Register(b, plug))
      ensures c == old(channels)
    {
      c := channels;
      channels := channels + 1;
      confirmers := confirmers[plug := c];
    }

    /** Run when a call returns. Removes whatever channel is registered for the plug, not
        only the caller's. */
    method RemovePowerConfirm(ghost b: Bus, ghost w: nat, plug: PlugId)
      requires Shows(b) && w < |b.waiters| && b.waiters[w].plug == plug
      modifies this`confirmers
      ensures confirmers == old(confirmers) - {plug}
      ensures forall phase :: Shows(Return(b, w, phase))
    {
      confirmers := confirmers - {plug};
    }

    /** `dispatchSTAT_POWER` up to the send: the channel to signal, and whether the manual
        handler runs. Bad payloads and unknown plugs are dropped. */
    method DispatchStatPower(ghost b: Bus, plug: Option<PlugId>, payload: Option<bool>, retained: bool,
                             handlerWired: bool)
      returns (taken: Option<ChannelId>, manual: bool)
      requires Shows(b)
      modifies this`confirmers, this`lastPowerStates
      ensures plug.None? || payload.None? ==> Shows(b) && taken.None? && !manual
      ensures plug.Some? && payload.Some? ==>
                && Shows(DoDispatch(b, plug.value, payload.value, retained))
                && taken == Lookup(b.confirmers, plug.value)
                && (manual <==> handlerWired && ReachesHandler(b, plug.value, payload.value, retained))
    {
      if plug.None? || payload.None? {
        return None, false;
      }
      var p, on := plug.value, payload.value;
      var prev := Lookup(lastPowerStates, p);
      lastPowerStates := lastPowerStates[p := on];
      taken := Lookup(confirmers, p);
      if taken.Some? {
        confirmers := confirmers - {p};
      }
      manual := handlerWired && !retained && taken.None? && prev.Some? && prev.value != on;
    }
  }

  // ---------------------------------------------------------------- what every interleaving keeps

  /** Report r was dispatched to channel c, after c was registered. */
  ghost predicate Carries(b: Bus, c: ChannelId, r: nat) {
    && c < |b.channels| && r < |b.reports|
    && b.reports[r].taker == Some(c)
    && b.reports[r].plug == b.channels[c].plug
    && b.channels[c].since <= r
  }

  ghost predicate Untouched(b: Bus, c: ChannelId) {
    && c < |b.channels| && !b.channels[c].fired && b.channels[c].buffer == []
  }

  ghost predicate TableOk(b: Bus) {
    && (forall p :: p in b.confirmers ==>
          Untouched(b, b.confirmers[p]) && b.channels[b.confirmers[p]].plug == p)
    && (forall p, r :: p in b.confirmers && 0 <= r < |b.reports| ==> b.reports[r].taker != Some(b.confirmers[p]))
  }

  ghost predicate FlightsOk(b: Bus) {
    && (forall k :: 0 <= k < |b.flights| ==>
          Carries(b, b.flights[k].channel, b.flights[k].report) && Untouched(b, b.flights[k].channel))
    && (forall j, k :: 0 <= j < k < |b.flights| ==> b.flights[j].channel != b.flights[k].channel)
  }

  ghost predicate ChannelsOk(b: Bus) {
    && (forall c :: 0 <= c < |b.channels| ==> |b.channels[c].buffer| <= 1 && b.channels[c].since <= |b.reports|)
    && (forall c :: 0 <= c < |b.channels| && b.channels[c].buffer != [] ==> Carries(b, c, b.channels[c].buffer[0]))
    && (forall r :: 0 <= r < |b.reports| && b.reports[r].taker.Some? ==> b.reports[r].taker.value < |b.channels|)
  }

  ghost predicate WaitersOk(b: Bus) {
    && (forall w :: 0 <= w < |b.waiters| ==> WaiterOk(b, b.waiters[w]))
    && (forall v, w :: 0 <= v < w < |b.waiters| ==> b.waiters[v].channel != b.waiters[w].channel)
  }

  ghost predicate WaiterOk(b: Bus, w: Waiter) {
    && w.channel < |b.channels|
    && b.channels[w.channel].plug == w.plug
    && w.since <= b.channels[w.channel].since
    && (w.phase.Confirmed? ==> Carries(b, w.channel, w.phase.report) && b.reports[w.phase.report].on == w.commanded)
  }

  ghost predicate Good(b: Bus) {
    TableOk(b) && FlightsOk(b) && ChannelsOk(b) && WaitersOk(b)
  }

  lemma {:induction false} RegisterKeepsGood(b: Bus, plug: PlugId)
    requires Good(b)
    ensures Good(Register(b, plug))
  {
  }

  lemma {:induction false} DispatchKeepsGood(b: Bus, plug: PlugId, on: bool, retained: bool)
    requires Good(b)
    ensures Good(DoDispatch(b, plug, on, retained))
  {
    hide ReachesHandler;
    DispatchKeepsWaiters(b, plug, on, retained);
    DispatchKeepsFlights(b, plug, on, retained);
    hide WaiterOk, WaitersOk, FlightsOk;
  }

  lemma {:induction false} DispatchKeepsWaiters(b: Bus, plug: PlugId, on: bool, retained: bool)
    requires Good(b)
    ensures WaitersOk(DoDispatch(b, plug, on, retained))
  {
    hide ReachesHandler, TableOk, FlightsOk;
  }

  lemma {:induction false} DispatchKeepsFlights(b: Bus, plug: PlugId, on: bool, retained: bool)
    requires Good(b)
    ensures FlightsOk(DoDispatch(b, plug, on, retained))
  {
    hide ReachesHandler, WaitersOk;
  }

  lemma {:induction false} SendKeepsGood(b: Bus, k: nat)
    requires Good(b) && CanSend(b, k)
    ensures Good(DoSend(b, k))
  {
  }

  lemma {:induction false} ReturnKeepsGood(b: Bus, w: nat, phase: Phase)
    requires Good(b) && w < |b.waiters|
    requires phase.Confirmed? ==>
               Carries(b, b.waiters[w].channel, phase.report) && b.reports[phase.report].on == b.waiters[w].commanded
    ensures Good(Return(b, w, phase))
  {
  }

  lemma {:induction false} DrainKeepsGood(b: Bus, c: ChannelId)
    requires Good(b) && c < |b.channels| && b.channels[c].buffer != []
    ensures Good(Drained(b, c))
  {
  }

  lemma {:induction false} MovedKeepsGood(b: Bus, w: nat)
    requires Good(b) && w < |b.waiters| && b.waiters[w].phase.Waiting?
    ensures Good(Register(b, b.waiters[w].plug).(waiters := b.waiters[w := b.waiters[w].(channel := |b.channels|)]))
  {
    RegisterKeepsGood(b, b.waiters[w].plug);
  }

  lemma {:induction false} ReceiveKeepsGood(b: Bus, w: nat)
    requires Good(b) && w < |b.waiters| && b.waiters[w].phase.Waiting?
    requires b.waiters[w].channel < |b.channels| && b.channels[b.waiters[w].channel].buffer != []
    ensures Good(DoReceive(b, w))
  {
    var me := b.waiters[w];
    var drained := Drained(b, me.channel);
    DrainKeepsGood(b, me.channel);
    var report := b.channels[me.channel].buffer[0];
    assert Carries(b, me.channel, report) && Carries(drained, me.channel, report);
    if b.reports[report].on == me.commanded {
      ReturnKeepsGood(drained, w, Confirmed(report));
    } else {
      MovedKeepsGood(drained, w);
    }
  }

  lemma {:induction false} BeginKeepsGood(b: Bus, plug: PlugId, on: bool)
    requires Good(b)
    ensures Good(Apply(b, Begin(plug, on)))
  {
    RegisterKeepsGood(b, plug);
  }

  lemma {:induction false} PublishedKeepsGood(b: Bus, w: nat)
    requires Good(b)
    ensures Good(Apply(b, Published(w)))
  {
  }

  lemma {:induction false} OthersKeepGood(b: Bus, a: Action)
    requires Good(b) && (a.SetPower? || a.Telemetry?)
    ensures Good(Apply(b, a))
  {
  }

  lemma {:induction false} ActionKeepsGood(b: Bus, a: Action)
    requires Good(b)
    ensures Good(Apply(b, a))
  {
    match a {
      case Begin(plug, on) => BeginKeepsGood(b, plug, on);
      case Published(w) => PublishedKeepsGood(b, w);
      case Dispatch(plug, on, retained) => DispatchKeepsGood(b, plug, on, retained);
      case Send(k) => if CanSend(b, k) { SendKeepsGood(b, k); }
      case Receive(w) => if Apply(b, a) != b { ReceiveKeepsGood(b, w); }
      case Abort(w) => if Live(b, w) { ReturnKeepsGood(b, w, GaveUp); }
      case SetPower(_, _) => OthersKeepGood(b, a);
      case Telemetry(_, _) => OthersKeepGood(b, a);
    }
  }

  lemma {:induction false} RunsAreGood(actions: seq<Action>)
    ensures Good(Run(actions))
  {
    if actions != [] {
      RunsAreGood(actions[..|actions| - 1]);
      ActionKeepsGood(Run(actions[..|actions| - 1]), actions[|actions| - 1]);
    }
  }

  /** A dispatcher that took a channel can always send: the place is free and nothing was ever
      sent on it, so dispatching never blocks, no taken report is lost and no channel gets a
      second value. */
  lemma DispatchNeverBlocks(actions: seq<Action>, k: nat)
    requires k < |Run(actions).flights|
    ensures CanSend(Run(actions), k)
  {
    RunsAreGood(actions);
  }

  /** A call answers true only after a report of the commanded state for its plug, dispatched
      after the call had registered; and no report ever confirms two calls. */
  lemma ConfirmedByOwnReport(actions: seq<Action>, v: nat, w: nat)
    requires v < |Run(actions).waiters| && Run(actions).waiters[v].phase.Confirmed?
    requires w < |Run(actions).waiters| && Run(actions).waiters[w].phase.Confirmed?
    ensures var b := Run(actions);
            var r := b.waiters[v].phase.report;
            && b.waiters[v].since <= r < |b.reports|
            && b.reports[r].plug == b.waiters[v].plug && b.reports[r].on == b.waiters[v].commanded
            && (v != w ==> b.waiters[w].phase.report != r)
  {
    RunsAreGood(actions);
  }

  // ---------------------------------------------------------------- a value ends the wait

  /** The waiting call has a report of the commanded state in hand. */
  ghost predicate HasMatch(b: Bus, w: nat) {
    && w < |b.waiters| && b.waiters[w].phase.Waiting? && b.waiters[w].channel < |b.channels|
    && var values := b.channels[b.waiters[w].channel].buffer;
       values != [] && values[0] < |b.reports| && b.reports[values[0]].on == b.waiters[w].commanded
  }

  /** After any run, a call that takes a value is confirmed by it exactly when it is a report
      of the commanded state; after the opposite report it waits on, on a fresh channel that is
      now the registered one. Either way nothing else changes hands. */
  lemma ReceiveEndsWaitExactly(actions: seq<Action>, w: nat)
    requires var b := Run(actions);
             && w < |b.waiters| && b.waiters[w].phase.Waiting? && b.waiters[w].channel < |b.channels|
             && b.channels[b.waiters[w].channel].buffer != []
    ensures var b := Run(actions);
            var t, r := Apply(b, Receive(w)), b.channels[b.waiters[w].channel].buffer[0];
            && r < |b.reports| && |t.waiters| == |b.waiters| && t.reports == b.reports
            && (forall v :: 0 <= v < |b.waiters| && v != w ==> t.waiters[v] == b.waiters[v])
            && (b.reports[r].on == b.waiters[w].commanded ==>
                  t.waiters[w] == b.waiters[w].(phase := Confirmed(r)) && b.waiters[w].plug !in t.confirmers)
            && (b.reports[r].on != b.waiters[w].commanded ==>
                  && t.waiters[w] == b.waiters[w].(channel := |b.channels|)
                  && t.confirmers == b.confirmers[b.waiters[w].plug := |b.channels|]
                  && Untouched(t, |b.channels|) && t.channels[|b.channels|].since == |b.reports|)
  {
    RunsAreGood(actions);
    var b := Run(actions);
    assert Carries(b, b.waiters[w].channel, b.channels[b.waiters[w].channel].buffer[0]);
  }

  /** From a report to the call that is registered for its plug: after any run, dispatch, send
      and receive hand it over, and the call is confirmed if the report is of its state. */
  lemma ReportReachesCall(b: Bus, w: nat, on: bool, retained: bool)
    requires Good(b) && w < |b.waiters| && b.waiters[w].phase.Waiting?
    requires Lookup(b.confirmers, b.waiters[w].plug) == Some(b.waiters[w].channel)
    ensures var dispatched := Apply(b, Dispatch(b.waiters[w].plug, on, retained));
            var sent := Apply(dispatched, Send(|b.flights|));
            var t := Apply(sent, Receive(w));
            && |t.waiters| == |b.waiters| && |t.reports| == |b.reports| + 1
            && if on == b.waiters[w].commanded then t.waiters[w] == b.waiters[w].(phase := Confirmed(|b.reports|))
               else t.waiters[w] == b.waiters[w].(channel := |b.channels|)
                    && Lookup(t.confirmers, b.waiters[w].plug) == Some(|b.channels|)
  {
    var plug, c := b.waiters[w].plug, b.waiters[w].channel;
    var dispatched := Apply(b, Dispatch(plug, on, retained));
    assert dispatched.flights[|b.flights|] == Flight(c, |b.reports|) && dispatched.waiters == b.waiters;
    assert dispatched.channels == b.channels && Untouched(b, c);
    assert CanSend(dispatched, |b.flights|);
    var sent := Apply(dispatched, Send(|b.flights|));
    assert sent.channels[c].buffer == [|b.reports|] && sent.waiters == b.waiters;
    assert sent.reports[|b.reports|].on == on;
  }

  /** A call that has begun and published its command waits on the registered channel. */
  lemma BegunWaits(b: Bus, plug: PlugId, on: bool)
    requires Good(b)
    ensures var w, t := |b.waiters|, Apply(Apply(b, Begin(plug, on)), Published(|b.waiters|));
            && Good(t) && w < |t.waiters|
            && t.waiters[w] == Waiter(plug, on, |b.reports|, |b.channels|, Waiting)
            && Lookup(t.confirmers, plug) == Some(|b.channels|)
            && t.flights == b.flights && t.reports == b.reports && t.sent == b.sent + [Command(plug, on)]
  {
    BeginKeepsGood(b, plug, on);
    PublishedKeepsGood(Apply(b, Begin(plug, on)), |b.waiters|);
    hide Good;
  }

  lemma DeliveriesSendNothing(b: Bus, a: Action)
    requires a.Dispatch? || a.Send? || a.Receive?
    ensures Apply(b, a).sent == b.sent
  {
  }

  /** After any run, a call whose plug answers with the commanded state before anyone else
      steps in has published its command and is confirmed by that very report. */
  lemma AwaitedCommandConfirms(actions: seq<Action>, plug: PlugId, on: bool, retained: bool)
    ensures var b := Run(actions);
            var w := |b.waiters|;
            var waiting := Apply(Apply(b, Begin(plug, on)), Published(w));
            var t := Apply(Apply(Apply(waiting, Dispatch(plug, on, retained)), Send(|b.flights|)), Receive(w));
            && w < |t.waiters| && t.waiters[w].phase == Confirmed(|b.reports|)
            && t.sent == b.sent + [Command(plug, on)]
  {
    RunsAreGood(actions);
    hide Run, Good, Apply;
    var b := Run(actions);
    BegunWaits(b, plug, on);
    var waiting := Apply(Apply(b, Begin(plug, on)), Published(|b.waiters|));
    ReportReachesCall(waiting, |b.waiters|, on, retained);
    var dispatched := Apply(waiting, Dispatch(plug, on, retained));
    DeliveriesSendNothing(waiting, Dispatch(plug, on, retained));
    DeliveriesSendNothing(dispatched, Send(|b.flights|));
    DeliveriesSendNothing(Apply(dispatched, Send(|b.flights|)), Receive(|b.waiters|));
  }

  // ---------------------------------------------------------------- the call

  /** What a waiting call is woken by. */
  datatype Signal = Value | DeadlineReached | ContextDone

  /** What happens until a call is next woken: actions of everyone else, then a signal. */
  datatype Wake = Wake(others: seq<Action>, signal: Signal)

  datatype Answer = PowerSet | PublishFailed | ConfirmationTimeout | ContextCancelled

  /** The action is not one of call `w`. */
  predicate Foreign(a: Action, w: nat) {
    !(a.Published? && a.waiter == w) && !(a.Receive? && a.waiter == w) && !(a.Abort? && a.waiter == w)
  }

  predicate AllForeign(others: seq<Action>, w: nat) {
    forall i :: 0 <= i < |others| ==> Foreign(others[i], w)
  }

  predicate ForeignWakes(wakes: seq<Wake>, w: nat) {
    forall i :: 0 <= i < |wakes| ==> AllForeign(wakes[i].others, w)
  }

  /** Report number `since` or a later one says that the plug is in this state. */
  ghost predicate HasReport(b: Bus, plug: PlugId, on: bool, since: nat) {
    exists r :: since <= r < |b.reports| && b.reports[r].plug == plug && b.reports[r].on == on
  }

  lemma {:induction false} ForeignLeaves(b: Bus, a: Action, w: nat)
    requires Foreign(a, w) && w < |b.waiters|
    ensures w < |Apply(b, a).waiters| && Apply(b, a).waiters[w] == b.waiters[w]
    ensures |b.reports| <= |Apply(b, a).reports|
  {
  }

  /** The actions up to wake k of call `w`: everyone's before it began, its own, and the
      others' between its wakes. */
  ghost function Past(before: seq<Action>, plug: PlugId, on: bool, w: nat, wakes: seq<Wake>, k: nat): seq<Action>
    requires k <= |wakes|
  {
    if k == 0 then before + [Begin(plug, on), Published(w)]
    else Past(before, plug, on, w, wakes, k - 1) + wakes[k - 1].others + [Receive(w)]
  }

  /** Wake k finds a report of the commanded state in hand, and no wake up to it is by the
      timer or the context. */
  ghost predicate EndsAt(before: seq<Action>, plug: PlugId, on: bool, w: nat, wakes: seq<Wake>, k: int) {
    && 0 <= k < |wakes| && (forall i :: 0 <= i <= k ==> wakes[i].signal.Value?)
    && HasMatch(Run(Past(before, plug, on, w, wakes, k) + wakes[k].others), w)
  }

  /** The shared bus, with the history that led to it. */
  class Line {
    var bus: Bus
    ghost var actions: seq<Action>

    ghost predicate Valid()
      reads this
    {
      bus == Run(actions)
    }

    constructor ()
      ensures Valid() && bus == IDLE
    {
      bus, actions := IDLE, [];
    }

    method Do(a: Action)
      requires Valid()
      modifies this
      ensures Valid() && bus == Apply(old(bus), a) && actions == old(actions) + [a]
    {
      bus := Apply(bus, a);
      actions := actions + [a];
      assert actions[..|actions| - 1] == old(actions);
    }

    method DoAll(others: seq<Action>, ghost w: nat)
      requires Valid() && w < |bus.waiters| && AllForeign(others, w)
      modifies this
      ensures Valid() && w < |bus.waiters| && bus.waiters[w] == old(bus.waiters[w])
      ensures old(|bus.reports|) <= |bus.reports| && actions == old(actions) + others
    {
      for i := 0 to |others|
        invariant actions == old(actions) + others[..i]
        invariant Valid() && w < |bus.waiters| && bus.waiters[w] == old(bus.waiters[w])
        invariant old(|bus.reports|) <= |bus.reports|
      {
        ForeignLeaves(bus, others[i], w);
        Do(others[i]);
        assert others[..i + 1] == others[..i] + [others[i]];
      }
      assert others[..|others|] == others;
    }

    ghost predicate IsWaiting(w: nat, plug: PlugId, on: bool, since: nat)
      reads this
    {
      && w < |bus.waiters| && bus.waiters[w].phase.Waiting? && since <= |bus.reports|
      && bus.waiters[w].plug == plug && bus.waiters[w].commanded == on && bus.waiters[w].since == since
    }

    /** Call `w` is over and nothing is registered for its plug. */
    ghost predicate IsOver(w: nat, plug: PlugId, on: bool, since: nat, confirmed: bool)
      reads this
    {
      && plug !in bus.confirmers
      && w < |bus.waiters| && bus.waiters[w].plug == plug && bus.waiters[w].commanded == on
      && if confirmed then bus.waiters[w].phase.Confirmed? && HasReport(bus, plug, on, since)
         else bus.waiters[w].phase.GaveUp?
    }

    /** `SetPowerAndWait` among whatever others do: register, publish, then wait; register
        again after a report of the opposite state; give up on the timer or the context. It
        answers true exactly when some wake, before any by the timer or the context, finds a
        report of the commanded state in hand; and then that was dispatched since it began. */
    method SetPowerAndWait(plug: PlugId, on: bool, published: bool, wakes: seq<Wake>) returns (answer: Answer)
      requires Valid() && ForeignWakes(wakes, |bus.waiters|)
      modifies this
      ensures Valid() && IsOver(old(|bus.waiters|), plug, on, old(|bus.reports|), answer.PowerSet?)
      ensures answer.PublishFailed? <==> !published
      ensures answer.PowerSet? <==>
                published && exists k :: EndsAt(old(actions), plug, on, old(|bus.waiters|), wakes, k)
    {
      var w := |bus.waiters|;
      ghost var since := |bus.reports|;
      Do(Begin(plug, on));
      if !published {
        Do(Abort(w));
        return PublishFailed;
      }
      Do(Published(w));
      assert old(actions) + [Begin(plug, on)] + [Published(w)] == Past(old(actions), plug, on, w, wakes, 0);
      answer := Await(w, plug, on, wakes, since, old(actions));
    }

    /** Its wait. */
    method Await(w: nat, plug: PlugId, on: bool, wakes: seq<Wake>, ghost since: nat, ghost before: seq<Action>)
      returns (answer: Answer)
      requires Valid() && IsWaiting(w, plug, on, since) && ForeignWakes(wakes, w)
      requires actions == Past(before, plug, on, w, wakes, 0)
      modifies this
      ensures Valid() && IsOver(w, plug, on, since, answer.PowerSet?) && !answer.PublishFailed?
      ensures answer.PowerSet? <==> exists k :: EndsAt(before, plug, on, w, wakes, k)
    {
      hide Run, Apply, HasMatch, HasReport;
      for i := 0 to |wakes|
        invariant Valid() && IsWaiting(w, plug, on, since)
        invariant actions == Past(before, plug, on, w, wakes, i)
        invariant forall k :: 0 <= k < i ==> wakes[k].signal.Value?
        invariant forall k :: 0 <= k < i ==> !EndsAt(before, plug, on, w, wakes, k)
      {
        DoAll(wakes[i].others, w);
        match wakes[i].signal {
          case ContextDone =>
            GiveUp(w, plug, on, since);
            return ContextCancelled;
          case DeadlineReached =>
            GiveUp(w, plug, on, since);
            return ConfirmationTimeout;
          case Value =>
            var confirmed := TakeValue(w, plug, on, since);
            if confirmed {
              assert EndsAt(before, plug, on, w, wakes, i);
              return PowerSet;
            }
        }
      }
      GiveUp(w, plug, on, since);
      return ConfirmationTimeout;
    }

    method GiveUp(w: nat, plug: PlugId, on: bool, ghost since: nat)
      requires Valid() && IsWaiting(w, plug, on, since)
      modifies this
      ensures Valid() && IsOver(w, plug, on, since, false)
    {
      Do(Abort(w));
    }

    /** One receive of the wait, if there is a value. */
    method TakeValue(w: nat, plug: PlugId, on: bool, ghost since: nat) returns (confirmed: bool)
      requires Valid() && IsWaiting(w, plug, on, since)
      modifies this
      ensures Valid() && if confirmed then IsOver(w, plug, on, since, true) else IsWaiting(w, plug, on, since)
      ensures confirmed <==> HasMatch(old(bus), w)
      ensures actions == old(actions) + [Receive(w)]
    {
      RunsAreGood(actions);
      assert WaiterOk(bus, bus.waiters[w]);
      var values := bus.channels[bus.waiters[w].channel].buffer;
      if values == [] {
        Do(Receive(w));
        return false;
      }
      assert Carries(bus, bus.waiters[w].channel, values[0]);
      var reported := bus.reports[values[0]].on;
      Do(Receive(w));
      return reported == on;
    }
  }

  // ---------------------------------------------------------------- reports nobody waits for

  /** The handler got only live reports that no call took. */
  ghost predicate ManualOk(b: Bus) {
    forall i :: 0 <= i < |b.manual| ==>
      b.manual[i] < |b.reports| && b.reports[b.manual[i]].taker.None? && !b.reports[b.manual[i]].retained
  }

  lemma {:induction false} ActionKeepsManual(b: Bus, a: Action)
    requires ManualOk(b)
    ensures ManualOk(Apply(b, a))
  {
  }

  /** On every run a report goes to a call or to the handler, never to both. */
  lemma {:induction false} NeverBoth(actions: seq<Action>)
    ensures ManualOk(Run(actions))
  {
    if actions != [] {
      NeverBoth(actions[..|actions| - 1]);
      ActionKeepsManual(Run(actions[..|actions| - 1]), actions[|actions| - 1]);
    }
  }

  /** The known state of a plug is the last one reported, by itself or in telemetry; commands
      leave it alone. */
  lemma StatesFollowReports(b: Bus, a: Action, plug: PlugId)
    ensures Lookup(Apply(b, a).states, plug)
            == if (a.Dispatch? || a.Telemetry?) && a.plug == plug then Some(a.on) else Lookup(b.states, plug)
  {
  }

  /** So a report said again is not a manual switch. */
  lemma RepeatedReportIsNotManual(b: Bus, plug: PlugId, on: bool, first: bool, second: bool)
    ensures var once := Apply(b, Dispatch(plug, on, first));
            Apply(once, Dispatch(plug, on, second)).manual == once.manual
  {
    StatesFollowReports(b, Dispatch(plug, on, first), plug);
  }

  /** A command that nobody waits for does not keep its report from the manual handler: after
      any run, a live report of it reaches the handler exactly when no call happens to be
      registered for the plug and the report changes the known state. */
  lemma FireAndForgetLooksManual(actions: seq<Action>, plug: PlugId, on: bool)
    ensures var b := Run(actions);
            var reported := Apply(Apply(b, SetPower(plug, on)), Dispatch(plug, on, false));
            |b.reports| in reported.manual <==> plug !in b.confirmers && Lookup(b.states, plug) == Some(!on)
  {
    NeverBoth(actions);
  }

  /** It happens: a relay reported on is switched off by a bare command, and the report of
      that goes to the handler. */
  lemma AppCommandReachesHandler(plug: PlugId)
    ensures Run([Telemetry(plug, true), SetPower(plug, false), Dispatch(plug, false, false)]).manual == [0]
  {
    var actions := [Telemetry(plug, true), SetPower(plug, false), Dispatch(plug, false, false)];
    assert actions[..1] == [Telemetry(plug, true)] && actions[..1][..0] == [] && actions[..2][..1] == actions[..1];
    assert Run(actions[..1]) == IDLE.(states := map[plug := true]);
    assert Run(actions[..2]) == IDLE.(states := map[plug := true], sent := [Command(plug, false)]);
  }

  /** A call that waits is registered before its command is published, so the next report for
      its plug goes to a call and not to the handler. */
  lemma AwaitedNeverLooksManual(b: Bus, plug: PlugId, on: bool, reported: bool, retained: bool)
    ensures var after := Apply(Apply(b, Begin(plug, on)), Dispatch(plug, reported, retained));
            after.manual == b.manual && after.reports[|b.reports|].taker == Some(|b.channels|)
  {
  }
}
