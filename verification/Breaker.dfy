/** The circuit breaker in front of the plugs (api/tasmota/circuitbreaker.go). */
module Breaker {
  import opened Wrappers
  import opened Clock

  const DEFAULT_FAILURE_THRESHOLD: int := 5
  const DEFAULT_RESET_TIMEOUT: int := 30_000_000_000

  datatype CircuitState = Closed | Open | HalfOpen

  datatype Config = Config(threshold: int, resetTimeout: int) {
    ghost predicate Valid() {
      threshold > 0 && resetTimeout > 0
    }
  }

  datatype Circuit = Circuit(state: CircuitState, failures: int, lastFailure: Option<Instant>)

  /** A request asking to pass, with the two clock readings of the gate, or its outcome. */
  datatype Event = Call(asked: Instant, rearmed: Instant) | Success | Failure(at: Instant)

  predicate Elapsed(c: Config, b: Circuit, t: Instant) {
    b.lastFailure.Some? && t - b.lastFailure.value >= c.resetTimeout
  }

  predicate Blocks(c: Config, b: Circuit, asked: Instant) {
    b.state != Closed && !Elapsed(c, b, asked)
  }

  function Next(c: Config, b: Circuit, e: Event): Circuit {
    match e
    case Call(asked, rearmed) =>
      if b.state == Closed || Blocks(c, b, asked) then b
      else b.(state := HalfOpen, lastFailure := Some(rearmed))
    case Success => b.(state := Closed, failures := 0)
    case Failure(at) =>
      if b.state == HalfOpen then b.(state := Open, lastFailure := Some(at))
      else if b.failures + 1 >= c.threshold then Circuit(Open, b.failures + 1, Some(at))
      else b.(failures := b.failures + 1)
  }

  class CircuitBreaker {
    const threshold: int
    const resetTimeout: int
    var state: CircuitState
    var failures: int
    var lastFailureTime: Option<Instant>

    ghost function Settings(): Config {
      Config(threshold, resetTimeout)
    }

    ghost function View(): Circuit
      reads this
    {
      Circuit(state, failures, lastFailureTime)
    }

    constructor (cfg: Config)
      ensures Settings().Valid()
      ensures threshold == if cfg.threshold <= 0 then DEFAULT_FAILURE_THRESHOLD else cfg.threshold
      ensures resetTimeout == if cfg.resetTimeout <= 0 then DEFAULT_RESET_TIMEOUT else cfg.resetTimeout
      ensures View() == Circuit(Closed, 0, None)
    {
      threshold := if cfg.threshold <= 0 then DEFAULT_FAILURE_THRESHOLD else cfg.threshold;
      resetTimeout := if cfg.resetTimeout <= 0 then DEFAULT_RESET_TIMEOUT else cfg.resetTimeout;
      state, failures, lastFailureTime := Closed, 0, None;
    }

    method ShouldBlock(asked: Instant, rearmed: Instant) returns (block: bool)
      modifies this
      ensures View() == Next(Settings(), old(View()), Call(asked, rearmed))
      ensures block == Blocks(Settings(), old(View()), asked)
    {
      match state
      case Closed =>
        return false;
      case Open =>
        if lastFailureTime.None? || asked - lastFailureTime.value < resetTimeout {
          return true;
        }
        state := HalfOpen;
        lastFailureTime := Some(rearmed);
        return false;
      case HalfOpen =>
        if lastFailureTime.None? || asked - lastFailureTime.value < resetTimeout {
          return true;
        }
        lastFailureTime := Some(rearmed);
        return false;
    }

    method RecordSuccess()
      modifies this
      ensures View() == Next(Settings(), old(View()), Success)
    {
      state := Closed;
      failures := 0;
    }

    method RecordFailure(at: Instant)
      modifies this
      ensures View() == Next(Settings(), old(View()), Failure(at))
    {
      if state == HalfOpen {
        state := Open;
        lastFailureTime := Some(at);
        return;
      }
      failures := failures + 1;
      if failures >= threshold {
        state := Open;
        lastFailureTime := Some(at);
      }
    }
  }

  // ---------------------------------------------------------------- runs

  function Run(c: Config, events: seq<Event>): Circuit {
    if events == [] then Circuit(Closed, 0, None)
    else
      var n := |events| - 1;
      Next(c, Run(c, events[..n]), events[n])
  }

  /** The clock readings of an event; a success reads none. */
  function Begin(e: Event): Option<Instant> {
    match e
    case Call(asked, _) => Some(asked)
    case Success => None
    case Failure(at) => Some(at)
  }

  function End(e: Event): Option<Instant> {
    match e
    case Call(_, rearmed) => Some(rearmed)
    case Success => None
    case Failure(at) => Some(at)
  }

  /** The clock never goes back. */
  ghost predicate Timed(events: seq<Event>) {
    && (forall i :: 0 <= i < |events| && events[i].Call? ==> events[i].asked <= events[i].rearmed)
    && (forall i, j :: 0 <= i < j < |events| && !events[i].Success? && !events[j].Success? ==>
          End(events[i]).value <= Begin(events[j]).value)
  }

  function FailuresSinceSuccess(events: seq<Event>): (n: nat) {
    if events == [] then 0
    else
      var before := FailuresSinceSuccess(events[..|events| - 1]);
      match events[|events| - 1]
      case Call(_, _) => before
      case Success => 0
      case Failure(_) => before + 1
  }

  /** The breaker is closed exactly while fewer failures than the threshold have come since
      the last success, and then its counter is their number. */
  lemma {:induction false} ClosedExactlyBelowThreshold(c: Config, events: seq<Event>)
    requires c.Valid()
    ensures var b := Run(c, events);
            && (b.state == Closed <==> FailuresSinceSuccess(events) < c.threshold)
            && (b.state == Closed ==> b.failures == FailuresSinceSuccess(events))
            && (b.state != Closed ==> b.failures >= c.threshold)
  {
    if events != [] {
      ClosedExactlyBelowThreshold(c, events[..|events| - 1]);
    }
  }

  /** Event i, with no success after it, restarted the reset window: it was a failure that
      left the circuit open, or a request admitted while it was not closed. */
  ghost predicate Rearms(c: Config, events: seq<Event>, i: int) {
    && 0 <= i < |events|
    && Run(c, events[..i + 1]).state != Closed
    && (events[i].Failure? || (events[i].Call? && !Blocks(c, Run(c, events[..i]), events[i].asked)))
    && forall j :: i < j < |events| ==> !events[j].Success?
  }

  lemma {:induction false} RearmsBefore(c: Config, events: seq<Event>, i: nat)
    requires events != [] && i < |events| - 1
    ensures Rearms(c, events, i) <==> Rearms(c, events[..|events| - 1], i) && !events[|events| - 1].Success?
  {
    var before := events[..|events| - 1];
    assert before[..i + 1] == events[..i + 1] && before[..i] == events[..i];
    if Rearms(c, before, i) && !events[|events| - 1].Success? {
      forall j | i < j < |events| ensures !events[j].Success? {
        if j < |before| {
          assert !before[j].Success?;
        }
      }
    }
    if Rearms(c, events, i) {
      forall j | i < j < |before| ensures !before[j].Success? {
        assert before[j] == events[j];
      }
    }
  }

  ghost predicate IsLatestRearm(c: Config, events: seq<Event>, t: Instant) {
    && (exists i :: Rearms(c, events, i) && End(events[i]) == Some(t))
    && (forall i :: Rearms(c, events, i) ==> End(events[i]).value <= t)
  }

  /** While not closed, the stored failure time is the latest restart of the reset window. */
  lemma {:induction false} RemembersLatestRearm(c: Config, events: seq<Event>)
    requires c.Valid() && Timed(events)
    requires Run(c, events).state != Closed
    ensures Run(c, events).lastFailure.Some? && IsLatestRearm(c, events, Run(c, events).lastFailure.value)
  {
    var n := |events| - 1;
    var before, e := events[..n], events[n];
    assert events[..n + 1] == events;
    ClosedExactlyBelowThreshold(c, before);
    if Rearms(c, events, n) {
      assert Run(c, events).lastFailure == End(e);
      forall i | Rearms(c, events, i) ensures End(events[i]).value <= End(e).value {
        assert i == n || End(events[i]).value <= Begin(events[n]).value;
      }
    } else {
      RemembersLatestRearm(c, before);
      assert Run(c, events).lastFailure == Run(c, before).lastFailure;
      LatestRearmKept(c, events, Run(c, before).lastFailure.value);
    }
  }

  lemma {:induction false} LatestRearmKept(c: Config, events: seq<Event>, t: Instant)
    requires events != [] && !events[|events| - 1].Success?
    requires !Rearms(c, events, |events| - 1) && IsLatestRearm(c, events[..|events| - 1], t)
    ensures IsLatestRearm(c, events, t)
  {
    hide Run, Blocks;
    var n := |events| - 1;
    forall i | 0 <= i < n ensures Rearms(c, events, i) <==> Rearms(c, events[..n], i) {
      RearmsBefore(c, events, i);
    }
    var i :| Rearms(c, events[..n], i) && End(events[..n][i]) == Some(t);
    assert Rearms(c, events, i);
    forall i | Rearms(c, events, i) ensures End(events[i]).value <= t {
      assert Rearms(c, events[..n], i);
    }
  }

  /** Without a success the circuit does not close again. */
  lemma {:induction false} StaysOpen(c: Config, events: seq<Event>, i: nat)
    requires c.Valid() && Rearms(c, events, i)
    ensures Run(c, events).state != Closed
  {
    var n := |events| - 1;
    if i == n {
      assert events[..n + 1] == events;
    } else {
      RearmsBefore(c, events, i);
      StaysOpen(c, events[..n], i);
      ClosedExactlyBelowThreshold(c, events[..n]);
    }
  }

  /** A request passes exactly when every restart of the reset window since the last success
      lies a full timeout back. So from the opening until a success, admitted requests are
      at least a timeout apart, and the first comes at least a timeout after the opening. */
  lemma {:induction false} AdmitsExactly(c: Config, events: seq<Event>, asked: Instant)
    requires c.Valid() && Timed(events)
    ensures !Blocks(c, Run(c, events), asked) <==>
            forall i :: Rearms(c, events, i) ==> asked - End(events[i]).value >= c.resetTimeout
  {
    if Run(c, events).state != Closed {
      RemembersLatestRearm(c, events);
    } else {
      forall i | Rearms(c, events, i) ensures false {
        StaysOpen(c, events, i);
      }
    }
  }
}
