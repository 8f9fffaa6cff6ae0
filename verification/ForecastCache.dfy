/** The caching forecast client, alone and with concurrent callers
    (api/carbonintensity/carbonintensity.go). */
module ForecastCache {
  import opened Wrappers
  import opened Clock
  import opened Forecast

  /** `nextHalfHourUTC`: the first :00 or :30 strictly after `now`. */
  function NextHalfHour(now: Instant): (r: Instant)
    ensures now < r <= now + HALF_HOUR && r % HALF_HOUR == 0
  {
    now - now % HALF_HOUR + HALF_HOUR
  }

  datatype FetchError = ApiError | NoBuckets

  datatype Fetched = Buckets(buckets: seq<Bucket>) | FetchFailed(error: FetchError)

  function Answer(buckets: seq<Bucket>, from: Instant, to: Instant): Fetched {
    match Usable(Some(buckets), from, to)
    case Some(slice) => Buckets(slice)
    case None => FetchFailed(NoBuckets)
  }

  /** The cached buckets and the instant they expire. */
  datatype Entry = Entry(buckets: seq<Bucket>, expiresAt: Instant)

  predicate IsFresh(cached: Option<Entry>, now: Instant) {
    cached.Some? && now < cached.value.expiresAt
  }

  /** The caching client. */
  class ForecastClient {
    var cached: Option<Entry>

    constructor ()
      ensures cached == None
    {
      cached := None;
    }

    /** The part of `GetForecast` under the read lock. */
    method Test(now: Instant) returns (hit: Option<seq<Bucket>>)
      ensures hit == if IsFresh(cached, now) then Some(cached.value.buckets) else None
    {
      return if cached.Some? && now < cached.value.expiresAt then Some(cached.value.buckets) else None;
    }

    /** The part under the write lock. */
    method Store(buckets: seq<Bucket>, later: Instant)
      modifies this
      ensures cached == Some(Entry(buckets, NextHalfHour(later)))
    {
      cached := Some(Entry(buckets, NextHalfHour(later)));
    }

    /** `GetForecast`, when no other call runs between its two parts: a fresh entry is served;
        otherwise what the API returns is stored and served, or its error returned with the
        cache untouched. */
    method GetForecast(now: Instant, later: Instant, api: Fetched, from: Instant, to: Instant) returns (r: Fetched)
      modifies this
      ensures var hit := IsFresh(old(cached), now);
              && (hit ==> cached == old(cached) && r == Answer(old(cached).value.buckets, from, to))
              && (!hit && api.FetchFailed? ==> cached == old(cached) && r == api)
              && (!hit && api.Buckets? ==>
                    cached == Some(Entry(api.buckets, NextHalfHour(later))) && r == Answer(api.buckets, from, to))
    {
      var hit := Test(now);
      if hit.Some? {
        var buckets := SliceBuckets(hit.value, from, to);
        return if |buckets| == 0 then FetchFailed(NoBuckets) else Buckets(buckets);
      }
      if api.FetchFailed? {
        return api;
      }
      Store(api.buckets, later);
      var result := SliceBuckets(api.buckets, from, to);
      return if |result| == 0 then FetchFailed(NoBuckets) else Buckets(result);
    }
  }

  // ---------------------------------------------------------------- concurrent callers

  /** A call that missed: the clock at its test, the stores made before it, and whether its
      fetch is still out. */
  datatype Call = Call(tested: Instant, stores: nat, fetching: bool)

  /** A stored fetch: the clock at the store, and how many stores preceded the call's test. */
  datatype Stored = Stored(at: Instant, testedAfter: nat)

  datatype Shared = Shared(cached: Option<Entry>, calls: seq<Call>, stores: seq<Stored>)

  /** The client is shared: callers test under a lock, fetch under none, and store under one. */
  datatype Action = Tests(now: Instant) | Fails(call: nat) | Stores(call: nat, buckets: seq<Bucket>, later: Instant)

  const NO_CALLS := Shared(None, [], [])

  function Next(s: Shared, a: Action): Shared {
    match a
    case Tests(now) =>
      if IsFresh(s.cached, now) then s else s.(calls := s.calls + [Call(now, |s.stores|, true)])
    case Fails(c) =>
      if c < |s.calls| then s.(calls := s.calls[c := s.calls[c].(fetching := false)]) else s
    case Stores(c, buckets, later) =>
      if c < |s.calls| && s.calls[c].fetching then
        Shared(Some(Entry(buckets, NextHalfHour(later))), s.calls[c := s.calls[c].(fetching := false)],
               s.stores + [Stored(later, s.calls[c].stores)])
      else s
  }

  /** The clock at an action that reads it. */
  function TimeOf(a: Action): Option<Instant> {
    match a
    case Tests(now) => Some(now)
    case Fails(_) => None
    case Stores(_, _, later) => Some(later)
  }

  /** The states of a run, under a clock that never goes back. */
  ghost predicate IsRun(ss: seq<Shared>, actions: seq<Action>) {
    && |ss| == |actions| + 1 && ss[0] == NO_CALLS
    && (forall k :: 0 <= k < |actions| ==> ss[k + 1] == Next(ss[k], actions[k]))
    && forall j, k :: 0 <= j < k < |actions| && TimeOf(actions[j]).Some? && TimeOf(actions[k]).Some? ==>
         TimeOf(actions[j]).value <= TimeOf(actions[k]).value
  }

  /** The entry is the last store's, and each call missed: its test came after the expiry of
      every store made before it. */
  ghost predicate MissesOk(s: Shared) {
    && (s.cached.None? <==> s.stores == [])
    && (s.cached.Some? ==> s.cached.value.expiresAt == NextHalfHour(s.stores[|s.stores| - 1].at))
    && (forall c :: 0 <= c < |s.calls| ==> s.calls[c].stores <= |s.stores|)
    && (forall c, i :: 0 <= c < |s.calls| && 0 <= i < s.calls[c].stores ==>
          NextHalfHour(s.stores[i].at) <= s.calls[c].tested)
    && (forall j :: 0 <= j < |s.stores| ==> s.stores[j].testedAfter <= j)
    && (forall j, i :: 0 <= j < |s.stores| && 0 <= i < s.stores[j].testedAfter ==>
          NextHalfHour(s.stores[i].at) <= s.stores[j].at)
  }

  /** Everything recorded happened by `t`. */
  ghost predicate Until(s: Shared, t: Instant) {
    && (forall c :: 0 <= c < |s.calls| ==> s.calls[c].tested <= t)
    && (forall j :: 0 <= j < |s.stores| ==> s.stores[j].at <= t)
    && (forall i, j :: 0 <= i < j < |s.stores| ==> s.stores[i].at <= s.stores[j].at)
  }

  lemma HalfHoursInOrder(a: Instant, b: Instant)
    requires a <= b
    ensures NextHalfHour(a) <= NextHalfHour(b)
  {
  }

  lemma {:induction false} TestKeepsMisses(s: Shared, now: Instant)
    requires MissesOk(s) && Until(s, now)
    ensures MissesOk(Next(s, Tests(now))) && Until(Next(s, Tests(now)), now)
  {
    if !IsFresh(s.cached, now) && s.stores != [] {
      forall i | 0 <= i < |s.stores| ensures NextHalfHour(s.stores[i].at) <= now {
        HalfHoursInOrder(s.stores[i].at, s.stores[|s.stores| - 1].at);
      }
    }
  }

  lemma {:induction false} StoreKeepsMisses(s: Shared, c: nat, buckets: seq<Bucket>, later: Instant)
    requires MissesOk(s) && Until(s, later)
    ensures MissesOk(Next(s, Stores(c, buckets, later))) && Until(Next(s, Stores(c, buckets, later)), later)
  {
  }

  lemma FailKeepsMisses(s: Shared, c: nat, t: Instant)
    requires MissesOk(s) && Until(s, t)
    ensures MissesOk(Next(s, Fails(c))) && Until(Next(s, Fails(c)), t)
  {
  }

  lemma UntilLater(s: Shared, t: Instant, later: Instant)
    requires Until(s, t) && t <= later
    ensures Until(s, later)
  {
  }

  lemma NothingMissed(t: Instant)
    ensures MissesOk(NO_CALLS) && Until(NO_CALLS, t)
  {
  }

  lemma {:induction false} RunMisses(ss: seq<Shared>, actions: seq<Action>, n: nat, t: Instant)
    requires IsRun(ss, actions) && n < |ss|
    requires forall k :: 0 <= k < n && TimeOf(actions[k]).Some? ==> TimeOf(actions[k]).value <= t
    ensures MissesOk(ss[n]) && Until(ss[n], t)
  {
    hide MissesOk, Until, Next;
    if n == 0 {
      NothingMissed(t);
    } else {
      var a := actions[n - 1];
      assert ss[(n - 1) + 1] == Next(ss[n - 1], a);
      match a
      case Tests(now) =>
        RunMisses(ss, actions, n - 1, now);
        TestKeepsMisses(ss[n - 1], now);
        UntilLater(ss[n], now, t);
      case Fails(c) =>
        RunMisses(ss, actions, n - 1, t);
        FailKeepsMisses(ss[n - 1], c, t);
      case Stores(c, buckets, later) =>
        RunMisses(ss, actions, n - 1, later);
        StoreKeepsMisses(ss[n - 1], c, buckets, later);
        UntilLater(ss[n], later, t);
    }
  }

  /** Two stored fetches fall in one half hour. */
  predicate SameHalfHour(s: Shared, i: nat, j: nat)
    requires i < j < |s.stores|
  {
    s.stores[j].at < NextHalfHour(s.stores[i].at)
  }

  /** On every run a fetch is stored in the half hour of the one before it exactly when its
      caller tested the cache before that store landed and itself stores before the half hour
      is over: a caller that tests later never does. */
  lemma {:induction false} RefetchedExactlyByOverlap(ss: seq<Shared>, actions: seq<Action>, n: nat)
    requires IsRun(ss, actions) && n < |actions| && |ss[n].stores| > 0
    requires var a := actions[n]; a.Stores? && a.call < |ss[n].calls| && ss[n].calls[a.call].fetching
    ensures var last := |ss[n].stores| - 1;
            && |ss[n + 1].stores| == last + 2
            && (SameHalfHour(ss[n + 1], last, last + 1) <==>
                  && ss[n].calls[actions[n].call].stores <= last
                  && actions[n].later < NextHalfHour(ss[n].stores[last].at))
  {
    assert ss[n + 1] == Next(ss[n], actions[n]);
    RunMisses(ss, actions, n, actions[n].later);
  }

  /** So without overlapping calls every half hour stores one fetch. */
  lemma {:induction false} OneFetchPerHalfHour(ss: seq<Shared>, actions: seq<Action>, n: nat, t: Instant, i: nat,
                                               j: nat)
    requires IsRun(ss, actions) && n < |ss| && i < j < |ss[n].stores|
    requires forall k :: 0 <= k < n && TimeOf(actions[k]).Some? ==> TimeOf(actions[k]).value <= t
    requires forall k :: 0 <= k < |ss[n].stores| ==> ss[n].stores[k].testedAfter == k
    ensures !SameHalfHour(ss[n], i, j)
  {
    RunMisses(ss, actions, n, t);
  }

  /** With them it may store two: both callers miss at the half hour, and both store. */
  lemma TwoFetchesInOneHalfHour()
    ensures exists ss: seq<Shared>, actions: seq<Action> ::
              && IsRun(ss, actions) && |actions| == 4
              && |ss[4].stores| == 2 && SameHalfHour(ss[4], 0, 1)
  {
    var actions := [Tests(0), Tests(0), Stores(0, [], 1), Stores(1, [], 2)];
    var s1 := Shared(None, [Call(0, 0, true)], []);
    var s2 := Shared(None, [Call(0, 0, true), Call(0, 0, true)], []);
    var s3 := Shared(Some(Entry([], HALF_HOUR)), [Call(0, 0, false), Call(0, 0, true)], [Stored(1, 0)]);
    var s4 := Shared(Some(Entry([], HALF_HOUR)), [Call(0, 0, false), Call(0, 0, false)], [Stored(1, 0), Stored(2, 0)]);
    assert NextHalfHour(1) == HALF_HOUR && NextHalfHour(2) == HALF_HOUR;
    assert Next(NO_CALLS, actions[0]) == s1 && Next(s1, actions[1]) == s2;
    assert Next(s2, actions[2]) == s3 && Next(s3, actions[3]) == s4;
    hide Next;
    assert IsRun([NO_CALLS, s1, s2, s3, s4], actions);
  }
}
