/** Choosing a half-hour start slot against a carbon forecast (`findOptimalStart` and
    `findBalancedStart` of api/services/schedule_service.go). */
module Planner {
  import opened Wrappers
  import opened Clock
  import opened Forecast

  // ---------------------------------------------------------------- the half-hour grid

  ghost predicate OnGrid(t: Instant) {
    t % HALF_HOUR == 0
  }

  function AlignToHalfHour(t: Instant): (r: Instant)
    ensures OnGrid(r) && r <= t < r + HALF_HOUR
    ensures OnGrid(t) <==> r == t
  {
    t - t % HALF_HOUR
  }

  lemma NextOnGrid(c: Instant)
    requires OnGrid(c)
    ensures OnGrid(c + HALF_HOUR)
    ensures forall x {:trigger OnGrid(x)} :: OnGrid(x) && c < x ==> c + HALF_HOUR <= x
  {
    forall x {:trigger OnGrid(x)} | OnGrid(x) && c < x
      ensures c + HALF_HOUR <= x
    {
      assert c == HALF_HOUR * (c / HALF_HOUR) && x == HALF_HOUR * (x / HALF_HOUR);
    }
  }

  /** The forecast carbon of charging from each instant, where the forecast covers any of it. */
  type Scores = Instant -> Option<real>

  ghost function SlotScores(bs: seq<Bucket>, d: int): Scores {
    c => Score(bs, c, c + d)
  }

  /** A slot the search considers: on the grid, within [now, latest], with forecast data. */
  ghost predicate IsSlot(f: Scores, now: Instant, latest: Instant, c: Instant) {
    OnGrid(c) && now <= c <= latest && f(c).Some?
  }

  ghost predicate NoSlot(f: Scores, now: Instant, latest: Instant) {
    forall c {:trigger IsSlot(f, now, latest, c)} :: !IsSlot(f, now, latest, c)
  }

  ghost function Carbon(f: Scores, c: Instant): real {
    match f(c)
    case Some(x) => x
    case None => 0.0
  }

  // ---------------------------------------------------------------- carbon only

  /** `r` is the latest of the cleanest slots, or None when there is no slot. */
  ghost predicate IsOptimal(f: Scores, now: Instant, latest: Instant, r: Option<Instant>) {
    match r
    case None => forall c :: !IsSlot(f, now, latest, c)
    case Some(b) =>
      && IsSlot(f, now, latest, b)
      && forall c :: IsSlot(f, now, latest, c) ==>
           && Carbon(f, b) <= Carbon(f, c)
           && (b < c ==> Carbon(f, b) < Carbon(f, c))
  }

  lemma OptimalIsUnique(f: Scores, now: Instant, latest: Instant, r: Option<Instant>, r': Option<Instant>)
    requires IsOptimal(f, now, latest, r) && IsOptimal(f, now, latest, r')
    ensures r == r'
  {
  }

  /** Considering the next grid point keeps the best slot so far optimal. */
  lemma OptimalSoFar(f: Scores, now: Instant, c: Instant, r: Option<Instant>, r': Option<Instant>)
    requires OnGrid(c) && IsOptimal(f, now, c - 1, r)
    requires r' == if now <= c && f(c).Some? && (r.None? || f(c).value <= Carbon(f, r.value)) then Some(c) else r
    ensures IsOptimal(f, now, c + HALF_HOUR - 1, r')
  {
    NextOnGrid(c);
    forall x {:trigger OnGrid(x)} | OnGrid(x) && now <= x < c + HALF_HOUR && f(x).Some?
      ensures x == c || IsSlot(f, now, c - 1, x)
    {
    }
    if r'.Some? && r'.value != c {
      assert IsSlot(f, now, c - 1, r'.value);
    }
  }

  lemma OptimalInRange(f: Scores, now: Instant, far: Instant, latest: Instant, r: Option<Instant>)
    requires latest <= far && IsOptimal(f, now, far, r)
    requires r.Some? ==> r.value <= latest
    ensures IsOptimal(f, now, latest, r)
  {
    forall x {:trigger OnGrid(x)} | OnGrid(x) && now <= x <= latest && f(x).Some?
      ensures IsSlot(f, now, far, x)
    {
    }
  }

  method ScoreSlot(buckets: seq<Bucket>, d: int, c: Instant) returns (r: Option<real>)
    ensures r == SlotScores(buckets, d)(c)
  {
    r := ScoreWindow(buckets, c, c + d);
  }

  /** `findOptimalStart`. */
  method FindOptimalStart(buckets: seq<Bucket>, now: Instant, latest: Instant, d: int) returns (r: Option<Instant>)
    ensures IsOptimal(SlotScores(buckets, d), now, latest, r)
  {
    ghost var f := SlotScores(buckets, d);
    r := None;
    var bestScore: Option<real> := None;
    var c := AlignToHalfHour(now);
    NextOnGrid(c - HALF_HOUR);
    while c <= latest
      invariant OnGrid(c)
      invariant bestScore.Some? <==> r.Some?
      invariant r.Some? ==> r.value <= latest && bestScore.value == Carbon(f, r.value)
      invariant IsOptimal(f, now, c - 1, r)
      decreases latest - c
    {
      NextOnGrid(c);
      ghost var before := r;
      if c >= now {
        var score := ScoreSlot(buckets, d, c);
        if score.Some? && (bestScore.None? || score.value <= bestScore.value) {
          bestScore := score;
          r := Some(c);
        }
      }
      OptimalSoFar(f, now, c, before, r);
      c := c + HALF_HOUR;
    }
    OptimalInRange(f, now, c - 1, latest, r);
  }

  /** Planning on the slice cached for [from, to] gives the answer of the full forecast, when
      every charge the search considers ends by `to`. */
  lemma SliceKeepsOptimal(bs: seq<Bucket>, from: Instant, to: Instant, now: Instant, latest: Instant, d: int,
                          r: Option<Instant>)
    requires from <= now && latest + d <= to
    ensures IsOptimal(SlotScores(Slice(bs, from, to), d), now, latest, r) <==>
            IsOptimal(SlotScores(bs, d), now, latest, r)
  {
    SliceKeepsScores(bs, from, to, now, latest, d);
    SameScores(SlotScores(Slice(bs, from, to), d), SlotScores(bs, d), now, latest);
  }

  lemma SliceKeepsScores(bs: seq<Bucket>, from: Instant, to: Instant, now: Instant, latest: Instant, d: int)
    requires from <= now && latest + d <= to
    ensures AgreeOn(SlotScores(Slice(bs, from, to), d), SlotScores(bs, d), now, latest)
  {
    forall c {:trigger SlotScores(bs, d)(c)} | now <= c <= latest
      ensures SlotScores(Slice(bs, from, to), d)(c) == SlotScores(bs, d)(c)
    {
      SliceKeepsScore(bs, from, to, c, c + d);
    }
  }

  ghost predicate AgreeOn(f: Scores, g: Scores, now: Instant, latest: Instant) {
    forall c {:trigger g(c)} :: now <= c <= latest ==> f(c) == g(c)
  }

  lemma SameScores(f: Scores, g: Scores, now: Instant, latest: Instant)
    requires AgreeOn(f, g, now, latest)
    ensures forall c :: IsSlot(f, now, latest, c) <==> IsSlot(g, now, latest, c)
    ensures forall c :: now <= c <= latest ==> Carbon(f, c) == Carbon(g, c)
  {
  }

  // ---------------------------------------------------------------- carbon and dwell

  /** Minutes the vehicle would sit charged before the deadline when starting at `c`. */
  function DwellAt(deadline: Instant, d: int, c: Instant): real {
    Minutes(deadline - (c + d))
  }

  /** `normalizeScore`: min-max normalisation, 0 when the range is degenerate. */
  function Normalize(v: real, min: real, max: real): real {
    if max == min then 0.0 else (v - min) / (max - min)
  }

  datatype Ranges = Ranges(minCarbon: real, maxCarbon: real, minDwell: real, maxDwell: real)

  /** Carbon and dwell, each normalised over the slots, added with equal weight. */
  ghost function Cost(f: Scores, deadline: Instant, d: int, g: Ranges, c: Instant): real {
    Normalize(Carbon(f, c), g.minCarbon, g.maxCarbon) + Normalize(DwellAt(deadline, d, c), g.minDwell, g.maxDwell)
  }

  /** The exact extremes of carbon over the slots. */
  ghost predicate IsCarbonRange(f: Scores, now: Instant, latest: Instant, min: real, max: real) {
    && (forall c :: IsSlot(f, now, latest, c) ==> min <= Carbon(f, c) <= max)
    && (exists c :: IsSlot(f, now, latest, c) && Carbon(f, c) == min)
    && (exists c :: IsSlot(f, now, latest, c) && Carbon(f, c) == max)
  }

  /** The exact extremes of dwell over the slots. */
  ghost predicate IsDwellRange(f: Scores, now: Instant, latest: Instant, deadline: Instant, d: int, min: real,
                               max: real) {
    && (forall c :: IsSlot(f, now, latest, c) ==> min <= DwellAt(deadline, d, c) <= max)
    && (exists c :: IsSlot(f, now, latest, c) && DwellAt(deadline, d, c) == min)
    && (exists c :: IsSlot(f, now, latest, c) && DwellAt(deadline, d, c) == max)
  }

  ghost predicate AreRanges(f: Scores, now: Instant, latest: Instant, deadline: Instant, d: int, g: Ranges) {
    && IsCarbonRange(f, now, latest, g.minCarbon, g.maxCarbon)
    && IsDwellRange(f, now, latest, deadline, d, g.minDwell, g.maxDwell)
  }

  ghost predicate IsCheapest(f: Scores, now: Instant, latest: Instant, deadline: Instant, d: int, g: Ranges,
                             b: Instant) {
    && IsSlot(f, now, latest, b)
    && forall c :: IsSlot(f, now, latest, c) ==>
         && Cost(f, deadline, d, g, b) <= Cost(f, deadline, d, g, c)
         && (b < c ==> Cost(f, deadline, d, g, b) < Cost(f, deadline, d, g, c))
  }

  /** `r` is the latest of the slots with the least normalised cost, or None without slots. */
  ghost predicate IsBalanced(f: Scores, now: Instant, latest: Instant, deadline: Instant, d: int, r: Option<Instant>) {
    match r
    case None => forall c :: !IsSlot(f, now, latest, c)
    case Some(b) =>
      exists g :: AreRanges(f, now, latest, deadline, d, g) && IsCheapest(f, now, latest, deadline, d, g, b)
  }

  lemma RangesAreUnique(f: Scores, now: Instant, latest: Instant, deadline: Instant, d: int, g: Ranges, g': Ranges)
    requires AreRanges(f, now, latest, deadline, d, g) && AreRanges(f, now, latest, deadline, d, g')
    ensures g == g'
  {
  }

  lemma BalancedIsUnique(f: Scores, now: Instant, latest: Instant, deadline: Instant, d: int, r: Option<Instant>,
                         r': Option<Instant>)
    requires IsBalanced(f, now, latest, deadline, d, r) && IsBalanced(f, now, latest, deadline, d, r')
    ensures r == r'
  {
    if r.Some? && r'.Some? {
      var g :| AreRanges(f, now, latest, deadline, d, g) && IsCheapest(f, now, latest, deadline, d, g, r.value);
      var g' :| AreRanges(f, now, latest, deadline, d, g') && IsCheapest(f, now, latest, deadline, d, g', r'.value);
      RangesAreUnique(f, now, latest, deadline, d, g, g');
      CheapestIsUnique(f, now, latest, deadline, d, g, r.value, r'.value);
    }
  }

  lemma CheapestIsUnique(f: Scores, now: Instant, latest: Instant, deadline: Instant, d: int, g: Ranges, b: Instant,
                         b': Instant)
    requires IsCheapest(f, now, latest, deadline, d, g, b) && IsCheapest(f, now, latest, deadline, d, g, b')
    ensures b == b'
  {
  }

  datatype Candidate = Candidate(start: Instant, carbon: real, dwell: real)

  /** The slots of the search, in time order, with their raw scores. */
  ghost predicate AreCandidates(f: Scores, now: Instant, latest: Instant, deadline: Instant, d: int,
                                cs: seq<Candidate>) {
    && (forall i :: 0 <= i < |cs| ==>
          && IsSlot(f, now, latest, cs[i].start)
          && cs[i].carbon == Carbon(f, cs[i].start)
          && cs[i].dwell == DwellAt(deadline, d, cs[i].start))
    && (forall i, j :: 0 <= i < j < |cs| ==> cs[i].start < cs[j].start)
    && (forall c :: IsSlot(f, now, latest, c) ==> exists i :: 0 <= i < |cs| && cs[i].start == c)
  }

  lemma CandidatesSoFar(f: Scores, now: Instant, c: Instant, deadline: Instant, d: int, cs: seq<Candidate>,
                        cs': seq<Candidate>)
    requires OnGrid(c) && AreCandidates(f, now, c - 1, deadline, d, cs)
    requires cs' == if now <= c && f(c).Some? then cs + [Candidate(c, f(c).value, DwellAt(deadline, d, c))] else cs
    ensures AreCandidates(f, now, c + HALF_HOUR - 1, deadline, d, cs')
  {
    NextOnGrid(c);
    forall i | 0 <= i < |cs'|
      ensures IsSlot(f, now, c + HALF_HOUR - 1, cs'[i].start)
    {
      if i < |cs| {
        assert IsSlot(f, now, c - 1, cs[i].start);
      }
    }
    forall x {:trigger OnGrid(x)} | OnGrid(x) && now <= x < c + HALF_HOUR && f(x).Some?
      ensures exists i :: 0 <= i < |cs'| && cs'[i].start == x
    {
      if x == c {
        assert cs'[|cs|].start == c;
      } else {
        assert IsSlot(f, now, c - 1, x);
        var i :| 0 <= i < |cs| && cs[i].start == x;
        assert cs'[i].start == x;
      }
    }
  }

  lemma CandidatesInRange(f: Scores, now: Instant, far: Instant, latest: Instant, deadline: Instant, d: int,
                          cs: seq<Candidate>)
    requires latest <= far && AreCandidates(f, now, far, deadline, d, cs)
    requires forall i :: 0 <= i < |cs| ==> cs[i].start <= latest
    ensures AreCandidates(f, now, latest, deadline, d, cs)
  {
    forall x {:trigger OnGrid(x)} | OnGrid(x) && now <= x <= latest && f(x).Some?
      ensures IsSlot(f, now, far, x)
    {
    }
  }

  /** First loop of `findBalancedStart`. */
  method CollectCandidates(buckets: seq<Bucket>, now: Instant, latest: Instant, deadline: Instant, d: int)
    returns (candidates: seq<Candidate>)
    ensures AreCandidates(SlotScores(buckets, d), now, latest, deadline, d, candidates)
  {
    ghost var f := SlotScores(buckets, d);
    candidates := [];
    var c := AlignToHalfHour(now);
    NextOnGrid(c - HALF_HOUR);
    while c <= latest
      invariant OnGrid(c)
      invariant forall i :: 0 <= i < |candidates| ==> candidates[i].start <= latest
      invariant AreCandidates(f, now, c - 1, deadline, d, candidates)
      decreases latest - c
    {
      NextOnGrid(c);
      ghost var before := candidates;
      if c >= now {
        var carbon := ScoreSlot(buckets, d, c);
        if carbon.Some? {
          candidates := candidates + [Candidate(c, carbon.value, DwellAt(deadline, d, c))];
        }
      }
      CandidatesSoFar(f, now, c, deadline, d, before, candidates);
      c := c + HALF_HOUR;
    }
    CandidatesInRange(f, now, c - 1, latest, deadline, d, candidates);
  }

  /** The exact extremes of the first `n` candidates. */
  ghost predicate AreExtremes(cs: seq<Candidate>, n: nat, g: Ranges)
    requires n <= |cs|
  {
    && (forall i :: 0 <= i < n ==>
          g.minCarbon <= cs[i].carbon <= g.maxCarbon && g.minDwell <= cs[i].dwell <= g.maxDwell)
    && (exists i :: 0 <= i < n && cs[i].carbon == g.minCarbon)
    && (exists i :: 0 <= i < n && cs[i].carbon == g.maxCarbon)
    && (exists i :: 0 <= i < n && cs[i].dwell == g.minDwell)
    && (exists i :: 0 <= i < n && cs[i].dwell == g.maxDwell)
  }

  /** Second loop of `findBalancedStart`. */
  method FindExtremes(cs: seq<Candidate>) returns (g: Ranges)
    requires |cs| > 0
    ensures AreExtremes(cs, |cs|, g)
  {
    g := Ranges(cs[0].carbon, cs[0].carbon, cs[0].dwell, cs[0].dwell);
    for n := 1 to |cs|
      invariant AreExtremes(cs, n, g)
    {
      var c := cs[n];
      g := Ranges(
        if c.carbon < g.minCarbon then c.carbon else g.minCarbon,
        if c.carbon > g.maxCarbon then c.carbon else g.maxCarbon,
        if c.dwell < g.minDwell then c.dwell else g.minDwell,
        if c.dwell > g.maxDwell then c.dwell else g.maxDwell);
    }
  }

  function CandidateCost(g: Ranges, c: Candidate): real {
    Normalize(c.carbon, g.minCarbon, g.maxCarbon) + Normalize(c.dwell, g.minDwell, g.maxDwell)
  }

  /** Third loop of `findBalancedStart`: the last of the cheapest candidates. */
  method PickCheapest(cs: seq<Candidate>, g: Ranges) returns (best: nat)
    requires |cs| > 0
    ensures best < |cs|
    ensures forall i :: 0 <= i < |cs| ==> CandidateCost(g, cs[best]) <= CandidateCost(g, cs[i])
    ensures forall i :: best < i < |cs| ==> CandidateCost(g, cs[best]) < CandidateCost(g, cs[i])
  {
    best := 0;
    var bestScore := CandidateCost(g, cs[0]);
    for n := 1 to |cs|
      invariant best < n && bestScore == CandidateCost(g, cs[best])
      invariant forall i :: 0 <= i < n ==> bestScore <= CandidateCost(g, cs[i])
      invariant forall i :: best < i < n ==> bestScore < CandidateCost(g, cs[i])
    {
      var score := CandidateCost(g, cs[n]);
      if score <= bestScore {
        bestScore := score;
        best := n;
      }
    }
  }

  lemma ExtremesAreRanges(f: Scores, now: Instant, latest: Instant, deadline: Instant, d: int, cs: seq<Candidate>,
                          g: Ranges)
    requires AreCandidates(f, now, latest, deadline, d, cs) && AreExtremes(cs, |cs|, g)
    ensures AreRanges(f, now, latest, deadline, d, g)
  {
    var i :| 0 <= i < |cs| && cs[i].carbon == g.minCarbon;
    var j :| 0 <= j < |cs| && cs[j].carbon == g.maxCarbon;
    var k :| 0 <= k < |cs| && cs[k].dwell == g.minDwell;
    var l :| 0 <= l < |cs| && cs[l].dwell == g.maxDwell;
    assert IsSlot(f, now, latest, cs[i].start) && IsSlot(f, now, latest, cs[j].start);
    assert IsSlot(f, now, latest, cs[k].start) && IsSlot(f, now, latest, cs[l].start);
  }

  lemma PickIsCheapest(f: Scores, now: Instant, latest: Instant, deadline: Instant, d: int, cs: seq<Candidate>,
                       g: Ranges, best: nat)
    requires AreCandidates(f, now, latest, deadline, d, cs) && best < |cs|
    requires forall i :: 0 <= i < |cs| ==> CandidateCost(g, cs[best]) <= CandidateCost(g, cs[i])
    requires forall i :: best < i < |cs| ==> CandidateCost(g, cs[best]) < CandidateCost(g, cs[i])
    ensures IsCheapest(f, now, latest, deadline, d, g, cs[best].start)
  {
    var b := cs[best].start;
    forall c | IsSlot(f, now, latest, c)
      ensures Cost(f, deadline, d, g, b) <= Cost(f, deadline, d, g, c)
      ensures b < c ==> Cost(f, deadline, d, g, b) < Cost(f, deadline, d, g, c)
    {
      var i :| 0 <= i < |cs| && cs[i].start == c;
      assert CandidateCost(g, cs[i]) == Cost(f, deadline, d, g, c);
      assert CandidateCost(g, cs[best]) == Cost(f, deadline, d, g, b);
    }
  }

  /** `findBalancedStart`. */
  method FindBalancedStart(buckets: seq<Bucket>, now: Instant, latest: Instant, deadline: Instant, d: int)
    returns (r: Option<Instant>)
    ensures IsBalanced(SlotScores(buckets, d), now, latest, deadline, d, r)
  {
    ghost var f := SlotScores(buckets, d);
    var candidates := CollectCandidates(buckets, now, latest, deadline, d);
    if |candidates| == 0 {
      return None;
    }
    var g := FindExtremes(candidates);
    var best := PickCheapest(candidates, g);
    ExtremesAreRanges(f, now, latest, deadline, d, candidates, g);
    PickIsCheapest(f, now, latest, deadline, d, candidates, g, best);
    return Some(candidates[best].start);
  }

  // ---------------------------------------------------------------- properties

  lemma NormalizeOrder(x: real, y: real, min: real, max: real)
    requires min <= x <= y <= max
    ensures Normalize(x, min, max) <= Normalize(y, min, max)
    ensures x < y ==> Normalize(x, min, max) < Normalize(y, min, max)
  {
    if min < max {
      QuotientOrder(x - min, y - min, max - min);
    }
  }

  lemma QuotientOrder(x: real, y: real, w: real)
    requires x <= y && w > 0.0
    ensures x / w <= y / w
    ensures x < y ==> x / w < y / w
  {
  }

  lemma LaterDwellsLess(deadline: Instant, d: int, b: Instant, c: Instant)
    requires b < c
    ensures DwellAt(deadline, d, c) < DwellAt(deadline, d, b)
  {
  }

  /** Pareto: every slot later than the balanced one is strictly dirtier. */
  lemma BalancedIsPareto(f: Scores, now: Instant, latest: Instant, deadline: Instant, d: int, b: Instant, c: Instant)
    requires IsBalanced(f, now, latest, deadline, d, Some(b))
    requires IsSlot(f, now, latest, c) && b < c
    ensures Carbon(f, b) < Carbon(f, c)
  {
    var g :| AreRanges(f, now, latest, deadline, d, g) && IsCheapest(f, now, latest, deadline, d, g, b);
    LaterDwellsLess(deadline, d, b, c);
    NormalizeOrder(DwellAt(deadline, d, c), DwellAt(deadline, d, b), g.minDwell, g.maxDwell);
    if Carbon(f, c) <= Carbon(f, b) {
      NormalizeOrder(Carbon(f, c), Carbon(f, b), g.minCarbon, g.maxCarbon);
    }
  }

  lemma CrossMultiplied(p: real, q: real, rc: real, rd: real)
    requires rc > 0.0 && rd > 0.0 && p / rc <= q / rd
    ensures p * rd <= q * rc
    ensures p / rc < q / rd ==> p * rd < q * rc
  {
    var x, y := p / rc, q / rd;
    assert x * rc == p && y * rd == q;
    ScaledBoth(x, y, rc * rd);
    assert p * rd == x * (rc * rd) && q * rc == y * (rc * rd);
  }

  lemma ScaledBoth(x: real, y: real, k: real)
    requires k > 0.0 && x <= y
    ensures x * k <= y * k
    ensures x < y ==> x * k < y * k
  {
    assert (y - x) * k >= 0.0;
    if x < y {
      assert (y - x) * k > 0.0;
    }
  }

  lemma NormalizeDifference(x: real, y: real, min: real, max: real)
    requires min < max
    ensures Normalize(x, min, max) - Normalize(y, min, max) == (x - y) / (max - min)
  {
    var r := max - min;
    assert (x - min) / r - (y - min) / r == (x - y) / r;
  }

  /** The terms of the trade, without quotients: against any other slot, what the balanced one
      is dirtier by, as a share of the spread of carbon over the slots, is at most what it is
      later by, as a share of the spread of the slots in time; and less, if it is the earlier
      of the two. Carbon and dwell weigh the same. */
  lemma BalancedTradesEvenly(f: Scores, now: Instant, latest: Instant, deadline: Instant, d: int, b: Instant,
                             c: Instant, g: Ranges)
    requires AreRanges(f, now, latest, deadline, d, g) && IsCheapest(f, now, latest, deadline, d, g, b)
    requires IsSlot(f, now, latest, c)
    ensures var carbon, time := g.maxCarbon - g.minCarbon, g.maxDwell - g.minDwell;
            && (Carbon(f, b) - Carbon(f, c)) * time <= Minutes(b - c) * carbon
            && (b < c && carbon > 0.0 ==> (Carbon(f, b) - Carbon(f, c)) * time < Minutes(b - c) * carbon)
  {
    DwellDifference(deadline, d, b, c);
    hide Normalize, DwellAt, Minutes;
    TradeOfCosts(Carbon(f, b), Carbon(f, c), DwellAt(deadline, d, b), DwellAt(deadline, d, c), g);
  }

  lemma DwellDifference(deadline: Instant, d: int, b: Instant, c: Instant)
    ensures DwellAt(deadline, d, c) - DwellAt(deadline, d, b) == Minutes(b - c)
    ensures DwellAt(deadline, d, c) == DwellAt(deadline, d, b) ==> b == c
  {
  }

  /** The same for any two points inside the ranges, from the order of their costs. */
  lemma TradeOfCosts(x: real, y: real, dx: real, dy: real, g: Ranges)
    requires g.minCarbon <= x <= g.maxCarbon && g.minCarbon <= y <= g.maxCarbon
    requires g.minDwell <= dx <= g.maxDwell && g.minDwell <= dy <= g.maxDwell
    requires Normalize(x, g.minCarbon, g.maxCarbon) + Normalize(dx, g.minDwell, g.maxDwell)
             <= Normalize(y, g.minCarbon, g.maxCarbon) + Normalize(dy, g.minDwell, g.maxDwell)
    ensures (x - y) * (g.maxDwell - g.minDwell) <= (dy - dx) * (g.maxCarbon - g.minCarbon)
    ensures Normalize(x, g.minCarbon, g.maxCarbon) + Normalize(dx, g.minDwell, g.maxDwell)
            < Normalize(y, g.minCarbon, g.maxCarbon) + Normalize(dy, g.minDwell, g.maxDwell)
            && g.minCarbon < g.maxCarbon && g.minDwell < g.maxDwell ==>
              (x - y) * (g.maxDwell - g.minDwell) < (dy - dx) * (g.maxCarbon - g.minCarbon)
  {
    var carbon, time := g.maxCarbon - g.minCarbon, g.maxDwell - g.minDwell;
    if carbon > 0.0 && time > 0.0 {
      NormalizeDifference(x, y, g.minCarbon, g.maxCarbon);
      NormalizeDifference(dy, dx, g.minDwell, g.maxDwell);
      hide Normalize;
      CrossMultiplied(x - y, dy - dx, carbon, time);
    } else if carbon > 0.0 {
      assert dy - dx == 0.0 && time == 0.0;
    } else if time > 0.0 {
      assert x - y == 0.0 && carbon == 0.0;
    }
  }

  /** Weighing dwell as well never moves the start earlier than carbon alone would. */
  lemma BalancedNotBeforeOptimal(f: Scores, now: Instant, latest: Instant, deadline: Instant, d: int, b: Instant,
                                 o: Instant)
    requires IsBalanced(f, now, latest, deadline, d, Some(b)) && IsOptimal(f, now, latest, Some(o))
    ensures o <= b
  {
    assert IsSlot(f, now, latest, b);
    if b < o {
      BalancedIsPareto(f, now, latest, deadline, d, b, o);
    }
  }

  /** Two searches with the same slots and the same costs make the same choice. */
  lemma SameChoice(f: Scores, f': Scores, now: Instant, latest: Instant, deadline: Instant, deadline': Instant, d: int,
                   g: Ranges, g': Ranges, b: Instant)
    requires forall c :: IsSlot(f', now, latest, c) <==> IsSlot(f, now, latest, c)
    requires forall c :: IsSlot(f, now, latest, c) ==> Cost(f', deadline', d, g', c) == Cost(f, deadline, d, g, c)
    requires IsCheapest(f, now, latest, deadline, d, g, b)
    requires AreRanges(f', now, latest, deadline', d, g')
    ensures IsBalanced(f', now, latest, deadline', d, Some(b))
  {
    assert IsCheapest(f', now, latest, deadline', d, g', b);
  }

  /** The choice does not depend on the deadline argument. */
  lemma DeadlineIrrelevant(f: Scores, now: Instant, latest: Instant, deadline: Instant, deadline': Instant, d: int,
                           r: Option<Instant>)
    requires IsBalanced(f, now, latest, deadline, d, r)
    ensures IsBalanced(f, now, latest, deadline', d, r)
  {
    if r.Some? {
      var g :| AreRanges(f, now, latest, deadline, d, g) && IsCheapest(f, now, latest, deadline, d, g, r.value);
      var shift := Minutes(deadline' - deadline);
      var g' := g.(minDwell := g.minDwell + shift, maxDwell := g.maxDwell + shift);
      ShiftedRanges(f, now, latest, deadline, deadline', d, g, g');
      forall c | IsSlot(f, now, latest, c)
        ensures Cost(f, deadline', d, g', c) == Cost(f, deadline, d, g, c)
      {
        ShiftedCost(f, deadline, deadline', d, g, g', c);
      }
      SameChoice(f, f, now, latest, deadline, deadline', d, g, g', r.value);
    }
  }

  lemma ShiftedDwell(deadline: Instant, deadline': Instant, d: int, c: Instant)
    ensures DwellAt(deadline', d, c) == DwellAt(deadline, d, c) + Minutes(deadline' - deadline)
  {
  }

  lemma NormalizeShift(v: real, min: real, max: real, shift: real)
    ensures Normalize(v + shift, min + shift, max + shift) == Normalize(v, min, max)
  {
    assert (v + shift) - (min + shift) == v - min;
    assert (max + shift) - (min + shift) == max - min;
  }

  lemma ShiftedCost(f: Scores, deadline: Instant, deadline': Instant, d: int, g: Ranges, g': Ranges, c: Instant)
    requires var shift := Minutes(deadline' - deadline);
             g' == g.(minDwell := g.minDwell + shift, maxDwell := g.maxDwell + shift)
    ensures Cost(f, deadline', d, g', c) == Cost(f, deadline, d, g, c)
  {
    ShiftedDwell(deadline, deadline', d, c);
    NormalizeShift(DwellAt(deadline, d, c), g.minDwell, g.maxDwell, Minutes(deadline' - deadline));
  }

  lemma ShiftedRanges(f: Scores, now: Instant, latest: Instant, deadline: Instant, deadline': Instant, d: int,
                      g: Ranges, g': Ranges)
    requires AreRanges(f, now, latest, deadline, d, g)
    requires var shift := Minutes(deadline' - deadline);
             g' == g.(minDwell := g.minDwell + shift, maxDwell := g.maxDwell + shift)
    ensures AreRanges(f, now, latest, deadline', d, g')
  {
    forall c {:trigger DwellAt(deadline', d, c)}
      ensures DwellAt(deadline', d, c) == DwellAt(deadline, d, c) + Minutes(deadline' - deadline)
    {
      ShiftedDwell(deadline, deadline', d, c);
    }
    var lo :| IsSlot(f, now, latest, lo) && DwellAt(deadline, d, lo) == g.minDwell;
    var hi :| IsSlot(f, now, latest, hi) && DwellAt(deadline, d, hi) == g.maxDwell;
    assert DwellAt(deadline', d, lo) == g'.minDwell && DwellAt(deadline', d, hi) == g'.maxDwell;
  }

  function Affine(k: real, c: real, x: real): real {
    k * x + c
  }

  ghost predicate IsAffine(m: real -> real, k: real, c: real) {
    forall x :: m(x) == Affine(k, c, x)
  }

  /** `m` keeps order, as every x => k * x + c with k > 0 does. */
  ghost predicate KeepsOrder(m: real -> real) {
    forall x, y :: x <= y <==> m(x) <= m(y)
  }

  /** `after` is `before` with every score passed through `m`. */
  ghost predicate ScoresMapped(before: Scores, after: Scores, m: real -> real) {
    forall t :: (after(t).Some? <==> before(t).Some?) && (before(t).Some? ==> after(t).value == m(before(t).value))
  }

  lemma ScaleOrder(x: real, y: real, k: real, c: real)
    requires k > 0.0
    ensures x <= y <==> Affine(k, c, x) <= Affine(k, c, y)
  {
    if x <= y {
      assert k * (y - x) >= 0.0;
    } else {
      assert k * (x - y) > 0.0;
    }
  }

  lemma NormalizeScale(v: real, min: real, max: real, k: real, c: real)
    requires k > 0.0
    ensures Normalize(Affine(k, c, v), Affine(k, c, min), Affine(k, c, max)) == Normalize(v, min, max)
  {
    if min != max {
      var q := (v - min) / (max - min);
      assert q * (max - min) == v - min;
      assert q * (k * (max - min)) == k * (v - min);
      assert k * max + c - (k * min + c) == k * (max - min);
      assert k * (max - min) != 0.0;
    }
  }

  lemma ScalingKeepsOrder(m: real -> real, k: real, c: real)
    requires k > 0.0 && IsAffine(m, k, c)
    ensures KeepsOrder(m)
  {
    hide Affine;
    forall x, y {:trigger m(x), m(y)}
      ensures x <= y <==> m(x) <= m(y)
    {
      ScaleOrder(x, y, k, c);
    }
  }

  lemma RescaledScores(before: seq<Bucket>, after: seq<Bucket>, m: real -> real, k: real, c: real, d: int)
    requires Rescaled(before, after, k, c) && IsAffine(m, k, c)
    ensures ScoresMapped(SlotScores(before, d), SlotScores(after, d), m)
  {
    forall t {:trigger SlotScores(after, d)(t)}
      ensures var s, s' := SlotScores(before, d)(t), SlotScores(after, d)(t);
              (s'.Some? <==> s.Some?) && (s.Some? ==> s'.value == m(s.value))
    {
      RescaledScore(before, after, k, c, t, t + d);
    }
  }

  lemma MappedSlots(f: Scores, f': Scores, m: real -> real, now: Instant, latest: Instant)
    requires ScoresMapped(f, f', m)
    ensures forall t :: IsSlot(f', now, latest, t) <==> IsSlot(f, now, latest, t)
    ensures forall t :: IsSlot(f, now, latest, t) ==> Carbon(f', t) == m(Carbon(f, t))
  {
  }

  lemma MappedOptimal(f: Scores, f': Scores, m: real -> real, now: Instant, latest: Instant, r: Option<Instant>)
    requires KeepsOrder(m) && ScoresMapped(f, f', m)
    requires IsOptimal(f, now, latest, r)
    ensures IsOptimal(f', now, latest, r)
  {
    MappedSlots(f, f', m, now, latest);
  }

  lemma MappedBalanced(f: Scores, f': Scores, m: real -> real, now: Instant, latest: Instant, deadline: Instant, d: int,
                       g: Ranges, g': Ranges, b: Instant)
    requires KeepsOrder(m) && ScoresMapped(f, f', m)
    requires AreRanges(f, now, latest, deadline, d, g) && IsCheapest(f, now, latest, deadline, d, g, b)
    requires g' == g.(minCarbon := m(g.minCarbon), maxCarbon := m(g.maxCarbon))
    requires forall t :: IsSlot(f, now, latest, t) ==> Cost(f', deadline, d, g', t) == Cost(f, deadline, d, g, t)
    ensures IsBalanced(f', now, latest, deadline, d, Some(b))
  {
    MappedSlots(f, f', m, now, latest);
    MappedRanges(f, f', m, now, latest, deadline, d, g, g');
    SameChoice(f, f', now, latest, deadline, deadline, d, g, g', b);
  }

  lemma ScaledCost(f: Scores, f': Scores, k: real, c: real, deadline: Instant, d: int, g: Ranges, g': Ranges,
                   t: Instant)
    requires k > 0.0 && Carbon(f', t) == Affine(k, c, Carbon(f, t))
    requires g' == g.(minCarbon := Affine(k, c, g.minCarbon), maxCarbon := Affine(k, c, g.maxCarbon))
    ensures Cost(f', deadline, d, g', t) == Cost(f, deadline, d, g, t)
  {
    hide Affine, Normalize;
    NormalizeScale(Carbon(f, t), g.minCarbon, g.maxCarbon, k, c);
  }

  lemma MappedRanges(f: Scores, f': Scores, m: real -> real, now: Instant, latest: Instant, deadline: Instant, d: int,
                     g: Ranges, g': Ranges)
    requires KeepsOrder(m) && ScoresMapped(f, f', m)
    requires AreRanges(f, now, latest, deadline, d, g)
    requires g' == g.(minCarbon := m(g.minCarbon), maxCarbon := m(g.maxCarbon))
    ensures AreRanges(f', now, latest, deadline, d, g')
  {
    MappedSlots(f, f', m, now, latest);
    var clo :| IsSlot(f, now, latest, clo) && Carbon(f, clo) == g.minCarbon;
    var chi :| IsSlot(f, now, latest, chi) && Carbon(f, chi) == g.maxCarbon;
    var dlo :| IsSlot(f, now, latest, dlo) && DwellAt(deadline, d, dlo) == g.minDwell;
    var dhi :| IsSlot(f, now, latest, dhi) && DwellAt(deadline, d, dhi) == g.maxDwell;
    assert IsSlot(f', now, latest, clo) && IsSlot(f', now, latest, chi);
    assert IsSlot(f', now, latest, dlo) && IsSlot(f', now, latest, dhi);
  }

  /** Replacing every forecast value x by k * x + c, k > 0, does not change the choice. */
  lemma OptimalIgnoresScale(before: seq<Bucket>, after: seq<Bucket>, k: real, c: real,
                            now: Instant, latest: Instant, d: int, r: Option<Instant>)
    requires k > 0.0 && Rescaled(before, after, k, c)
    requires IsOptimal(SlotScores(before, d), now, latest, r)
    ensures IsOptimal(SlotScores(after, d), now, latest, r)
  {
    var m := x => Affine(k, c, x);
    hide Affine, IsOptimal, Rescaled, SlotScores;
    ScalingKeepsOrder(m, k, c);
    RescaledScores(before, after, m, k, c, d);
    hide IsAffine, ScoresMapped, KeepsOrder;
    MappedOptimal(SlotScores(before, d), SlotScores(after, d), m, now, latest, r);
  }

  lemma BalancedIgnoresScale(before: seq<Bucket>, after: seq<Bucket>, k: real, c: real,
                             now: Instant, latest: Instant, deadline: Instant, d: int, r: Option<Instant>)
    requires k > 0.0 && Rescaled(before, after, k, c)
    requires IsBalanced(SlotScores(before, d), now, latest, deadline, d, r)
    ensures IsBalanced(SlotScores(after, d), now, latest, deadline, d, r)
  {
    var f, f', m := SlotScores(before, d), SlotScores(after, d), x => Affine(k, c, x);
    hide Affine;
    assert IsAffine(m, k, c);
    hide IsAffine, ScoresMapped, KeepsOrder, AreRanges, IsCheapest, SlotScores, Rescaled, IsSlot;
    RescaledScores(before, after, m, k, c, d);
    MappedSlots(f, f', m, now, latest);
    if r.Some? {
      var g :| AreRanges(f, now, latest, deadline, d, g) && IsCheapest(f, now, latest, deadline, d, g, r.value);
      ScalingKeepsOrder(m, k, c);
      ScaledBalanced(f, f', m, k, c, now, latest, deadline, d, g, r.value);
    }
  }

  lemma ScaledBalanced(f: Scores, f': Scores, m: real -> real, k: real, c: real, now: Instant, latest: Instant,
                       deadline: Instant, d: int, g: Ranges, b: Instant)
    requires k > 0.0 && IsAffine(m, k, c) && ScoresMapped(f, f', m) && KeepsOrder(m)
    requires AreRanges(f, now, latest, deadline, d, g) && IsCheapest(f, now, latest, deadline, d, g, b)
    ensures IsBalanced(f', now, latest, deadline, d, Some(b))
  {
    hide IsAffine, ScoresMapped, KeepsOrder, AreRanges, IsCheapest, IsBalanced, Cost;
    var g' := g.(minCarbon := m(g.minCarbon), maxCarbon := m(g.maxCarbon));
    ScaledCosts(f, f', m, k, c, now, latest, deadline, d, g, g');
    MappedBalanced(f, f', m, now, latest, deadline, d, g, g', b);
  }

  lemma ScaledCosts(f: Scores, f': Scores, m: real -> real, k: real, c: real, now: Instant, latest: Instant,
                    deadline: Instant, d: int, g: Ranges, g': Ranges)
    requires k > 0.0 && IsAffine(m, k, c) && ScoresMapped(f, f', m)
    requires g' == g.(minCarbon := m(g.minCarbon), maxCarbon := m(g.maxCarbon))
    ensures forall t :: IsSlot(f, now, latest, t) ==> Cost(f', deadline, d, g', t) == Cost(f, deadline, d, g, t)
  {
    hide Cost, ScoresMapped, Affine;
    MappedSlots(f, f', m, now, latest);
    forall t | IsSlot(f, now, latest, t)
      ensures Cost(f', deadline, d, g', t) == Cost(f, deadline, d, g, t)
    {
      ScaledCost(f, f', k, c, deadline, d, g, g', t);
    }
  }

  lemma SliceKeepsBalanced(bs: seq<Bucket>, from: Instant, to: Instant, now: Instant, latest: Instant,
                           deadline: Instant, d: int, r: Option<Instant>)
    requires from <= now && latest + d <= to
    ensures IsBalanced(SlotScores(Slice(bs, from, to), d), now, latest, deadline, d, r) <==>
            IsBalanced(SlotScores(bs, d), now, latest, deadline, d, r)
  {
    var f, f' := SlotScores(Slice(bs, from, to), d), SlotScores(bs, d);
    SliceKeepsScores(bs, from, to, now, latest, d);
    if IsBalanced(f, now, latest, deadline, d, r) {
      SameBalanced(f, f', now, latest, deadline, d, r);
    }
    if IsBalanced(f', now, latest, deadline, d, r) {
      SameBalanced(f', f, now, latest, deadline, d, r);
    }
  }

  lemma SameBalanced(f: Scores, f': Scores, now: Instant, latest: Instant, deadline: Instant, d: int,
                     r: Option<Instant>)
    requires AgreeOn(f, f', now, latest) || AgreeOn(f', f, now, latest)
    requires IsBalanced(f, now, latest, deadline, d, r)
    ensures IsBalanced(f', now, latest, deadline, d, r)
  {
    forall t ensures IsSlot(f', now, latest, t) <==> IsSlot(f, now, latest, t) {
    }
    if r.Some? {
      var g :| AreRanges(f, now, latest, deadline, d, g) && IsCheapest(f, now, latest, deadline, d, g, r.value);
      forall t | IsSlot(f, now, latest, t)
        ensures Cost(f', deadline, d, g, t) == Cost(f, deadline, d, g, t) && Carbon(f', t) == Carbon(f, t)
      {
      }
      assert AreRanges(f', now, latest, deadline, d, g);
      SameChoice(f, f', now, latest, deadline, deadline, d, g, g, r.value);
    }
  }

  // ---------------------------------------------------------------- acting on the choice

  /** The activation test applied to a planned start: act now unless it lies after the
      half-hour bucket that `now` falls in. */
  predicate ActsNow(planned: Option<Instant>, now: Instant) {
    planned.None? || planned.value <= AlignToHalfHour(now)
  }

  /** A plan acts now only when there is nothing to choose from, or when `now` is itself a
      grid point and the chosen one: inside a half hour the best slot is never taken. */
  lemma ActsNowExactly(f: Scores, now: Instant, latest: Instant, planned: Option<Instant>)
    requires planned.None? ==> forall c :: !IsSlot(f, now, latest, c)
    requires planned.Some? ==> IsSlot(f, now, latest, planned.value)
    ensures ActsNow(planned, now) <==>
            (forall c :: !IsSlot(f, now, latest, c)) || (OnGrid(now) && planned == Some(now))
  {
  }

  /** On the grid, a tick that is itself a slot strictly cleaner than every later one starts. */
  lemma CleanestNowStarts(f: Scores, now: Instant, latest: Instant, planned: Option<Instant>)
    requires IsOptimal(f, now, latest, planned)
    requires OnGrid(now) && now <= latest && f(now).Some?
    requires forall c :: OnGrid(c) && now < c <= latest && f(c).Some? ==> f(now).value < f(c).value
    ensures ActsNow(planned, now) && planned == Some(now)
  {
    assert IsSlot(f, now, latest, now);
  }

  /** With a forecast for every slot, an optimising tick off the grid never starts while a
      grid point is left before the latest start. */
  lemma OffGridWaits(f: Scores, now: Instant, latest: Instant, planned: Option<Instant>)
    requires planned.None? ==> forall c :: !IsSlot(f, now, latest, c)
    requires planned.Some? ==> IsSlot(f, now, latest, planned.value)
    requires forall c :: OnGrid(c) && now <= c <= latest ==> f(c).Some?
    requires !OnGrid(now)
    ensures ActsNow(planned, now) <==> latest < AlignToHalfHour(now) + HALF_HOUR
  {
    var first := AlignToHalfHour(now);
    NextOnGrid(first);
    if first + HALF_HOUR <= latest {
      assert IsSlot(f, now, latest, first + HALF_HOUR);
    }
  }
}
