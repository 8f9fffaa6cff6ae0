/** Carbon forecast buckets: scoring a charging window, and slicing
    (api/carbonintensity, and `scoreWindow` of api/services). */
module Forecast {
  import opened Wrappers
  import opened Clock

  datatype Bucket = Bucket(from: Instant, to: Instant, gco2: int)

  // ---------------------------------------------------------------- scores

  /** Minutes of the bucket inside [start, end). */
  function OverlapMinutes(b: Bucket, start: Instant, end: Instant): (r: real)
    ensures r >= 0.0
    ensures r > 0.0 <==> b.from < end && start < b.to && b.from < b.to && start < end
  {
    var overlapStart := if start > b.from then start else b.from;
    var overlapEnd := if end < b.to then end else b.to;
    if overlapStart < overlapEnd then Minutes(overlapEnd - overlapStart) else 0.0
  }

  /** What one bucket contributes to a window: the minutes it overlaps, and its forecast
      times those minutes. */
  datatype Share = Share(weight: real, weighted: real)

  function ShareOf(b: Bucket, start: Instant, end: Instant): (r: Share)
    ensures r.weight >= 0.0
    ensures r.weight == 0.0 ==> r.weighted == 0.0
  {
    var weight := OverlapMinutes(b, start, end);
    Share(weight, b.gco2 as real * weight)
  }

  function Shares(bs: seq<Bucket>, start: Instant, end: Instant): (r: seq<Share>)
    ensures |r| == |bs|
    ensures forall i :: 0 <= i < |bs| ==> r[i] == ShareOf(bs[i], start, end)
  {
    seq(|bs|, i requires 0 <= i < |bs| => ShareOf(bs[i], start, end))
  }

  function TotalWeight(ss: seq<Share>): real {
    if ss == [] then 0.0 else TotalWeight(ss[..|ss| - 1]) + ss[|ss| - 1].weight
  }

  function WeightedSum(ss: seq<Share>): real {
    if ss == [] then 0.0
    else WeightedSum(ss[..|ss| - 1]) + ss[|ss| - 1].weighted
  }

  function Average(ss: seq<Share>): Option<real> {
    if TotalWeight(ss) <= 0.0 then None else Some(WeightedSum(ss) / TotalWeight(ss))
  }

  /** Time-weighted average of the forecast over [start, end), if any of it is covered. */
  function Score(bs: seq<Bucket>, start: Instant, end: Instant): Option<real> {
    Average(Shares(bs, start, end))
  }

  lemma SumsOfOneMore(ss: seq<Share>, s: Share)
    ensures TotalWeight(ss + [s]) == TotalWeight(ss) + s.weight
    ensures WeightedSum(ss + [s]) == WeightedSum(ss) + s.weighted
  {
    assert (ss + [s])[..|ss|] == ss;
  }

  /** The sums over the shares of a forecast, one bucket at a time. */
  lemma SumsOfBuckets(bs: seq<Bucket>, b: Bucket, start: Instant, end: Instant)
    ensures TotalWeight(Shares(bs + [b], start, end)) ==
            TotalWeight(Shares(bs, start, end)) + ShareOf(b, start, end).weight
    ensures WeightedSum(Shares(bs + [b], start, end)) ==
            WeightedSum(Shares(bs, start, end)) + ShareOf(b, start, end).weighted
  {
    assert Shares(bs + [b], start, end) == Shares(bs, start, end) + [ShareOf(b, start, end)];
    SumsOfOneMore(Shares(bs, start, end), ShareOf(b, start, end));
  }

  /** `scoreWindow`. */
  method ScoreWindow(buckets: seq<Bucket>, start: Instant, end: Instant) returns (r: Option<real>)
    ensures r == Score(buckets, start, end)
  {
    var totalWeight, weightedSum := 0.0, 0.0;
    for i := 0 to |buckets|
      invariant totalWeight == TotalWeight(Shares(buckets[..i], start, end))
      invariant weightedSum == WeightedSum(Shares(buckets[..i], start, end))
    {
      var b := buckets[i];
      assert buckets[..i + 1] == buckets[..i] + [b];
      SumsOfBuckets(buckets[..i], b, start, end);
      var weight, weighted := BucketOverlap(b, start, end);
      totalWeight := totalWeight + weight;
      weightedSum := weightedSum + weighted;
    }
    assert buckets[..|buckets|] == buckets;
    if totalWeight <= 0.0 {
      return None;
    }
    return Some(weightedSum / totalWeight);
  }

  method BucketOverlap(b: Bucket, start: Instant, end: Instant) returns (weight: real, weighted: real)
    ensures ShareOf(b, start, end) == Share(weight, weighted)
  {
    var overlapStart := if start > b.from then start else b.from;
    var overlapEnd := if end < b.to then end else b.to;
    if !(overlapStart < overlapEnd) {
      return 0.0, 0.0;
    }
    weight := Minutes(overlapEnd - overlapStart);
    weighted := b.gco2 as real * weight;
  }

  ghost predicate Weights(ss: seq<Share>) {
    forall i :: 0 <= i < |ss| ==> ss[i].weight >= 0.0
  }

  lemma {:induction false} PositiveTotal(ss: seq<Share>)
    requires Weights(ss)
    ensures TotalWeight(ss) >= 0.0
    ensures TotalWeight(ss) > 0.0 <==> exists i :: 0 <= i < |ss| && ss[i].weight > 0.0
  {
    if ss != [] {
      PositiveTotal(ss[..|ss| - 1]);
    }
  }

  /** A window has a score exactly when some bucket really overlaps it. */
  lemma ScoredIffCovered(bs: seq<Bucket>, start: Instant, end: Instant)
    ensures Score(bs, start, end).Some? <==> exists b :: b in bs && OverlapMinutes(b, start, end) > 0.0
  {
    PositiveTotal(Shares(bs, start, end));
    if b :| b in bs && OverlapMinutes(b, start, end) > 0.0 {
      var i :| 0 <= i < |bs| && bs[i] == b;
      assert Shares(bs, start, end)[i].weight > 0.0;
    }
  }

  // ---------------------------------------------------------------- the weight is time

  /** The minutes a bucket overlaps add up over adjacent windows. */
  lemma OverlapSplits(b: Bucket, start: Instant, mid: Instant, end: Instant)
    requires start <= mid <= end
    ensures OverlapMinutes(b, start, end) == OverlapMinutes(b, start, mid) + OverlapMinutes(b, mid, end)
  {
  }

  lemma ShareSplits(b: Bucket, start: Instant, mid: Instant, end: Instant)
    requires start <= mid <= end
    ensures var whole, x, y := ShareOf(b, start, end), ShareOf(b, start, mid), ShareOf(b, mid, end);
            whole.weight == x.weight + y.weight && whole.weighted == x.weighted + y.weighted
  {
    OverlapSplits(b, start, mid, end);
    hide OverlapMinutes;
    Distribute(b.gco2 as real, OverlapMinutes(b, start, mid), OverlapMinutes(b, mid, end));
  }

  /** So do both sums of the score. */
  lemma {:induction false} SumsSplit(bs: seq<Bucket>, start: Instant, mid: Instant, end: Instant)
    requires start <= mid <= end
    ensures TotalWeight(Shares(bs, start, end)) ==
            TotalWeight(Shares(bs, start, mid)) + TotalWeight(Shares(bs, mid, end))
    ensures WeightedSum(Shares(bs, start, end)) ==
            WeightedSum(Shares(bs, start, mid)) + WeightedSum(Shares(bs, mid, end))
  {
    if bs != [] {
      var front, b := bs[..|bs| - 1], bs[|bs| - 1];
      assert bs == front + [b];
      SumsSplit(front, start, mid, end);
      ShareSplits(b, start, mid, end);
      SumsOfBuckets(front, b, start, end);
      SumsOfBuckets(front, b, start, mid);
      SumsOfBuckets(front, b, mid, end);
    }
  }

  /** The buckets follow each other without a gap. */
  ghost predicate Contiguous(bs: seq<Bucket>) {
    && (forall i :: 0 <= i < |bs| ==> bs[i].from <= bs[i].to)
    && (forall i :: 0 <= i < |bs| - 1 ==> bs[i].to == bs[i + 1].from)
  }

  /** Contiguous buckets from `start` or before to `end` or after. */
  ghost predicate Tiles(bs: seq<Bucket>, start: Instant, end: Instant) {
    bs != [] && Contiguous(bs) && bs[0].from <= start && end <= bs[|bs| - 1].to
  }

  /** Together contiguous buckets overlap a window as one long bucket does. */
  lemma {:induction false} WeightOfContiguous(bs: seq<Bucket>, start: Instant, end: Instant)
    requires bs != [] && Contiguous(bs)
    ensures bs[0].from <= bs[|bs| - 1].to
    ensures TotalWeight(Shares(bs, start, end)) ==
            OverlapMinutes(Bucket(bs[0].from, bs[|bs| - 1].to, 0), start, end)
  {
    var front, b := bs[..|bs| - 1], bs[|bs| - 1];
    assert bs == front + [b];
    SumsOfBuckets(front, b, start, end);
    if front == [] {
      assert Shares(front, start, end) == [];
    } else {
      assert bs[|front| - 1].to == bs[(|front| - 1) + 1].from;
      WeightOfContiguous(front, start, end);
      OverlapJoins(bs[0].from, b.from, b.to, start, end);
    }
  }

  lemma OverlapJoins(from: Instant, mid: Instant, to: Instant, start: Instant, end: Instant)
    requires from <= mid <= to
    ensures OverlapMinutes(Bucket(from, to, 0), start, end)
            == OverlapMinutes(Bucket(from, mid, 0), start, end) + OverlapMinutes(Bucket(mid, to, 0), start, end)
  {
  }

  /** Where the buckets tile a window, they weigh what the window lasts. */
  lemma {:induction false} TiledWeight(bs: seq<Bucket>, start: Instant, end: Instant)
    requires Tiles(bs, start, end) && start <= end
    ensures TotalWeight(Shares(bs, start, end)) == Minutes(end - start)
  {
    WeightOfContiguous(bs, start, end);
  }

  /** The carbon of a charge, its score times its minutes, is that of its two parts: the score
      is the average over time, whatever the lengths of the buckets. */
  lemma {:induction false} ScoreIsTimeAverage(bs: seq<Bucket>, start: Instant, mid: Instant, end: Instant)
    requires Tiles(bs, start, end) && start < mid < end
    ensures Score(bs, start, end).Some? && Score(bs, start, mid).Some? && Score(bs, mid, end).Some?
    ensures Score(bs, start, end).value * Minutes(end - start)
            == Score(bs, start, mid).value * Minutes(mid - start) + Score(bs, mid, end).value * Minutes(end - mid)
  {
    SumsSplit(bs, start, mid, end);
    CarbonOf(bs, start, end);
    CarbonOf(bs, start, mid);
    CarbonOf(bs, mid, end);
  }

  lemma {:induction false} CarbonOf(bs: seq<Bucket>, start: Instant, end: Instant)
    requires Tiles(bs, start, end) && start < end
    ensures Score(bs, start, end).Some?
    ensures Score(bs, start, end).value * Minutes(end - start) == WeightedSum(Shares(bs, start, end))
  {
    TiledWeight(bs, start, end);
    hide TotalWeight, WeightedSum, Shares, Tiles;
    QuotientTimes(WeightedSum(Shares(bs, start, end)), Minutes(end - start));
  }

  lemma QuotientTimes(x: real, d: real)
    requires d > 0.0
    ensures x / d * d == x
  {
  }

  /** Inside one bucket the score is the bucket's forecast. */
  lemma {:induction false} ScoreInsideBucket(b: Bucket, start: Instant, end: Instant)
    requires b.from <= start < end <= b.to
    ensures Score([b], start, end) == Some(b.gco2 as real)
  {
    assert b in [b] && OverlapMinutes(b, start, end) > 0.0;
    ScoredIffCovered([b], start, end);
    ScoreIsAnAverage([b], start, end, b.gco2, b.gco2);
  }

  // ---------------------------------------------------------------- rescaling

  /** `after` is `before` with every forecast value x replaced by k * x + c. */
  ghost predicate Rescaled(before: seq<Bucket>, after: seq<Bucket>, k: real, c: real) {
    && |before| == |after|
    && forall i :: 0 <= i < |before| ==>
         && after[i].from == before[i].from
         && after[i].to == before[i].to
         && after[i].gco2 as real == k * before[i].gco2 as real + c
  }

  ghost predicate RescaledShares(before: seq<Share>, after: seq<Share>, k: real, c: real) {
    && |before| == |after|
    && forall i :: 0 <= i < |before| ==>
         && after[i].weight == before[i].weight
         && after[i].weighted == k * before[i].weighted + c * before[i].weight
  }

  lemma Distribute(k: real, x: real, y: real)
    ensures k * (x + y) == k * x + k * y
  {
  }

  lemma {:induction false} RescaledSum(before: seq<Share>, after: seq<Share>, k: real, c: real)
    requires RescaledShares(before, after, k, c)
    ensures TotalWeight(after) == TotalWeight(before)
    ensures WeightedSum(after) == k * WeightedSum(before) + c * TotalWeight(before)
  {
    if before != [] {
      var n := |before| - 1;
      RescaledSum(before[..n], after[..n], k, c);
      Distribute(k, WeightedSum(before[..n]), before[n].weighted);
      Distribute(c, TotalWeight(before[..n]), before[n].weight);
    }
  }

  lemma RescaledAverage(before: seq<Share>, after: seq<Share>, k: real, c: real)
    requires RescaledShares(before, after, k, c)
    ensures Average(after).Some? <==> Average(before).Some?
    ensures Average(before).Some? ==> Average(after).value == k * Average(before).value + c
  {
    RescaledSum(before, after, k, c);
    if TotalWeight(before) > 0.0 {
      AffineQuotient(WeightedSum(before), TotalWeight(before), k, c);
    }
  }

  lemma RescaledBuckets(before: seq<Bucket>, after: seq<Bucket>, k: real, c: real, start: Instant, end: Instant)
    requires Rescaled(before, after, k, c)
    ensures RescaledShares(Shares(before, start, end), Shares(after, start, end), k, c)
  {
    hide ShareOf;
    forall i | 0 <= i < |before|
      ensures Shares(after, start, end)[i].weight == Shares(before, start, end)[i].weight
      ensures Shares(after, start, end)[i].weighted ==
              k * Shares(before, start, end)[i].weighted + c * Shares(before, start, end)[i].weight
    {
      RescaledShare(before[i], after[i], k, c, start, end);
    }
  }

  /** Rescaling the forecast rescales every score and covers the same windows. */
  lemma RescaledScore(before: seq<Bucket>, after: seq<Bucket>, k: real, c: real, start: Instant, end: Instant)
    requires Rescaled(before, after, k, c)
    ensures Score(after, start, end).Some? <==> Score(before, start, end).Some?
    ensures Score(before, start, end).Some? ==>
              Score(after, start, end).value == k * Score(before, start, end).value + c
  {
    RescaledBuckets(before, after, k, c, start, end);
    RescaledAverage(Shares(before, start, end), Shares(after, start, end), k, c);
  }

  lemma RescaledShare(b: Bucket, b': Bucket, k: real, c: real, start: Instant, end: Instant)
    requires b'.from == b.from && b'.to == b.to && b'.gco2 as real == k * b.gco2 as real + c
    ensures var s, s' := ShareOf(b, start, end), ShareOf(b', start, end);
            s'.weight == s.weight && s'.weighted == k * s.weighted + c * s.weight
  {
  }

  lemma AffineQuotient(s: real, w: real, k: real, c: real)
    requires w > 0.0
    ensures (k * s + c * w) / w == k * (s / w) + c
  {
    var q := s / w;
    assert q * w == s;
    assert (k * q + c) * w == k * s + c * w;
  }

  lemma {:induction false} NonNegativeSum(ss: seq<Share>)
    requires forall i :: 0 <= i < |ss| ==> ss[i].weighted >= 0.0
    ensures WeightedSum(ss) >= 0.0
  {
    if ss != [] {
      NonNegativeSum(ss[..|ss| - 1]);
    }
  }

  lemma NonNegativeScore(bs: seq<Bucket>, start: Instant, end: Instant)
    requires forall i :: 0 <= i < |bs| && OverlapMinutes(bs[i], start, end) > 0.0 ==> bs[i].gco2 >= 0
    requires Score(bs, start, end).Some?
    ensures Score(bs, start, end).value >= 0.0
  {
    NonNegativeSum(Shares(bs, start, end));
  }

  function Rescale(bs: seq<Bucket>, k: int, c: int): (r: seq<Bucket>)
    ensures |r| == |bs|
    ensures forall i :: 0 <= i < |bs| ==> r[i] == bs[i].(gco2 := k * bs[i].gco2 + c)
  {
    seq(|bs|, i requires 0 <= i < |bs| => bs[i].(gco2 := k * bs[i].gco2 + c))
  }

  lemma RescaleIsRescaled(bs: seq<Bucket>, k: int, c: int)
    ensures Rescaled(bs, Rescale(bs, k, c), k as real, c as real)
  {
    forall i | 0 <= i < |bs|
      ensures (k * bs[i].gco2 + c) as real == k as real * bs[i].gco2 as real + c as real
    {
      RealProduct(k, bs[i].gco2, c);
    }
  }

  lemma RealProduct(k: int, g: int, c: int)
    ensures (k * g + c) as real == k as real * g as real + c as real
  {
  }

  /** The score lies between the cleanest and the dirtiest overlapping bucket. */
  lemma ScoreIsAnAverage(bs: seq<Bucket>, start: Instant, end: Instant, lo: int, hi: int)
    requires forall i :: 0 <= i < |bs| && OverlapMinutes(bs[i], start, end) > 0.0 ==> lo <= bs[i].gco2 <= hi
    requires Score(bs, start, end).Some?
    ensures lo as real <= Score(bs, start, end).value <= hi as real
  {
    ScoreAtLeast(bs, start, end, lo);
    ScoreAtMost(bs, start, end, hi);
  }

  lemma ScoreAtLeast(bs: seq<Bucket>, start: Instant, end: Instant, lo: int)
    requires forall i :: 0 <= i < |bs| && OverlapMinutes(bs[i], start, end) > 0.0 ==> lo <= bs[i].gco2
    requires Score(bs, start, end).Some?
    ensures lo as real <= Score(bs, start, end).value
  {
    var above := Rescale(bs, 1, -lo);
    RescaleIsRescaled(bs, 1, -lo);
    RescaledScore(bs, above, 1.0, (-lo) as real, start, end);
    NonNegativeScore(above, start, end);
  }

  lemma ScoreAtMost(bs: seq<Bucket>, start: Instant, end: Instant, hi: int)
    requires forall i :: 0 <= i < |bs| && OverlapMinutes(bs[i], start, end) > 0.0 ==> bs[i].gco2 <= hi
    requires Score(bs, start, end).Some?
    ensures Score(bs, start, end).value <= hi as real
  {
    var below := Rescale(bs, -1, hi);
    RescaleIsRescaled(bs, -1, hi);
    RescaledScore(bs, below, -1.0, hi as real, start, end);
    NonNegativeScore(below, start, end);
  }

  // ---------------------------------------------------------------- slicing

  /** The buckets that overlap [from, to), in order. */
  function Slice(bs: seq<Bucket>, from: Instant, to: Instant): (r: seq<Bucket>)
    ensures forall b :: b in r <==> b in bs && b.to > from && b.from < to
  {
    if bs == [] then []
    else
      var b := bs[|bs| - 1];
      Slice(bs[..|bs| - 1], from, to) + (if b.to > from && b.from < to then [b] else [])
  }

  /** `sliceBuckets`. */
  method SliceBuckets(buckets: seq<Bucket>, from: Instant, to: Instant) returns (out: seq<Bucket>)
    ensures out == Slice(buckets, from, to)
  {
    out := [];
    for i := 0 to |buckets|
      invariant out == Slice(buckets[..i], from, to)
    {
      assert buckets[..i + 1][..i] == buckets[..i];
      var b := buckets[i];
      if b.to > from && b.from < to {
        out := out + [b];
      }
    }
    assert buckets[..|buckets|] == buckets;
  }

  lemma {:induction false} SliceKeepsSums(bs: seq<Bucket>, from: Instant, to: Instant, start: Instant, end: Instant)
    requires from <= start && end <= to
    ensures TotalWeight(Shares(Slice(bs, from, to), start, end)) == TotalWeight(Shares(bs, start, end))
    ensures WeightedSum(Shares(Slice(bs, from, to), start, end)) == WeightedSum(Shares(bs, start, end))
  {
    if bs != [] {
      var init, b := bs[..|bs| - 1], bs[|bs| - 1];
      SliceKeepsSums(init, from, to, start, end);
      assert bs == init + [b];
      SumsOfBuckets(init, b, start, end);
      if b.to > from && b.from < to {
        SumsOfBuckets(Slice(init, from, to), b, start, end);
      } else {
        assert Slice(bs, from, to) == Slice(init, from, to);
        assert ShareOf(b, start, end).weight == 0.0;
      }
    }
  }

  /** Slicing to a range loses nothing for any window inside that range. */
  lemma SliceKeepsScore(bs: seq<Bucket>, from: Instant, to: Instant, start: Instant, end: Instant)
    requires from <= start && end <= to
    ensures Score(Slice(bs, from, to), start, end) == Score(bs, start, end)
  {
    SliceKeepsSums(bs, from, to, start, end);
  }

  /** What a caller gets to use of a forecast: None when there is none or nothing overlaps. */
  function Usable(forecast: Option<seq<Bucket>>, from: Instant, to: Instant): (r: Option<seq<Bucket>>)
    ensures r.Some? ==> forecast.Some? && r.value == Slice(forecast.value, from, to)
  {
    if forecast.None? || Slice(forecast.value, from, to) == [] then None
    else Some(Slice(forecast.value, from, to))
  }
}
