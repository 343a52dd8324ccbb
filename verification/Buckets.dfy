/** The dashboard's bucketing loops: every bucket is the naive overlap mean of its own window, and
    the buckets of a weighted series add up to what each interval contributes inside the window. */
module Buckets {
  import opened Options
  import opened Extrema
  import opened StableSort
  import opened Concurrency

  /** The left edge of bucket `i`. */
  function Edge(t0: real, width: real, i: int): real {
    t0 + i as real * width
  }

  lemma EdgeStep(t0: real, width: real, i: int)
    ensures Edge(t0, width, i + 1) == Edge(t0, width, i) + width
  {
    assert (i as real + 1.0) * width == i as real * width + width;
  }

  lemma EdgeMonotone(t0: real, width: real, i: int, j: int)
    requires width > 0.0 && i <= j
    ensures Edge(t0, width, i) <= Edge(t0, width, j)
  {
    assert (j - i) as real * width >= 0.0;
    assert j as real * width == i as real * width + (j - i) as real * width;
  }

  /** Integer division of a real, rounded down. */
  function FloorDiv(x: real, width: real): int
    requires width > 0.0
  {
    (x / width).Floor
  }

  lemma ProductOrder(a: real, b: real, width: real)
    requires width > 0.0
    ensures a <= b ==> a * width <= b * width
    ensures a < b ==> a * width < b * width
  {
    assert (b - a) * width == b * width - a * width;
    if a < b {
      assert (b - a) * width > 0.0;
    }
  }

  /** `n` buckets of the given width. */
  function Wide(n: real, width: real): real { n * width }

  lemma FloorDivBucket(t0: real, width: real, s: real)
    requires width > 0.0 && s >= t0
    ensures var k := FloorDiv(s - t0, width); 0 <= k && Edge(t0, width, k) <= s < Edge(t0, width, k + 1)
  {
    var q := (s - t0) / width;
    var k := q.Floor;
    assert Wide(q, width) == s - t0 by { QuotientTimes(s - t0, width); }
    NotNegative(q, width);
    WideOrder(k as real, q, width);
    WideOrder(q, (k + 1) as real, width);
    assert Edge(t0, width, k) == t0 + Wide(k as real, width);
    assert Edge(t0, width, k + 1) == t0 + Wide((k + 1) as real, width);
    hide Edge, Wide;
  }

  lemma WideOrder(a: real, b: real, width: real)
    requires width > 0.0
    ensures a <= b ==> Wide(a, width) <= Wide(b, width)
    ensures a < b ==> Wide(a, width) < Wide(b, width)
  {
    ProductOrder(a, b, width);
  }

  lemma NotNegative(q: real, width: real)
    requires width > 0.0 && Wide(q, width) >= 0.0
    ensures q >= 0.0
  {
    ProductOrder(q, 0.0, width);
  }

  lemma QuotientTimes(x: real, width: real)
    requires width > 0.0
    ensures x / width * width == x
  {}

  /** What interval `iv` puts into bucket `i`, in seconds. */
  function InBucket(t0: real, width: real, i: int, iv: Span): real {
    Overlap(Edge(t0, width, i), Edge(t0, width, i + 1), iv)
  }

  /** Cuts an interval to the window of `n` buckets. */
  function Clip(t0: real, width: real, n: int, iv: Span): Span {
    Span(Max(iv.start, t0), Min(iv.end, Edge(t0, width, n)))
  }

  lemma ClipKeepsBuckets(t0: real, width: real, n: int, i: int, iv: Span)
    requires width > 0.0 && 0 <= i < n
    ensures InBucket(t0, width, i, Clip(t0, width, n, iv)) == InBucket(t0, width, i, iv)
  {
    EdgeMonotone(t0, width, 0, i);
    EdgeMonotone(t0, width, i + 1, n);
    EdgeStep(t0, width, i);
    hide Edge;
    assert Edge(t0, width, 0) == t0 by { EdgeZero(t0, width); }
  }

  lemma EdgeZero(t0: real, width: real)
    ensures Edge(t0, width, 0) == t0
  {}

  lemma OutsideBucket(t0: real, width: real, i: int, j: int, iv: Span)
    requires width > 0.0
    ensures i < j && iv.start >= Edge(t0, width, j) ==> InBucket(t0, width, i, iv) == 0.0
    ensures j <= i && iv.end <= Edge(t0, width, j) ==> InBucket(t0, width, i, iv) == 0.0
    ensures iv.end <= iv.start ==> InBucket(t0, width, i, iv) == 0.0
  {
    EdgeStep(t0, width, i);
    if i < j {
      EdgeMonotone(t0, width, i + 1, j);
    } else {
      EdgeMonotone(t0, width, j, i);
    }
    hide Edge;
  }

  /** What `seconds` at `rate` are worth. */
  function Credit(rate: real, seconds: real): real { rate * seconds }

  lemma CreditFacts(rate: real, a: real, b: real)
    ensures Credit(rate, a + b) == Credit(rate, a) + Credit(rate, b)
    ensures Credit(rate, 0.0) == 0.0 && Credit(1.0, a) == a
  {}

  /** Once a bucket behind the first one gets nothing, no later bucket gets anything. */
  lemma NothingLater(t0: real, width: real, first: int, bi: int, s: real, e: real)
    requires width > 0.0 && s < e && first <= bi && s < Edge(t0, width, first + 1)
    requires Min(e, Edge(t0, width, bi) + width) - Max(s, Edge(t0, width, bi)) <= 0.0
    ensures forall i :: bi <= i ==> InBucket(t0, width, i, Span(s, e)) == 0.0
  {
    EdgeStep(t0, width, bi);
    EdgeMonotone(t0, width, first + 1, bi + 1);
    forall i | bi <= i ensures InBucket(t0, width, i, Span(s, e)) == 0.0 {
      OutsideBucket(t0, width, i, bi, Span(s, e));
    }
    hide Edge;
  }

  /** Adds `rate` for every second that `[s, e)` spends in each bucket, from the bucket of `s` on. */
  method Spread(secs: array<real>, t0: real, width: real, s: real, e: real, rate: real)
    requires width > 0.0 && t0 <= s < e
    modifies secs
    ensures forall i :: 0 <= i < secs.Length ==>
              secs[i] == old(secs[i]) + Credit(rate, InBucket(t0, width, i, Span(s, e)))
  {
    var n, bi := secs.Length, FloorDiv(s - t0, width);
    ghost var first, iv := bi, Span(s, e);
    FloorDivBucket(t0, width, s);
    CreditFacts(rate, 0.0, 0.0);
    forall i | i < first ensures InBucket(t0, width, i, iv) == 0.0 {
      OutsideBucket(t0, width, i, first, iv);
    }
    hide Edge, Credit, FloorDiv;
    while bi < n
      invariant 0 <= first <= bi
      invariant forall i :: 0 <= i < n ==>
                  secs[i] == old(secs[i]) + if i < bi then Credit(rate, InBucket(t0, width, i, iv)) else 0.0
      decreases n - bi
    {
      var bs := Edge(t0, width, bi);
      var ov := Min(e, bs + width) - Max(s, bs);
      if ov <= 0.0 {
        NothingLater(t0, width, first, bi, s, e);
        break;
      }
      EdgeStep(t0, width, bi);
      secs[bi] := secs[bi] + Credit(rate, ov);
      bi := bi + 1;
    }
  }

  /** Sum over the intervals, each at its own rate, of what falls into `[a, b]`. */
  function Share(a: real, b: real, ws: seq<Weighted>): real {
    if |ws| == 0 then 0.0 else Share(a, b, ws[..|ws| - 1]) + ws[|ws| - 1].In(a, b)
  }

  /** An interval with the quantity produced uniformly over it, if known. */
  datatype Weighted = Weighted(start: real, end: real, total: Option<real>) {
    predicate Skipped() {
      total.None? || total.value == 0.0 || end <= start
    }

    function Rate(): real
      requires !Skipped()
    {
      total.value / (end - start)
    }

    /** The part of the quantity that falls into `[a, b]`. */
    function In(a: real, b: real): real {
      if Skipped() then 0.0 else Credit(Rate(), Overlap(a, b, Span(start, end)))
    }
  }

  lemma SameWindow(t0: real, width: real, n: nat, iv: Span, i: int)
    requires width > 0.0 && 0 <= i < n
    ensures Clip(t0, width, n, iv).end <= Clip(t0, width, n, iv).start ==> InBucket(t0, width, i, iv) == 0.0
    ensures InBucket(t0, width, i, Clip(t0, width, n, iv)) == InBucket(t0, width, i, iv)
  {
    ClipKeepsBuckets(t0, width, n, i, iv);
    OutsideBucket(t0, width, i, i, Clip(t0, width, n, iv));
  }

  lemma TotalStep(a: real, b: real, ivs: seq<Span>, j: nat)
    requires j < |ivs|
    ensures TotalOverlap(a, b, ivs[..j + 1]) == TotalOverlap(a, b, ivs[..j]) + Overlap(a, b, ivs[j])
  {
    assert ivs[..j + 1][..j] == ivs[..j];
  }

  /** Each bucket's value is the mean concurrency over exactly that bucket. */
  method BucketConcurrency(ivs: seq<Span>, t0: real, width: real, n: nat) returns (r: seq<real>)
    requires width > 0.0
    ensures |r| == n
    ensures forall i :: 0 <= i < n ==> r[i] == MeanOverlap(Edge(t0, width, i), Edge(t0, width, i + 1), ivs)
  {
    var secs := new real[n](_ => 0.0);
    for j := 0 to |ivs|
      invariant forall i :: 0 <= i < n ==> secs[i] == TotalOverlap(Edge(t0, width, i), Edge(t0, width, i + 1), ivs[..j])
    {
      var iv := Clip(t0, width, n, ivs[j]);
      forall i | 0 <= i < n
        ensures iv.end <= iv.start ==> InBucket(t0, width, i, ivs[j]) == 0.0
        ensures Credit(1.0, InBucket(t0, width, i, iv)) == InBucket(t0, width, i, ivs[j])
        ensures TotalOverlap(Edge(t0, width, i), Edge(t0, width, i + 1), ivs[..j + 1]) ==
                TotalOverlap(Edge(t0, width, i), Edge(t0, width, i + 1), ivs[..j]) + InBucket(t0, width, i, ivs[j])
      {
        SameWindow(t0, width, n, ivs[j], i);
        CreditFacts(1.0, InBucket(t0, width, i, iv), 0.0);
        TotalStep(Edge(t0, width, i), Edge(t0, width, i + 1), ivs, j);
      }
      hide Edge, Credit, TotalOverlap, InBucket;
      if iv.end > iv.start {
        Spread(secs, t0, width, iv.start, iv.end, 1.0);
      }
    }
    assert ivs[..|ivs|] == ivs;
    r := seq(n, i requires 0 <= i < n reads secs => secs[i] / width);
    forall i | 0 <= i < n ensures r[i] == MeanOverlap(Edge(t0, width, i), Edge(t0, width, i + 1), ivs) {
      EdgeStep(t0, width, i);
    }
  }

  lemma ShareStep(a: real, b: real, ws: seq<Weighted>, j: nat)
    requires j < |ws|
    ensures Share(a, b, ws[..j + 1]) == Share(a, b, ws[..j]) + ws[j].In(a, b)
  {
    assert ws[..j + 1][..j] == ws[..j];
  }

  /** The share of a clipped interval in a bucket is that of the whole interval. */
  lemma SameShare(t0: real, width: real, n: nat, w: Weighted, i: int)
    requires width > 0.0 && 0 <= i < n && !w.Skipped()
    ensures var iv := Clip(t0, width, n, Span(w.start, w.end));
            && (iv.end <= iv.start ==> w.In(Edge(t0, width, i), Edge(t0, width, i + 1)) == 0.0)
            && Credit(w.Rate(), InBucket(t0, width, i, iv)) == w.In(Edge(t0, width, i), Edge(t0, width, i + 1))
  {
    SameWindow(t0, width, n, Span(w.start, w.end), i);
    CreditFacts(w.Rate(), 0.0, 0.0);
    hide Edge, Credit;
  }

  /** Each bucket holds its share of every interval's quantity, as an average rate. */
  method BucketWeighted(ws: seq<Weighted>, t0: real, width: real, n: nat) returns (r: seq<real>)
    requires width > 0.0
    ensures |r| == n
    ensures forall i :: 0 <= i < n ==> r[i] == Share(Edge(t0, width, i), Edge(t0, width, i + 1), ws) / width
  {
    var secs := new real[n](_ => 0.0);
    var span := t0 + n as real * width;
    for j := 0 to |ws|
      invariant forall i :: 0 <= i < n ==> secs[i] == Share(Edge(t0, width, i), Edge(t0, width, i + 1), ws[..j])
    {
      forall i | 0 <= i < n
        ensures Share(Edge(t0, width, i), Edge(t0, width, i + 1), ws[..j + 1]) ==
                Share(Edge(t0, width, i), Edge(t0, width, i + 1), ws[..j])
                    + ws[j].In(Edge(t0, width, i), Edge(t0, width, i + 1))
      {
        ShareStep(Edge(t0, width, i), Edge(t0, width, i + 1), ws, j);
      }
      if ws[j].Skipped() {
        continue;
      }
      forall i | 0 <= i < n
        ensures var iv := Clip(t0, width, n, Span(ws[j].start, ws[j].end));
                && (iv.end <= iv.start ==> ws[j].In(Edge(t0, width, i), Edge(t0, width, i + 1)) == 0.0)
                && Credit(ws[j].Rate(), InBucket(t0, width, i, iv)) ==
                    ws[j].In(Edge(t0, width, i), Edge(t0, width, i + 1))
      {
        SameShare(t0, width, n, ws[j], i);
      }
      var s, e := Max(ws[j].start, t0), Min(ws[j].end, span);
      hide Edge, Credit, Share, InBucket, Weighted.In;
      if e > s {
        Spread(secs, t0, width, s, e, ws[j].Rate());
      }
    }
    assert ws[..|ws|] == ws;
    r := seq(n, i requires 0 <= i < n reads secs => secs[i] / width);
  }

  // ---- conservation ----

  /** The integral of a bucketed series: its values times the bucket width. */
  function Integral(r: seq<real>, width: real): real {
    if |r| == 0 then 0.0 else Integral(r[..|r| - 1], width) + Credit(r[|r| - 1], width)
  }

  lemma OverlapSplits(a: real, b: real, c: real, iv: Span)
    requires a <= b <= c
    ensures iv.end > iv.start ==> Overlap(a, c, iv) == Overlap(a, b, iv) + Overlap(b, c, iv)
    ensures iv.start <= iv.end ==> Overlap(a, a, iv) == 0.0
  {}

  lemma {:induction false} ShareSplits(a: real, b: real, c: real, ws: seq<Weighted>)
    requires a <= b <= c
    ensures Share(a, c, ws) == Share(a, b, ws) + Share(b, c, ws)
    ensures Share(a, a, ws) == 0.0
  {
    if |ws| > 0 {
      ShareSplits(a, b, c, ws[..|ws| - 1]);
      var w := ws[|ws| - 1];
      OverlapSplits(a, b, c, Span(w.start, w.end));
      if !w.Skipped() {
        CreditFacts(w.Rate(), Overlap(a, b, Span(w.start, w.end)), Overlap(b, c, Span(w.start, w.end)));
      }
    }
    hide Credit, Overlap;
  }

  lemma Quotient(x: real, width: real)
    requires width > 0.0
    ensures Credit(x / width, width) == x
  {}

  /** Bucketing conserves: the buckets of any series add up to every interval's share of the window. */
  lemma {:induction false} BucketsConserve(ws: seq<Weighted>, t0: real, width: real, r: seq<real>)
    requires width > 0.0
    requires forall i :: 0 <= i < |r| ==> r[i] == Share(Edge(t0, width, i), Edge(t0, width, i + 1), ws) / width
    ensures Integral(r, width) == Share(t0, Edge(t0, width, |r|), ws)
  {
    EdgeZero(t0, width);
    var n := |r|;
    if n == 0 {
      ShareSplits(t0, t0, t0, ws);
    } else {
      BucketsConserve(ws, t0, width, r[..n - 1]);
      EdgeMonotone(t0, width, 0, n - 1);
      EdgeMonotone(t0, width, n - 1, n);
      ShareSplits(t0, Edge(t0, width, n - 1), Edge(t0, width, n), ws);
      Quotient(Share(Edge(t0, width, n - 1), Edge(t0, width, n), ws), width);
    }
    hide Credit, Share, Edge;
  }

  /** An interval that lies inside the window contributes its whole quantity, if it is known. */
  lemma WholeShare(w: Weighted, a: real, b: real)
    requires a <= w.start < w.end <= b
    ensures w.In(a, b) == if w.total.Some? then w.total.value else 0.0
  {}

  /** In any window a quantity is shared out in proportion to the time; one that is unknown, and one
      without a duration, contributes nothing. */
  lemma ProportionalShare(w: Weighted, a: real, b: real)
    ensures w.start < w.end && w.total.Some? ==>
              w.In(a, b) * (w.end - w.start) == w.total.value * Overlap(a, b, Span(w.start, w.end))
    ensures w.end <= w.start || w.total.None? ==> w.In(a, b) == 0.0
  {
    if w.start < w.end && w.total.Some? && w.total.value != 0.0 {
      Proportion(w.total.value, w.end - w.start, Overlap(a, b, Span(w.start, w.end)));
    }
  }

  lemma Proportion(total: real, seconds: real, part: real)
    requires seconds > 0.0
    ensures Credit(total / seconds, part) * seconds == total * part
  {
    assert total / seconds * seconds == total;
    assert total / seconds * part * seconds == total / seconds * seconds * part;
  }

  // ---- the two series agree ----

  function AsWeighted(ivs: seq<Span>): seq<Weighted> {
    seq(|ivs|, i requires 0 <= i < |ivs| => Weighted(ivs[i].start, ivs[i].end, Some(ivs[i].end - ivs[i].start)))
  }

  lemma UnitRate(iv: Span, a: real, b: real)
    requires a <= b
    ensures Weighted(iv.start, iv.end, Some(iv.end - iv.start)).In(a, b) == Overlap(a, b, iv)
  {
    if iv.end > iv.start {
      assert (iv.end - iv.start) / (iv.end - iv.start) == 1.0;
    }
  }

  /** When every quantity is its own duration, the weighted series is mean concurrency. */
  lemma {:induction false} DurationShareIsOverlap(ivs: seq<Span>, a: real, b: real)
    requires a <= b
    ensures Share(a, b, AsWeighted(ivs)) == TotalOverlap(a, b, ivs)
  {
    if |ivs| > 0 {
      var n := |ivs| - 1;
      DurationShareIsOverlap(ivs[..n], a, b);
      assert AsWeighted(ivs)[..n] == AsWeighted(ivs[..n]);
      UnitRate(ivs[n], a, b);
    }
  }

  // ---- per-model series, top-N and the rest ----

  /** A completed call's service window and token count, with the model it ran on. */
  datatype Tagged = Tagged(model: string, w: Weighted)

  function OfModel(m: string): Tagged -> bool {
    (t: Tagged) => t.model == m
  }

  function Windows(ts: seq<Tagged>): seq<Weighted> {
    seq(|ts|, i requires 0 <= i < |ts| => ts[i].w)
  }

  /** The grouping loop of the timeline: each model's windows in event order. */
  method GroupByModel(ts: seq<Tagged>) returns (groups: map<string, seq<Weighted>>, all: seq<Weighted>)
    ensures all == Windows(ts)
    ensures forall m :: m in groups <==> exists t :: t in ts && t.model == m
    ensures forall m :: m in groups ==> groups[m] == Windows(Filter(ts, OfModel(m)))
  {
    groups, all := map[], [];
    GroupNone(ts);
    hide Filter, Windows;
    for i := 0 to |ts|
      invariant all == Windows(ts[..i])
      invariant forall m :: m in groups <==> exists t :: t in ts[..i] && t.model == m
      invariant forall m :: m in groups ==> groups[m] == Windows(Filter(ts[..i], OfModel(m)))
      invariant forall m :: m !in groups ==> Filter(ts[..i], OfModel(m)) == []
    {
      var t := ts[i];
      GroupStep(ts, i);
      var before := if t.model in groups then groups[t.model] else [];
      groups := groups[t.model := before + [t.w]];
      all := all + [t.w];
    }
    assert ts[..|ts|] == ts;
  }

  lemma GroupNone(ts: seq<Tagged>)
    ensures Windows(ts[..0]) == [] && forall m :: Filter(ts[..0], OfModel(m)) == []
  {}

  lemma GroupStep(ts: seq<Tagged>, i: nat)
    requires i < |ts|
    ensures forall m :: Windows(Filter(ts[..i + 1], OfModel(m))) ==
              Windows(Filter(ts[..i], OfModel(m))) + if ts[i].model == m then [ts[i].w] else []
    ensures forall m :: m != ts[i].model ==> Filter(ts[..i + 1], OfModel(m)) == Filter(ts[..i], OfModel(m))
    ensures Windows(ts[..i + 1]) == Windows(ts[..i]) + [ts[i].w]
    ensures forall t :: t in ts[..i + 1] <==> t in ts[..i] || t == ts[i]
  {
    assert ts[..i + 1] == ts[..i] + [ts[i]];
    forall m
      ensures Filter(ts[..i + 1], OfModel(m)) == Filter(ts[..i], OfModel(m)) + if ts[i].model == m then [ts[i]] else []
    {
      FilterAppend(ts[..i], [ts[i]], OfModel(m));
    }
  }

  /** The shares of a list of models, one series each. */
  function SeriesSum(a: real, b: real, ts: seq<Tagged>, models: seq<string>): real {
    if |models| == 0 then 0.0
    else Share(a, b, Windows(Filter(ts, OfModel(models[0])))) + SeriesSum(a, b, ts, models[1..])
  }

  /** The windows of a list of models, put into one list. */
  function Together(ts: seq<Tagged>, models: seq<string>): seq<Weighted> {
    if |models| == 0 then [] else Windows(Filter(ts, OfModel(models[0]))) + Together(ts, models[1..])
  }

  lemma {:induction false} ShareAppend(a: real, b: real, x: seq<Weighted>, y: seq<Weighted>)
    ensures Share(a, b, x + y) == Share(a, b, x) + Share(a, b, y)
  {
    if |y| == 0 {
      assert x + y == x;
    } else {
      var init := y[..|y| - 1];
      ShareAppend(a, b, x, init);
      assert (x + y)[..|x + y| - 1] == x + init;
    }
  }

  lemma {:induction false} TogetherShare(a: real, b: real, ts: seq<Tagged>, models: seq<string>)
    ensures Share(a, b, Together(ts, models)) == SeriesSum(a, b, ts, models)
  {
    if |models| > 0 {
      TogetherShare(a, b, ts, models[1..]);
      ShareAppend(a, b, Windows(Filter(ts, OfModel(models[0]))), Together(ts, models[1..]));
    }
  }

  lemma {:induction false} SeriesOfOneMore(a: real, b: real, ts: seq<Tagged>, t: Tagged, models: seq<string>)
    requires NoDup(models)
    ensures SeriesSum(a, b, ts + [t], models) ==
            SeriesSum(a, b, ts, models) + if t.model in models then t.w.In(a, b) else 0.0
  {
    if |models| > 0 {
      SeriesOfOneMore(a, b, ts, t, models[1..]);
      var m := models[0];
      FilterAppend(ts, [t], OfModel(m));
      var old' := Windows(Filter(ts, OfModel(m)));
      if t.model == m {
        assert Windows(Filter(ts + [t], OfModel(m))) == old' + [t.w];
        assert (old' + [t.w])[..|old'|] == old';
        assert m !in models[1..];
      } else {
        assert Filter(ts + [t], OfModel(m)) == Filter(ts, OfModel(m));
      }
    }
  }

  predicate Covers(models: seq<string>, ts: seq<Tagged>) {
    forall i :: 0 <= i < |ts| ==> ts[i].model in models
  }

  lemma WindowsOfOneMore(a: real, b: real, ts: seq<Tagged>, t: Tagged)
    ensures Share(a, b, Windows(ts + [t])) == Share(a, b, Windows(ts)) + t.w.In(a, b)
  {
    assert Windows(ts + [t]) == Windows(ts) + [t.w];
    assert (Windows(ts) + [t.w])[..|ts|] == Windows(ts);
  }

  lemma {:induction false} SeriesCoverTotal(a: real, b: real, ts: seq<Tagged>, models: seq<string>)
    requires NoDup(models) && Covers(models, ts)
    ensures SeriesSum(a, b, ts, models) == Share(a, b, Windows(ts))
  {
    if |ts| == 0 {
      SeriesOfNone(a, b, models);
    } else {
      var init, t := ts[..|ts| - 1], ts[|ts| - 1];
      assert Covers(models, init) && t.model in models && ts == init + [t];
      hide SeriesSum, NoDup, Covers, Share, Windows, Weighted.In;
      SeriesCoverTotal(a, b, init, models);
      SeriesOfOneMore(a, b, init, t, models);
      WindowsOfOneMore(a, b, init, t);
    }
  }

  lemma {:induction false} SeriesOfNone(a: real, b: real, models: seq<string>)
    ensures SeriesSum(a, b, [], models) == 0.0
  {
    if |models| > 0 {
      SeriesOfNone(a, b, models[1..]);
    }
  }

  lemma {:induction false} SeriesSplit(a: real, b: real, ts: seq<Tagged>, x: seq<string>, y: seq<string>)
    ensures SeriesSum(a, b, ts, x + y) == SeriesSum(a, b, ts, x) + SeriesSum(a, b, ts, y)
  {
    if |x| == 0 {
      assert x + y == y;
    } else {
      SeriesSplit(a, b, ts, x[1..], y);
      assert (x + y)[1..] == x[1..] + y;
    }
  }

  /** Whatever the ranking and wherever it is cut, in every window the top series and the series of
      the rest add up to the total series. */
  lemma TopAndOtherAreTotal(a: real, b: real, ts: seq<Tagged>, ranked: seq<string>, top: nat)
    requires NoDup(ranked) && top <= |ranked| && Covers(ranked, ts)
    ensures SeriesSum(a, b, ts, ranked[..top]) + Share(a, b, Together(ts, ranked[top..])) == Share(a, b, Windows(ts))
  {
    SeriesCoverTotal(a, b, ts, ranked);
    SeriesSplit(a, b, ts, ranked[..top], ranked[top..]);
    assert ranked[..top] + ranked[top..] == ranked;
    TogetherShare(a, b, ts, ranked[top..]);
  }

  // ---- offered and active ----

  /** A request's timestamps; `acquired` is `None` when it never got a slot. */
  datatype Call = Call(enqueued: real, acquired: Option<real>, done: real)

  function Offered(cs: seq<Call>): seq<Span> {
    if |cs| == 0 then [] else Offered(cs[..|cs| - 1]) + [Span(cs[|cs| - 1].enqueued, cs[|cs| - 1].done)]
  }

  function ActiveSpans(cs: seq<Call>): seq<Span> {
    if |cs| == 0 then []
    else
      var c := cs[|cs| - 1];
      ActiveSpans(cs[..|cs| - 1]) + if c.acquired.Some? then [Span(c.acquired.value, c.done)] else []
  }

  /** The offered curve is drawn from every call, from its arrival to its end; the active one from the
      calls that had a slot, from then on. */
  lemma {:induction false} SpansOfCalls(cs: seq<Call>, iv: Span)
    ensures iv in Offered(cs) <==> exists c :: c in cs && c.enqueued == iv.start && c.done == iv.end
    ensures iv in ActiveSpans(cs) <==> exists c :: c in cs && c.acquired == Some(iv.start) && c.done == iv.end
    ensures |Offered(cs)| == |cs|
  {
    if |cs| > 0 {
      var init, last := cs[..|cs| - 1], cs[|cs| - 1];
      SpansOfCalls(init, iv);
      assert forall c :: c in cs <==> c in init || c == last;
    }
  }

  lemma TotalOfOneMore(a: real, b: real, ivs: seq<Span>, iv: Span)
    ensures TotalOverlap(a, b, ivs + [iv]) == TotalOverlap(a, b, ivs) + Overlap(a, b, iv)
  {}

  /** In every window the active curve stays below the offered one. */
  lemma {:induction false} ActiveBelowOffered(cs: seq<Call>, a: real, b: real)
    requires a <= b
    requires forall c :: c in cs && c.acquired.Some? ==> c.enqueued <= c.acquired.value
    ensures TotalOverlap(a, b, ActiveSpans(cs)) <= TotalOverlap(a, b, Offered(cs))
  {
    if |cs| > 0 {
      var init, c := cs[..|cs| - 1], cs[|cs| - 1];
      assert c in cs;
      ActiveBelowOffered(init, a, b);
      var whole := Span(c.enqueued, c.done);
      TotalOfOneMore(a, b, Offered(init), whole);
      if c.acquired.Some? {
        TotalOfOneMore(a, b, ActiveSpans(init), Span(c.acquired.value, c.done));
        assert Overlap(a, b, Span(c.acquired.value, c.done)) <= Overlap(a, b, whole);
      } else {
        assert ActiveSpans(cs) == ActiveSpans(init);
        assert Overlap(a, b, whole) >= 0.0;
      }
    }
  }
}
