/** Time-weighted concurrency: the naive overlap sum, the sweep line with prefix integrals that
    replaces it, and the proof that the two agree for every interval set and every window. */
module Concurrency {
  import opened Extrema
  import opened StableSort

  datatype Span = Span(start: real, end: real)

  // ---- the naive sum ----

  /** How long `iv` is inside `[a, b]`. */
  function Overlap(a: real, b: real, iv: Span): real {
    Max(0.0, Min(b, iv.end) - Max(a, iv.start))
  }

  function TotalOverlap(a: real, b: real, ivs: seq<Span>): real {
    if |ivs| == 0 then 0.0
    else TotalOverlap(a, b, ivs[..|ivs| - 1]) + Overlap(a, b, ivs[|ivs| - 1])
  }

  function MeanOverlap(a: real, b: real, ivs: seq<Span>): real {
    if b <= a then 0.0 else TotalOverlap(a, b, ivs) / (b - a)
  }

  method MeanConcurrency(a: real, b: real, ivs: seq<Span>) returns (mean: real)
    ensures mean == MeanOverlap(a, b, ivs)
  {
    if b <= a {
      return 0.0;
    }
    var tot := 0.0;
    for i := 0 to |ivs|
      invariant tot == TotalOverlap(a, b, ivs[..i])
    {
      var ov := Min(b, ivs[i].end) - Max(a, ivs[i].start);
      if ov > 0.0 {
        tot := tot + ov;
      }
      assert ivs[..i + 1][..i] == ivs[..i];
    }
    assert ivs[..|ivs|] == ivs;
    mean := tot / (b - a);
  }

  // ---- the step function and its integral ----

  /** A breakpoint: `delta` intervals open (or close) at time `t`. */
  datatype Point = Point(t: real, delta: int)

  function PointsOf(iv: Span): seq<Point> {
    if iv.end > iv.start then [Point(iv.start, 1), Point(iv.end, -1)] else []
  }

  function Points(ivs: seq<Span>): seq<Point> {
    if |ivs| == 0 then [] else Points(ivs[..|ivs| - 1]) + PointsOf(ivs[|ivs| - 1])
  }

  /** The step function at `x`: the sum of all deltas up to and including `x`. */
  function Level(pts: seq<Point>, x: real): int {
    if |pts| == 0 then 0 else (if pts[0].t <= x then pts[0].delta else 0) + Level(pts[1..], x)
  }

  /** The integral of the step function up to `x`. */
  function Area(pts: seq<Point>, x: real): real {
    if |pts| == 0 then 0.0 else Block(pts[0].delta, Max(0.0, x - pts[0].t)) + Area(pts[1..], x)
  }

  function Active(ivs: seq<Span>, x: real): nat {
    if |ivs| == 0 then 0
    else Active(ivs[..|ivs| - 1], x) + if ivs[|ivs| - 1].start <= x < ivs[|ivs| - 1].end then 1 else 0
  }

  lemma {:induction false} AppendPoints(p: seq<Point>, q: seq<Point>, x: real)
    ensures Area(p + q, x) == Area(p, x) + Area(q, x)
    ensures Level(p + q, x) == Level(p, x) + Level(q, x)
  {
    if |p| == 0 {
      assert p + q == q;
    } else {
      AppendPoints(p[1..], q, x);
      assert (p + q)[1..] == p[1..] + q;
    }
  }

  lemma PointsOfOne(iv: Span, x: real)
    ensures Level(PointsOf(iv), x) == if iv.start <= x < iv.end then 1 else 0
    ensures Area(PointsOf(iv), x) == if iv.end > iv.start then Max(0.0, x - iv.start) - Max(0.0, x - iv.end) else 0.0
  {
    var ps := PointsOf(iv);
    if |ps| > 0 {
      var last := [Point(iv.end, -1)];
      assert ps[1..] == last && last[1..] == [];
      assert Level(last, x) == if iv.end <= x then -1 else 0;
      assert Area(last, x) == Block(-1, Max(0.0, x - iv.end)) == -Max(0.0, x - iv.end);
      assert Block(1, Max(0.0, x - iv.start)) == Max(0.0, x - iv.start);
    }
  }

  /** The step function counts the intervals that are open at `x`. */
  lemma {:induction false} LevelIsActive(ivs: seq<Span>, x: real)
    ensures Level(Points(ivs), x) == Active(ivs, x)
  {
    if |ivs| > 0 {
      LevelIsActive(ivs[..|ivs| - 1], x);
      AppendPoints(Points(ivs[..|ivs| - 1]), PointsOf(ivs[|ivs| - 1]), x);
      PointsOfOne(ivs[|ivs| - 1], x);
    }
  }

  /** The total overlap with a window is the growth of the integral across it. */
  lemma {:induction false} AreaIsOverlap(ivs: seq<Span>, a: real, b: real)
    requires a <= b
    ensures Area(Points(ivs), b) - Area(Points(ivs), a) == TotalOverlap(a, b, ivs)
  {
    if |ivs| > 0 {
      var rest, iv := ivs[..|ivs| - 1], ivs[|ivs| - 1];
      AreaIsOverlap(rest, a, b);
      AppendPoints(Points(rest), PointsOf(iv), a);
      AppendPoints(Points(rest), PointsOf(iv), b);
      PointsOfOne(iv, a);
      PointsOfOne(iv, b);
    }
  }

  // ---- sorting does not matter ----

  function PointKey(): Point -> Key {
    (p: Point) => (p.t, p.delta as real)
  }

  lemma {:induction false} InsertPoint(p: Point, pts: seq<Point>, x: real)
    ensures Area(Insert(p, pts, PointKey()), x) == Area([p] + pts, x)
    ensures Level(Insert(p, pts, PointKey()), x) == Level([p] + pts, x)
  {
    assert ([p] + pts)[1..] == pts;
    if |pts| > 0 && !LexLe(PointKey()(p), PointKey()(pts[0])) {
      InsertPoint(p, pts[1..], x);
      assert ([p] + pts[1..])[1..] == pts[1..];
      var rest := Insert(p, pts[1..], PointKey());
      assert ([pts[0]] + rest)[1..] == rest;
    }
  }

  lemma {:induction false} SortPoints(pts: seq<Point>, x: real)
    ensures Area(Sort(pts, PointKey()), x) == Area(pts, x)
    ensures Level(Sort(pts, PointKey()), x) == Level(pts, x)
  {
    if |pts| > 0 {
      SortPoints(pts[1..], x);
      var tail := Sort(pts[1..], PointKey());
      InsertPoint(pts[0], tail, x);
      assert ([pts[0]] + tail)[1..] == tail;
    }
  }

  // ---- the integral is linear between breakpoints ----

  /** The area under `level` for `width` seconds. */
  function Block(level: int, width: real): real {
    level as real * width
  }

  lemma BlockFacts(a: int, b: int, u: real, v: real)
    ensures Block(a, u + v) == Block(a, u) + Block(a, v)
    ensures Block(a + b, v) == Block(a, v) + Block(b, v)
    ensures Block(0, v) == 0.0 && Block(a, 0.0) == 0.0
    ensures a <= b && v >= 0.0 ==> Block(a, v) <= Block(b, v)
  {
    if a <= b && v >= 0.0 {
      assert (b - a) as real * v >= 0.0;
    }
  }

  lemma {:induction false} AreaLinear(pts: seq<Point>, u: real, v: real)
    requires u <= v
    requires forall p :: p in pts ==> p.t <= u || p.t >= v
    ensures Area(pts, v) == Area(pts, u) + Block(Level(pts, u), v - u)
  {
    if |pts| > 0 {
      var p, rest := pts[0], pts[1..];
      assert forall q :: q in rest ==> q in pts;
      AreaLinear(rest, u, v);
      BlockFacts(p.delta, Level(rest, u), u - p.t, v - u);
    }
    BlockFacts(0, 0, 0.0, v - u);
    hide Block;
  }

  lemma {:induction false} BeforeAll(pts: seq<Point>, x: real)
    requires forall p :: p in pts ==> p.t >= x
    ensures Area(pts, x) == 0.0
  {
    if |pts| > 0 {
      BeforeAll(pts[1..], x);
    }
  }

  lemma {:induction false} AllClosed(ivs: seq<Span>, x: real)
    requires forall p :: p in Points(ivs) ==> p.t <= x
    ensures Level(Points(ivs), x) == 0
  {
    if |ivs| > 0 {
      var rest, iv := ivs[..|ivs| - 1], ivs[|ivs| - 1];
      assert forall p :: p in Points(rest) ==> p in Points(ivs);
      AllClosed(rest, x);
      AppendPoints(Points(rest), PointsOf(iv), x);
      PointsOfOne(iv, x);
      if iv.end > iv.start {
        assert PointsOf(iv)[1] in Points(ivs);
      }
    }
  }

  // ---- how many at most ----

  function Inside(pts: seq<Point>, a: real, b: real): nat {
    if |pts| == 0 then 0 else (if a < pts[0].t < b then 1 else 0) + Inside(pts[1..], a, b)
  }

  lemma {:induction false} InsideShrinks(pts: seq<Point>, a: real, b: real, t: real)
    requires a < t < b
    ensures Inside(pts, a, t) <= Inside(pts, a, b) && Inside(pts, t, b) <= Inside(pts, a, b)
    ensures (exists p :: p in pts && p.t == t) ==>
            Inside(pts, a, t) < Inside(pts, a, b) && Inside(pts, t, b) < Inside(pts, a, b)
  {
    if |pts| > 0 {
      InsideShrinks(pts[1..], a, b, t);
      assert pts == [pts[0]] + pts[1..];
    }
  }

  /** If the step function never exceeds `c`, its integral grows at rate `c` at most. */
  lemma {:induction false} AreaAtMost(pts: seq<Point>, a: real, b: real, c: int)
    requires a <= b
    requires forall x :: Level(pts, x) <= c
    ensures Area(pts, b) - Area(pts, a) <= Block(c, b - a)
    decreases Inside(pts, a, b)
  {
    hide Block, Area;
    if exists p :: p in pts && a < p.t < b {
      var p :| p in pts && a < p.t < b;
      InsideShrinks(pts, a, b, p.t);
      AreaAtMost(pts, a, p.t, c);
      AreaAtMost(pts, p.t, b, c);
      BlockFacts(c, c, p.t - a, b - p.t);
      assert p.t - a + (b - p.t) == b - a;
    } else {
      AreaLinear(pts, a, b);
      BlockFacts(Level(pts, a), c, 0.0, b - a);
    }
  }

  lemma AtMost(total: real, c: nat, width: real)
    requires width > 0.0 && total <= Block(c, width)
    ensures total / width <= c as real
  {
    assert total / width * width == total;
  }

  /** Intervals that overlap at most `c`-fold at every instant have a mean concurrency of at most `c`. */
  lemma MeanAtMost(ivs: seq<Span>, a: real, b: real, c: nat)
    requires forall x :: Active(ivs, x) <= c
    ensures MeanOverlap(a, b, ivs) <= c as real
  {
    if a < b {
      forall x ensures Level(Points(ivs), x) <= c {
        LevelIsActive(ivs, x);
      }
      hide Level, Area, Points, Active, TotalOverlap, Block;
      AreaAtMost(Points(ivs), a, b, c);
      AreaIsOverlap(ivs, a, b);
      AtMost(TotalOverlap(a, b, ivs), c, b - a);
    }
  }

  /** Over a window that every interval spans, the mean concurrency is their number; an empty window has none. */
  lemma {:induction false} MeanOfSpanning(ivs: seq<Span>, a: real, b: real)
    requires forall i :: 0 <= i < |ivs| ==> ivs[i].start <= a && b <= ivs[i].end
    ensures MeanOverlap(a, b, ivs) == if a < b then |ivs| as real else 0.0
  {
    if a < b {
      OverlapOfSpanning(ivs, a, b);
      TimesOver(|ivs| as real, b - a);
    }
  }

  lemma TimesOver(n: real, width: real)
    requires width > 0.0
    ensures n * width / width == n
  {}

  lemma {:induction false} OverlapOfSpanning(ivs: seq<Span>, a: real, b: real)
    requires a < b && forall i :: 0 <= i < |ivs| ==> ivs[i].start <= a && b <= ivs[i].end
    ensures TotalOverlap(a, b, ivs) == |ivs| as real * (b - a)
  {
    if |ivs| > 0 {
      var n := |ivs| - 1;
      OverlapOfSpanning(ivs[..n], a, b);
      assert (n + 1) as real * (b - a) == n as real * (b - a) + (b - a);
    }
  }

  // ---- the sweep line ----

  predicate Increasing(xs: seq<real>) {
    forall i, j :: 0 <= i < j < |xs| ==> xs[i] < xs[j]
  }

  /** The number of leading elements that are not greater than `x`. */
  function BisectRight(xs: seq<real>, x: real, lo: nat, hi: nat): (k: nat)
    requires lo <= hi <= |xs|
    requires Increasing(xs)
    requires forall i :: 0 <= i < lo ==> xs[i] <= x
    requires forall i :: hi <= i < |xs| ==> xs[i] > x
    ensures k <= |xs|
    ensures forall i :: 0 <= i < k ==> xs[i] <= x
    ensures forall i :: k <= i < |xs| ==> xs[i] > x
    decreases hi - lo
  {
    if lo >= hi then lo
    else
      var mid := (lo + hi) / 2;
      if x < xs[mid] then BisectRight(xs, x, lo, mid) else BisectRight(xs, x, mid + 1, hi)
  }

  /** `seg` and `F` hold the level at, and the integral up to, each breakpoint. */
  ghost predicate Tabulates(pts: seq<Point>, xs: seq<real>, seg: seq<int>, F: seq<real>) {
    && |seg| == |xs| && |F| == (if |xs| == 0 then 1 else |xs|) && F[0] == 0.0
    && (forall k :: 0 <= k < |xs| ==> seg[k] == Level(pts, xs[k]) && F[k] == Area(pts, xs[k]))
  }

  lemma TabulateNext(pts: seq<Point>, xs: seq<real>, seg: seq<int>, F: seq<real>, t: real, level: int, area: real)
    requires Tabulates(pts, xs, seg, F) && level == Level(pts, t) && area == Area(pts, t)
    requires |xs| == 0 ==> area == F[0]
    ensures Tabulates(pts, xs + [t], seg + [level], if |xs| > 0 then F + [area] else F)
  {}

  /** Sorted distinct breakpoints, the level after each, and the integral up to each. */
  ghost predicate Sweep(pts: seq<Point>, xs: seq<real>, seg: seq<int>, F: seq<real>) {
    && Increasing(xs) && Tabulates(pts, xs, seg, F)
    && (forall p :: p in pts ==> p.t in xs)
  }

  /** No breakpoint lies strictly between two neighbours. */
  lemma NoneBetween(pts: seq<Point>, xs: seq<real>, seg: seq<int>, F: seq<real>, k: nat)
    requires Sweep(pts, xs, seg, F) && k < |xs|
    ensures forall p :: p in pts ==> p.t <= xs[k] || (k + 1 < |xs| && p.t >= xs[k + 1])
  {}

  predicate InTimeOrder(pts: seq<Point>) {
    forall i, j :: 0 <= i < j < |pts| ==> pts[i].t <= pts[j].t
  }

  /** The sum of all deltas. */
  function Run(pts: seq<Point>): int {
    if |pts| == 0 then 0 else Run(pts[..|pts| - 1]) + pts[|pts| - 1].delta
  }

  lemma {:induction false} RunIsLevel(pts: seq<Point>, i: nat, x: real)
    requires i <= |pts|
    requires forall j :: 0 <= j < i ==> pts[j].t <= x
    requires forall j :: i <= j < |pts| ==> pts[j].t > x
    ensures Level(pts, x) == Run(pts[..i])
  {
    assert pts == pts[..i] + pts[i..];
    AppendPoints(pts[..i], pts[i..], x);
    LevelOfAll(pts[..i], x);
    LevelOfNone(pts[i..], x);
  }

  lemma {:induction false} LevelOfAll(pts: seq<Point>, x: real)
    requires forall j :: 0 <= j < |pts| ==> pts[j].t <= x
    ensures Level(pts, x) == Run(pts)
  {
    if |pts| > 0 {
      var init, last := pts[..|pts| - 1], [pts[|pts| - 1]];
      LevelOfAll(init, x);
      assert pts == init + last;
      AppendPoints(init, last, x);
      assert last[1..] == [];
    }
  }

  lemma {:induction false} LevelOfNone(pts: seq<Point>, x: real)
    requires forall j :: 0 <= j < |pts| ==> pts[j].t > x
    ensures Level(pts, x) == 0
  {
    if |pts| > 0 {
      LevelOfNone(pts[1..], x);
    }
  }

  /** The sweep so far: all groups of equal breakpoints among `pts[..i]` are done. */
  ghost predicate SweptTo(pts: seq<Point>, i: nat, run: int, xs: seq<real>, seg: seq<int>, F: seq<real>) {
    && i <= |pts| && run == Run(pts[..i])
    && Increasing(xs) && Tabulates(pts, xs, seg, F)
    && (forall j :: 0 <= j < i ==> pts[j].t in xs)
    && (|xs| == 0 <==> i == 0)
    && (|xs| > 0 ==> xs[|xs| - 1] == pts[i - 1].t)
    && (0 < i < |pts| ==> pts[i - 1].t < pts[i].t)
  }

  lemma IncreasingAppend(xs: seq<real>, t: real)
    requires Increasing(xs) && (|xs| > 0 ==> xs[|xs| - 1] < t)
    ensures Increasing(xs + [t])
  {}

  /** The integral up to the breakpoint `pts[i].t` that comes next. */
  lemma NextArea(pts: seq<Point>, i: nat, run: int, xs: seq<real>, seg: seq<int>, F: seq<real>)
    requires InTimeOrder(pts) && i < |pts| && SweptTo(pts, i, run, xs, seg, F)
    ensures Area(pts, pts[i].t) ==
            if |xs| > 0 then F[|F| - 1] + Block(seg[|seg| - 1], pts[i].t - xs[|xs| - 1]) else F[|F| - 1]
    ensures |xs| > 0 ==> xs[|xs| - 1] < pts[i].t
  {
    hide Area, Level, Block, Run, Increasing;
    var t := pts[i].t;
    if |xs| > 0 {
      var last := xs[|xs| - 1];
      forall p | p in pts ensures p.t <= last || p.t >= t {
        var j :| 0 <= j < |pts| && pts[j] == p;
      }
      AreaLinear(pts, last, t);
    } else {
      BeforeAll(pts, t);
    }
  }

  /** Closing the group `pts[i..i']` of breakpoints at `t`. */
  lemma CloseGroup(pts: seq<Point>, i: nat, i': nat, run: int, xs: seq<real>, seg: seq<int>, F: seq<real>)
    requires InTimeOrder(pts) && i < i' <= |pts| && SweptTo(pts, i, run, xs, seg, F)
    requires forall j :: i <= j < i' ==> pts[j].t == pts[i].t
    requires i' < |pts| ==> pts[i'].t != pts[i].t
    ensures var t := pts[i].t;
            var F' := if |xs| > 0 then F + [F[|F| - 1] + Block(seg[|seg| - 1], t - xs[|xs| - 1])] else F;
            SweptTo(pts, i', Run(pts[..i']), xs + [t], seg + [Run(pts[..i'])], F')
  {
    var t := pts[i].t;
    RunIsLevel(pts, i', t);
    NextArea(pts, i, run, xs, seg, F);
    IncreasingAppend(xs, t);
    TabulateNext(pts, xs, seg, F, t, Run(pts[..i']), Area(pts, t));
    hide Area, Level, Block, Run, Increasing, Tabulates;
    forall j | 0 <= j < i' ensures pts[j].t in xs + [t] {
      if j < i {
        assert pts[j].t in xs;
      } else {
        assert (xs + [t])[|xs|] == pts[j].t;
      }
    }
  }

  lemma SweptNone(pts: seq<Point>)
    ensures SweptTo(pts, 0, 0, [], [], [0.0])
  {}

  lemma SweptParts(pts: seq<Point>, i: nat, run: int, xs: seq<real>, seg: seq<int>, F: seq<real>)
    requires SweptTo(pts, i, run, xs, seg, F)
    ensures i <= |pts| && run == Run(pts[..i]) && |seg| == |xs| && |F| > 0
  {}

  lemma SweptAll(pts: seq<Point>, run: int, xs: seq<real>, seg: seq<int>, F: seq<real>)
    requires SweptTo(pts, |pts|, run, xs, seg, F)
    ensures Sweep(pts, xs, seg, F)
  {}

  method BuildSweep(pts: seq<Point>) returns (xs: seq<real>, seg: seq<int>, F: seq<real>)
    requires InTimeOrder(pts)
    ensures Sweep(pts, xs, seg, F)
  {
    xs, seg, F := [], [], [0.0];
    var run, i := 0, 0;
    SweptNone(pts);
    hide SweptTo, Sweep, Block, InTimeOrder;
    while i < |pts|
      invariant 0 <= i <= |pts| && SweptTo(pts, i, run, xs, seg, F)
    {
      SweptParts(pts, i, run, xs, seg, F);
      var t := pts[i].t;
      ghost var first, before := i, run;
      while i < |pts| && pts[i].t == t
        invariant first <= i <= |pts| && run == Run(pts[..i])
        invariant forall j :: first <= j < i ==> pts[j].t == t
        decreases |pts| - i
      {
        run := run + pts[i].delta;
        i := i + 1;
        assert pts[..i][..i - 1] == pts[..i - 1];
      }
      CloseGroup(pts, first, i, before, xs, seg, F);
      if |xs| > 0 {
        F := F + [F[|F| - 1] + Block(seg[|seg| - 1], t - xs[|xs| - 1])];
      }
      xs := xs + [t];
      seg := seg + [run];
    }
    SweptAll(pts, run, xs, seg, F);
  }

  lemma NoPoints(pts: seq<Point>, xs: seq<real>, seg: seq<int>, F: seq<real>)
    requires Sweep(pts, xs, seg, F)
    ensures |xs| == 0 ==> pts == []
  {
    if |pts| > 0 {
      assert pts[0] in pts;
      assert pts[0].t in xs;
    }
  }

  // Every query point falls before the first breakpoint, after the last, or between two neighbours.

  lemma AreaBefore(pts: seq<Point>, xs: seq<real>, seg: seq<int>, F: seq<real>, x: real)
    requires Sweep(pts, xs, seg, F) && (|xs| == 0 || x <= xs[0])
    ensures Area(pts, x) == 0.0
  {
    NoPoints(pts, xs, seg, F);
    forall p | p in pts ensures p.t >= x {
      var i :| 0 <= i < |xs| && xs[i] == p.t;
    }
    BeforeAll(pts, x);
  }

  lemma AreaAfter(pts: seq<Point>, xs: seq<real>, seg: seq<int>, F: seq<real>, x: real)
    requires Sweep(pts, xs, seg, F) && |xs| > 0 && x >= xs[|xs| - 1] && Level(pts, xs[|xs| - 1]) == 0
    ensures Area(pts, x) == F[|F| - 1]
  {
    NoneBetween(pts, xs, seg, F, |xs| - 1);
    AreaLinear(pts, xs[|xs| - 1], x);
    BlockFacts(0, 0, 0.0, x - xs[|xs| - 1]);
    hide Area, Level, Block;
  }

  lemma AreaBetween(pts: seq<Point>, xs: seq<real>, seg: seq<int>, F: seq<real>, x: real, k: nat)
    requires Sweep(pts, xs, seg, F) && k + 1 < |xs| && xs[k] <= x < xs[k + 1]
    ensures Area(pts, x) == F[k] + Block(seg[k], x - xs[k])
  {
    NoneBetween(pts, xs, seg, F, k);
    forall p | p in pts ensures p.t <= xs[k] || p.t >= x {}
    AreaLinear(pts, xs[k], x);
    hide Area, Level, Block;
  }

  class ConcIntegral {
    ghost var pts: seq<Point>
    ghost var intervals: seq<Span>
    var xs: seq<real>
    var seg: seq<int>
    var F: seq<real>

    ghost predicate Valid()
      reads this
    {
      && Sweep(pts, xs, seg, F)
      && (forall x :: Area(pts, x) == Area(Points(intervals), x) && Level(pts, x) == Level(Points(intervals), x))
      && (forall p :: p in Points(intervals) ==> p in pts)
    }

    /** Behind the last breakpoint every interval is closed. */
    lemma LastLevel()
      requires Valid() && |xs| > 0
      ensures Level(pts, xs[|xs| - 1]) == 0
    {
      forall p | p in Points(intervals) ensures p.t <= xs[|xs| - 1] {
        assert p in pts && p.t in xs;
      }
      AllClosed(intervals, xs[|xs| - 1]);
    }

    constructor (ivs: seq<Span>)
      ensures Valid() && intervals == ivs
    {
      var raw: seq<Point> := [];
      for i := 0 to |ivs|
        invariant raw == Points(ivs[..i])
      {
        if ivs[i].end > ivs[i].start {
          raw := raw + [Point(ivs[i].start, 1)];
          raw := raw + [Point(ivs[i].end, -1)];
        }
        assert ivs[..i + 1][..i] == ivs[..i];
      }
      assert ivs[..|ivs|] == ivs;
      var sorted := Sort(raw, PointKey());
      SortSorted(raw, PointKey());
      SortMembers(raw, PointKey());
      forall x ensures Area(sorted, x) == Area(raw, x) && Level(sorted, x) == Level(raw, x) {
        SortPoints(raw, x);
      }
      assert InTimeOrder(sorted);
      var xs', seg', F' := BuildSweep(sorted);
      xs, seg, F := xs', seg', F';
      pts, intervals := sorted, ivs;
    }

    function Integ(x: real): (r: real)
      requires Valid()
      reads this
      ensures r == Area(Points(intervals), x)
    {
      assert Area(pts, x) == Area(Points(intervals), x);
      if |xs| == 0 || x <= xs[0] then
        AreaBefore(pts, xs, seg, F, x);
        0.0
      else if x >= xs[|xs| - 1] then
        LastLevel();
        AreaAfter(pts, xs, seg, F, x);
        F[|F| - 1]
      else
        var k := BisectRight(xs, x, 0, |xs|) - 1;
        AreaBetween(pts, xs, seg, F, x, k);
        F[k] + Block(seg[k], x - xs[k])
    }

    /** The accelerated query has the value of the naive one, for every window. */
    function Mean(a: real, b: real): (r: real)
      requires Valid()
      reads this
      ensures r == MeanOverlap(a, b, intervals)
    {
      if b <= a then 0.0
      else
        Window(a, b);
        if |xs| == 0 then 0.0 else (Integ(b) - Integ(a)) / (b - a)
    }

    lemma Window(a: real, b: real)
      requires Valid() && a < b
      ensures MeanOverlap(a, b, intervals) == (Integ(b) - Integ(a)) / (b - a)
      ensures |xs| == 0 ==> MeanOverlap(a, b, intervals) == 0.0
    {
      AreaIsOverlap(intervals, a, b);
      assert TotalOverlap(a, b, intervals) == Integ(b) - Integ(a);
      if |xs| == 0 {
        assert TotalOverlap(a, b, intervals) == 0.0;
        assert 0.0 / (b - a) == 0.0;
      }
    }
  }

  /** The integral of intervals that overlap at most `c`-fold reads at most `c` over every window. */
  lemma IntegralAtMost(curve: ConcIntegral, a: real, b: real, c: nat)
    requires curve.Valid() && forall x :: Active(curve.intervals, x) <= c
    ensures curve.Mean(a, b) <= c as real
  {
    MeanAtMost(curve.intervals, a, b, c);
  }
}
