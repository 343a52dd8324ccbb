/** The admission order: linear aging never reorders the waiters already queued, so time alone
    admits nobody; and aging bounds how long later arrivals can still overtake. */
module SchedulerOrder {
  import opened Options
  import opened Extrema
  import opened StableSort
  import opened SchedulerModel
  import opened SchedulerPump

  ghost predicate EnqueuedBy(reqs: seq<Request>, now: real) {
    forall r :: r in reqs ==> r.enqueuedAt <= now
  }

  lemma PriorityIsLinear(cfg: Config, r: Request, now: real)
    requires r.enqueuedAt <= now
    ensures cfg.EffectivePriority(r, now) == cfg.Clamped(r) - cfg.agingRate * r.enqueuedAt + cfg.agingRate * now
  {
    assert cfg.agingRate * (now - r.enqueuedAt) == cfg.agingRate * now - cfg.agingRate * r.enqueuedAt;
  }

  /** Waiters already queued keep their relative order for ever. */
  lemma OrderedLater(cfg: Config, reqs: seq<Request>, t1: real, t2: real)
    requires EnqueuedBy(reqs, t1) && EnqueuedBy(reqs, t2)
    ensures Ordered(cfg, reqs, t1) == Ordered(cfg, reqs, t2)
  {
    var k1, k2 := PriorityKey(cfg, t1), PriorityKey(cfg, t2);
    forall x, y | x in reqs && y in reqs ensures LexLe(k1(x), k1(y)) <==> LexLe(k2(x), k2(y)) {
      PriorityIsLinear(cfg, x, t1);
      PriorityIsLinear(cfg, x, t2);
      PriorityIsLinear(cfg, y, t1);
      PriorityIsLinear(cfg, y, t2);
    }
    SortCongruence(reqs, k1, k2);
  }

  lemma DecisionsLater(cfg: Config, st: State, t1: real, t2: real, p: string)
    requires EnqueuedBy(st.Waiting(), t1) && EnqueuedBy(st.Waiting(), t2)
    ensures Head(cfg, st, t1, p) == Head(cfg, st, t2, p)
    ensures BlockedHead(cfg, st, t1, p) == BlockedHead(cfg, st, t2, p)
    ensures Reservable(cfg, st, t1, p) == Reservable(cfg, st, t2, p)
  {
    OrderedLater(cfg, st.Waiting(), t1, t2);
  }

  lemma FirstFitLater(cfg: Config, st: State, t1: real, t2: real)
    requires EnqueuedBy(st.Waiting(), t1) && EnqueuedBy(st.Waiting(), t2)
    ensures FirstFit(cfg, st, t1) == FirstFit(cfg, st, t2)
  {
    OrderedLater(cfg, st.Waiting(), t1, t2);
    forall r: Request ensures Admittable(cfg, st, t1, r) == Admittable(cfg, st, t2, r) {
      DecisionsLater(cfg, st, t1, t2, cfg.Pool(r.model));
    }
    FirstWhereCongruence(Ordered(cfg, st.Waiting(), t1), AdmittableIn(cfg, st, t1), AdmittableIn(cfg, st, t2));
  }

  lemma ReserveLater(cfg: Config, st: State, t1: real, t2: real)
    requires EnqueuedBy(st.Waiting(), t1) && EnqueuedBy(st.Waiting(), t2)
    ensures Reserve(cfg, st, t1) == Reserve(cfg, st, t2)
  {
    assert ReserveMarks(cfg, st, t1) == ReserveMarks(cfg, st, t2) by {
      forall i | 0 <= i < |st.queue|
        ensures ReserveMark(cfg, st, t1, st.queue[i]) == ReserveMark(cfg, st, t2, st.queue[i])
      {
        DecisionsLater(cfg, st, t1, t2, cfg.Pool(st.queue[i].req.model));
      }
    }
    forall p ensures BlockedHead(cfg, st, t1, p) == BlockedHead(cfg, st, t2, p) {
      DecisionsLater(cfg, st, t1, t2, p);
    }
  }

  /** Time alone changes nothing: pumping a settled scheduler at any later time admits nobody,
      keeps every reservation and leaves every mark as it is. */
  lemma RepumpIsIdle(cfg: Config, st: State, t1: real, t2: real)
    requires Settled(cfg, st, t1)
    requires EnqueuedBy(st.Waiting(), t1) && t1 <= t2
    ensures Pump(cfg, st, t2) == (st, [])
  {
    SettledParts(cfg, st, t1);
    ReserveLater(cfg, st, t1, t2);
    FirstFitLater(cfg, st, t1, t2);
    SettledParts(cfg, st, t2);
  }

  // ---- who goes first ----

  /** `r` comes before `x`: higher effective priority, or the same and no later arrival. */
  predicate Precedes(cfg: Config, now: real, r: Request, x: Request) {
    cfg.EffectivePriority(r, now) > cfg.EffectivePriority(x, now) ||
    (cfg.EffectivePriority(r, now) == cfg.EffectivePriority(x, now) && r.enqueuedAt <= x.enqueuedAt)
  }

  /** A pool's head comes before every other waiter of the pool. */
  lemma HeadIsFirst(cfg: Config, st: State, now: real, x: Request)
    requires x in st.Waiting()
    ensures var h := Head(cfg, st, now, cfg.Pool(x.model));
            h.Some? && Precedes(cfg, now, h.value, x)
  {
    SortSorted(st.Waiting(), PriorityKey(cfg, now));
    SortMembers(st.Waiting(), PriorityKey(cfg, now));
    FirstWhereLeast(Ordered(cfg, st.Waiting(), now), PriorityKey(cfg, now), InPool(cfg, cfg.Pool(x.model)), x);
  }

  /** Whoever is admitted comes before every other waiter that might have been, in any pool. */
  lemma AdmittedIsFirst(cfg: Config, st: State, now: real, x: Request)
    requires x in st.Waiting() && Admittable(cfg, st, now, x)
    ensures FirstFit(cfg, st, now).Some? && Precedes(cfg, now, FirstFit(cfg, st, now).value, x)
  {
    SortSorted(st.Waiting(), PriorityKey(cfg, now));
    SortMembers(st.Waiting(), PriorityKey(cfg, now));
    FirstWhereLeast(Ordered(cfg, st.Waiting(), now), PriorityKey(cfg, now), AdmittableIn(cfg, st, now), x);
  }

  /** The ceiling of a request's key: what its source says, or the default for a key it does not know. */
  function Ceiling(cfg: Config, r: Request): real
    requires cfg.keyCeiling.Some?
  {
    match cfg.keyCeiling.value(r.keyFp) case Some(c) => c as real case None => cfg.defaultPriority as real
  }

  /** A client cannot game its key: whatever it asks for, it is worth no more than its ceiling, and
      asking for more than the ceiling gains nothing. */
  lemma CeilingBinds(cfg: Config, r: Request, claim: int, now: real)
    requires cfg.keyCeiling.Some?
    ensures cfg.EffectivePriority(r.(basePriority := claim), r.enqueuedAt) <= Ceiling(cfg, r)
    ensures r.basePriority as real >= Ceiling(cfg, r) ==>
              cfg.EffectivePriority(r.(basePriority := claim), now) <= cfg.EffectivePriority(r, now)
    ensures r.basePriority as real <= Ceiling(cfg, r) ==> cfg.Clamped(r) == r.basePriority as real
  {
    hide Ceiling;
    assert cfg.Clamped(r) == Min(r.basePriority as real, Ceiling(cfg, r)) by { ClampIsMin(cfg, r); }
    ClampIsMin(cfg, r.(basePriority := claim));
    assert Ceiling(cfg, r.(basePriority := claim)) == Ceiling(cfg, r) by { SameCeiling(cfg, r, claim); }
  }

  /** What a request is worth when it arrives: its claim, or its key's ceiling if that is lower. A key
      without a ceiling of its own has the default priority for one; without ceilings a claim counts. */
  lemma WorthAtArrival(cfg: Config, r: Request)
    ensures cfg.EffectivePriority(r, r.enqueuedAt) ==
            match cfg.keyCeiling
            case None => r.basePriority as real
            case Some(source) =>
              var ceiling := match source(r.keyFp) case Some(c) => c case None => cfg.defaultPriority;
              (if r.basePriority <= ceiling then r.basePriority else ceiling) as real
  {}

  lemma ClampIsMin(cfg: Config, r: Request)
    requires cfg.keyCeiling.Some?
    ensures cfg.Clamped(r) == Min(r.basePriority as real, Ceiling(cfg, r))
  {}

  lemma SameCeiling(cfg: Config, r: Request, claim: int)
    requires cfg.keyCeiling.Some?
    ensures Ceiling(cfg, r.(basePriority := claim)) == Ceiling(cfg, r)
  {}

  // ---- who can be a pool's head ----

  function Either(x: Request, y: Request): Request -> bool {
    (z: Request) => z == x || z == y
  }

  lemma {:induction false} FirstOfTwo(xs: seq<Request>, p: Request -> bool, x: Request, y: Request)
    requires FirstWhere(xs, p) == Some(y) && p(x)
    ensures FirstWhere(xs, Either(x, y)) == Some(y)
  {
    if !p(xs[0]) {
      FirstOfTwo(xs[1..], p, x, y);
    }
  }

  lemma {:induction false} KeepAt(xs: seq<Request>, q: Request -> bool, i: int, j: nat)
    requires i < j < |xs|
    requires forall k :: 0 <= k < |xs| ==> (q(xs[k]) <==> k == i || k == j)
    ensures Filter(xs, q) == (if i >= 0 then [xs[i]] else []) + [xs[j]]
  {
    if j == 0 {
      forall x | x in xs[1..] ensures !q(x) {
        var k :| 0 <= k < |xs| - 1 && xs[1..][k] == x;
        assert xs[k + 1] == x;
      }
      FilterNone(xs[1..], q);
    } else {
      forall k | 0 <= k < |xs| - 1 ensures q(xs[1..][k]) <==> k == i - 1 || k == j - 1 {
        assert xs[1..][k] == xs[k + 1];
      }
      KeepAt(xs[1..], q, i - 1, j - 1);
      assert q(xs[0]) <==> i == 0;
    }
  }

  lemma KeepTwo(xs: seq<Request>, i: nat, j: nat)
    requires NoDup(xs) && i < j < |xs|
    ensures Filter(xs, Either(xs[i], xs[j])) == [xs[i], xs[j]]
  {
    forall k | 0 <= k < |xs| ensures Either(xs[i], xs[j])(xs[k]) <==> k == i || k == j {
      assert k < i ==> xs[k] != xs[i];
      assert k > i ==> xs[i] != xs[k];
      assert k < j ==> xs[k] != xs[j];
      assert k > j ==> xs[j] != xs[k];
    }
    hide NoDup;
    KeepAt(xs, Either(xs[i], xs[j]), i, j);
  }

  /** Of two waiters, the earlier one is tried first unless the later one has the smaller key. */
  lemma TriedFirst(cfg: Config, st: State, now: real, i: nat, j: nat)
    requires NoDup(st.Waiting()) && i < j < |st.queue|
    requires var h, a := st.queue[i].req, st.queue[j].req;
             LexLe(PriorityKey(cfg, now)(h), PriorityKey(cfg, now)(a))
    ensures var h, a := st.queue[i].req, st.queue[j].req;
            FirstWhere(Ordered(cfg, st.Waiting(), now), Either(h, a)) == Some(h)
  {
    var xs, key := st.Waiting(), PriorityKey(cfg, now);
    var h, a := xs[i], xs[j];
    KeepTwo(xs, i, j);
    SortFilter(xs, key, Either(h, a));
    SortOfSorted([h, a], key);
    FirstWhereProps(Ordered(cfg, xs, now), Either(h, a));
    FirstWhereFilter(Ordered(cfg, xs, now), Either(h, a), Either(h, a));
  }

  lemma NotHead(cfg: Config, st: State, now: real, i: nat, j: nat)
    requires NoDup(st.Waiting()) && i < j < |st.queue|
    requires var h, a := st.queue[i].req, st.queue[j].req;
             cfg.Pool(h.model) == cfg.Pool(a.model) && LexLe(PriorityKey(cfg, now)(h), PriorityKey(cfg, now)(a))
    ensures Head(cfg, st, now, cfg.Pool(st.queue[j].req.model)) != Some(st.queue[j].req)
  {
    var xs := st.Waiting();
    var h, a := xs[i], xs[j];
    var p := cfg.Pool(a.model);
    assert h != a;
    TriedFirst(cfg, st, now, i, j);
    if Head(cfg, st, now, p) == Some(a) {
      FirstOfTwo(Ordered(cfg, xs, now), InPool(cfg, p), h, a);
    }
  }

  /** Aging bounds overtaking: once `h` has waited `(bound - clamped(h)) / rate`, no arrival whose
      clamped priority is at most `bound` gets ahead of it in the one order of all pools, now or ever. */
  lemma AgingBoundsOvertaking(cfg: Config, st: State, now: real, bound: real, i: nat, j: nat)
    requires cfg.agingRate > 0.0 && NoDup(st.Waiting()) && i < j < |st.queue|
    requires EnqueuedBy(st.Waiting(), now)
    requires var h, a := st.queue[i].req, st.queue[j].req;
             && cfg.Clamped(a) <= bound && h.enqueuedAt <= a.enqueuedAt
             && a.enqueuedAt >= h.enqueuedAt + (bound - cfg.Clamped(h)) / cfg.agingRate
    ensures var h, a := st.queue[i].req, st.queue[j].req;
            && FirstWhere(Ordered(cfg, st.Waiting(), now), Either(h, a)) == Some(h)
            && cfg.EffectivePriority(a, now) <= cfg.EffectivePriority(h, now)
            && (cfg.Pool(h.model) == cfg.Pool(a.model) ==> Head(cfg, st, now, cfg.Pool(a.model)) != Some(a))
  {
    var h, a := st.queue[i].req, st.queue[j].req;
    assert h == st.Waiting()[i] && a == st.Waiting()[j];
    PriorityIsLinear(cfg, h, now);
    PriorityIsLinear(cfg, a, now);
    AgingGain(cfg.agingRate, a.enqueuedAt - h.enqueuedAt, bound - cfg.Clamped(h));
    assert cfg.agingRate * (a.enqueuedAt - h.enqueuedAt) == cfg.agingRate * a.enqueuedAt - cfg.agingRate * h.enqueuedAt;
    TriedFirst(cfg, st, now, i, j);
    if cfg.Pool(h.model) == cfg.Pool(a.model) {
      NotHead(cfg, st, now, i, j);
    }
  }

  lemma AgingGain(rate: real, waited: real, gap: real)
    requires rate > 0.0 && waited >= gap / rate
    ensures rate * waited >= gap
  {
    assert rate * (gap / rate) == gap;
    assert rate * (waited - gap / rate) >= 0.0;
  }
}
