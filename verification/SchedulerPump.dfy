/** What the admit loop decides depends on, pool by pool, and that it ends in a fixed point. */
module SchedulerPump {
  import opened Options
  import opened StableSort
  import opened SchedulerModel

  // ---- the queue as a list of distinct requests ----

  lemma ReqsSplit(q: seq<Entry>, i: nat)
    requires i < |q|
    ensures Reqs(q) == Reqs(q[..i]) + [q[i].req] + Reqs(q[i + 1..])
    ensures Reqs(q[..i] + q[i + 1..]) == Reqs(q[..i]) + Reqs(q[i + 1..])
  {}

  lemma ReqsAppend(q: seq<Entry>, e: Entry)
    ensures Reqs(q + [e]) == Reqs(q) + [e.req]
  {}

  /** Removing a waiter leaves the others, in order. */
  lemma WithoutReqs(q: seq<Entry>, r: Request)
    requires NoDup(Reqs(q))
    ensures Reqs(Without(q, r)) == Filter(Reqs(q), Except(r))
    ensures NoDup(Reqs(Without(q, r)))
  {
    var i := IndexOf(q, r);
    var rs := Reqs(q);
    if i < |q| {
      ReqsSplit(q, i);
      assert rs[..i] == Reqs(q[..i]) && rs[i + 1..] == Reqs(q[i + 1..]) && rs[i] == r;
      FilterOut(rs, i);
      FilterNoDup(rs, Except(r));
    } else {
      FilterAll(rs, Except(r));
    }
  }

  lemma WithoutEntries(q: seq<Entry>, r: Request)
    requires NoDup(Reqs(q))
    ensures forall e :: e in Without(q, r) <==> e in q && e.req != r
  {
    var i, rs := IndexOf(q, r), Reqs(q);
    if i < |q| {
      assert rs[i] == r;
      var w := Without(q, r);
      forall e | e in q && e.req != r ensures e in w {
        var k :| 0 <= k < |q| && q[k] == e;
        assert e == w[if k < i then k else k - 1];
      }
      forall e | e in w ensures e in q && e.req != r {
        var k :| 0 <= k < |w| && w[k] == e;
        var k' := if k < i then k else k + 1;
        assert rs[k'] == e.req && q[k'] == e;
      }
    } else {
      forall e | e in q ensures e.req != r {
        var k :| 0 <= k < |q| && q[k] == e;
        assert rs[k] == e.req;
      }
    }
  }

  lemma EntryOf(q: seq<Entry>, r: Request) returns (e: Entry)
    requires r in Reqs(q)
    ensures e in q && e.req == r && e == q[IndexOf(q, r)]
  {
    e := q[IndexOf(q, r)];
  }

  lemma EntryUnique(q: seq<Entry>, e: Entry)
    requires NoDup(Reqs(q)) && e in q
    ensures e.req in Reqs(q) && q[IndexOf(q, e.req)] == e
  {
    var k :| 0 <= k < |q| && q[k] == e;
    assert Reqs(q)[k] == e.req;
    var i := IndexOf(q, e.req);
    assert Reqs(q)[i] == e.req;
  }

  // ---- what a pool's decisions depend on ----

  /** The members with work in flight are exactly the pool's models with a positive count. */
  lemma ActiveMembersExact(cfg: Config, st: State, p: string)
    ensures forall m :: m in ActiveMembers(cfg, st, p) <==> st.InFlight(m) > 0 && cfg.Pool(m) == p
  {}

  ghost predicate AgreeIn(cfg: Config, a: State, b: State, p: string) {
    && a.Used(p) == b.Used(p)
    && (forall m :: cfg.Pool(m) == p ==> a.InFlight(m) == b.InFlight(m))
    && Filter(a.Waiting(), InPool(cfg, p)) == Filter(b.Waiting(), InPool(cfg, p))
  }

  lemma AgreeBlocks(cfg: Config, a: State, b: State, r: Request)
    requires forall m :: cfg.Pool(m) == cfg.Pool(r.model) ==> a.InFlight(m) == b.InFlight(m)
    ensures CapFull(cfg, a, r) == CapFull(cfg, b, r)
    ensures ExclusionBlocks(cfg, a, r) == ExclusionBlocks(cfg, b, r)
  {}

  lemma HeadInPool(cfg: Config, st: State, now: real, p: string)
    ensures var hs := Ordered(cfg, Filter(st.Waiting(), InPool(cfg, p)), now);
            Head(cfg, st, now, p) == if |hs| == 0 then None else Some(hs[0])
  {
    var ordered := Ordered(cfg, st.Waiting(), now);
    FirstWhereProps(ordered, InPool(cfg, p));
    FirstWhereFilter(ordered, InPool(cfg, p), InPool(cfg, p));
    SortFilter(st.Waiting(), PriorityKey(cfg, now), InPool(cfg, p));
    FilterMembers(ordered, InPool(cfg, p));
    var hs := Ordered(cfg, Filter(st.Waiting(), InPool(cfg, p)), now);
    if |hs| > 0 {
      assert hs[0] in hs;
    }
  }

  lemma HeadProps(cfg: Config, st: State, now: real, p: string)
    ensures var h := Head(cfg, st, now, p);
            && (h.Some? ==> h.value in st.Waiting() && cfg.Pool(h.value.model) == p)
            && (h.None? <==> forall r :: r in st.Waiting() ==> cfg.Pool(r.model) != p)
  {
    FirstWhereProps(Ordered(cfg, st.Waiting(), now), InPool(cfg, p));
    SortMembers(st.Waiting(), PriorityKey(cfg, now));
  }

  /** A pool's head and its reservation depend only on what is in that pool, */
  lemma AgreeHeads(cfg: Config, a: State, b: State, now: real, p: string)
    requires AgreeIn(cfg, a, b, p)
    ensures Head(cfg, a, now, p) == Head(cfg, b, now, p)
    ensures BlockedHead(cfg, a, now, p) == BlockedHead(cfg, b, now, p)
  {
    HeadInPool(cfg, a, now, p);
    HeadInPool(cfg, b, now, p);
    HeadProps(cfg, a, now, p);
    var h := Head(cfg, a, now, p);
    if h.Some? {
      AgreeBlocks(cfg, a, b, h.value);
    }
  }

  /** and so does whether one of its waiters may be admitted. */
  lemma AgreeAdmittable(cfg: Config, a: State, b: State, now: real, r: Request)
    requires AgreeIn(cfg, a, b, cfg.Pool(r.model))
    ensures Admittable(cfg, a, now, r) == Admittable(cfg, b, now, r)
  {
    AgreeHeads(cfg, a, b, now, cfg.Pool(r.model));
    AgreeBlocks(cfg, a, b, r);
  }

  ghost predicate SameCore(a: State, b: State) {
    a.used == b.used && a.inFlight == b.inFlight && a.Waiting() == b.Waiting()
  }

  lemma SameCoreAt(cfg: Config, a: State, b: State, now: real, p: string)
    requires SameCore(a, b)
    ensures Head(cfg, a, now, p) == Head(cfg, b, now, p)
    ensures BlockedHead(cfg, a, now, p) == BlockedHead(cfg, b, now, p)
  {
    AgreeHeads(cfg, a, b, now, p);
  }

  lemma SameCoreFirstFit(cfg: Config, a: State, b: State, now: real)
    requires SameCore(a, b)
    ensures FirstFit(cfg, a, now) == FirstFit(cfg, b, now)
  {
    forall r: Request ensures Admittable(cfg, a, now, r) == Admittable(cfg, b, now, r) {
      AgreeAdmittable(cfg, a, b, now, r);
    }
    FirstWhereCongruence(Ordered(cfg, a.Waiting(), now), AdmittableIn(cfg, a, now), AdmittableIn(cfg, b, now));
  }

  // ---- the fixed point ----

  lemma PoolsKept(cfg: Config, a: State, b: State)
    requires a.Waiting() == b.Waiting()
    ensures PoolsWithWaiters(cfg, a) == PoolsWithWaiters(cfg, b)
  {
    assert |a.queue| == |a.Waiting()| == |b.queue|;
    forall i | 0 <= i < |a.queue| ensures a.queue[i].req == b.queue[i].req {
      assert a.Waiting()[i] == b.Waiting()[i];
    }
    forall p ensures p in PoolsWithWaiters(cfg, a) <==> p in PoolsWithWaiters(cfg, b) {
      if p in PoolsWithWaiters(cfg, a) {
        var i :| 0 <= i < |a.queue| && cfg.Pool(a.queue[i].req.model) == p;
        assert b.queue[i] in b.queue;
      }
      if p in PoolsWithWaiters(cfg, b) {
        var i :| 0 <= i < |b.queue| && cfg.Pool(b.queue[i].req.model) == p;
        assert a.queue[i] in a.queue;
      }
    }
  }

  lemma BlockedHeadNeedsWaiters(cfg: Config, st: State, now: real, p: string)
    ensures p !in PoolsWithWaiters(cfg, st) ==> BlockedHead(cfg, st, now, p).None?
  {
    HeadProps(cfg, st, now, p);
    var h := Head(cfg, st, now, p);
    if h.Some? {
      var e := EntryOf(st.queue, h.value);
    }
  }

  /** After a pass's reservation step, `p` is reserved for exactly its budget-blocked head. */
  lemma ReserveFor(cfg: Config, st: State, now: real, p: string)
    ensures Reserve(cfg, st, now).ReservedFor(p) == BlockedHead(cfg, st, now, p)
  {
    BlockedHeadNeedsWaiters(cfg, st, now, p);
  }

  /** A pass's marks are computed from the waiting list and from what is reserved. */
  lemma ReserveMarkAgain(cfg: Config, st: State, now: real, s1: State, e: Entry)
    requires SameCore(s1, st)
    requires forall p :: s1.ReservedFor(p) == BlockedHead(cfg, st, now, p)
    ensures ReserveMark(cfg, s1, now, ReserveMark(cfg, st, now, e)) == ReserveMark(cfg, st, now, e)
  {
    SameCoreAt(cfg, s1, st, now, cfg.Pool(e.req.model));
  }

  lemma ReserveIdempotent(cfg: Config, st: State, now: real)
    ensures Reserve(cfg, Reserve(cfg, st, now), now) == Reserve(cfg, st, now)
  {
    var s1 := Reserve(cfg, st, now);
    ReserveKeepsWaiting(cfg, st, now);
    forall p ensures s1.ReservedFor(p) == BlockedHead(cfg, st, now, p) {
      ReserveFor(cfg, st, now, p);
    }
    ReserveAgain(cfg, st, now, s1);
  }

  lemma ReserveAgain(cfg: Config, st: State, now: real, s1: State)
    requires SameCore(s1, st) && s1.queue == ReserveMarks(cfg, st, now)
    requires s1.reserved.Keys >= PoolsWithWaiters(cfg, st)
    requires forall p :: s1.ReservedFor(p) == BlockedHead(cfg, st, now, p)
    ensures Reserve(cfg, s1, now) == s1
  {
    PoolsKept(cfg, s1, st);
    var s2 := Reserve(cfg, s1, now);
    assert s2.queue == s1.queue by {
      forall i | 0 <= i < |s1.queue| ensures s2.queue[i] == s1.queue[i] {
        ReserveMarkAgain(cfg, st, now, s1, st.queue[i]);
      }
    }
    assert s2.reserved == s1.reserved by {
      forall p | p in s1.reserved ensures s2.reserved[p] == s1.reserved[p] {
        SameCoreAt(cfg, s1, st, now, p);
        assert s1.ReservedFor(p) == BlockedHead(cfg, st, now, p);
      }
    }
  }

  lemma ReserveBeforePump(cfg: Config, st: State, now: real)
    ensures Pump(cfg, Reserve(cfg, st, now), now) == Pump(cfg, st, now)
  {
    ReserveIdempotent(cfg, st, now);
    assert OnePass(cfg, Reserve(cfg, st, now), now) == OnePass(cfg, st, now);
  }

  /** A state in which the admit loop has nothing left to do. */
  ghost predicate Settled(cfg: Config, st: State, now: real) {
    Pump(cfg, st, now) == (st, [])
  }

  lemma SettledParts(cfg: Config, st: State, now: real)
    ensures Settled(cfg, st, now) <==>
            && Reserve(cfg, st, now) == st
            && FirstFit(cfg, st, now) == None
            && RecordWaits(cfg, st) == st
  {
    var s1 := Reserve(cfg, st, now);
    ReserveKeepsWaiting(cfg, st, now);
    SameCoreFirstFit(cfg, s1, st, now);
    if |st.queue| == 0 {
      assert RecordWaits(cfg, st) == st;
      assert |st.Waiting()| == 0;
    } else if Settled(cfg, st, now) {
      assert FirstFit(cfg, s1, now) == None;
      RecordAfterReserve(cfg, st, s1, now);
    }
  }

  lemma RecordAfterReserve(cfg: Config, st: State, s1: State, now: real)
    requires s1 == Reserve(cfg, st, now) && RecordWaits(cfg, s1) == st
    ensures s1 == st
  {}

  lemma WaitMarkAgain(cfg: Config, st: State, s: State, e: Entry)
    requires SameCore(s, st) && s.reserved == st.reserved
    ensures WaitMark(cfg, s, WaitMark(cfg, st, e)) == WaitMark(cfg, st, e)
    ensures WaitMark(cfg, st, e).wasReserved == e.wasReserved && WaitMark(cfg, st, e).req == e.req
  {
    AgreeBlocks(cfg, s, st, e.req);
  }

  lemma RecordKeeps(cfg: Config, st: State)
    ensures SameCore(RecordWaits(cfg, st), st)
    ensures RecordWaits(cfg, RecordWaits(cfg, st)) == RecordWaits(cfg, st)
  {
    var s := RecordWaits(cfg, st);
    forall i | 0 <= i < |st.queue| ensures s.queue[i].req == st.queue[i].req {
      WaitMarkAgain(cfg, st, st, st.queue[i]);
    }
    assert s.Waiting() == st.Waiting();
    assert RecordWaits(cfg, s).queue == s.queue by {
      forall i | 0 <= i < |st.queue| ensures WaitMark(cfg, s, s.queue[i]) == s.queue[i] {
        WaitMarkAgain(cfg, st, s, st.queue[i]);
      }
    }
  }

  lemma ReserveAfterRecord(cfg: Config, st: State, s: State, now: real)
    requires Reserve(cfg, st, now) == st
    requires SameCore(s, st) && s.reserved == st.reserved && |s.queue| == |st.queue|
    requires forall i :: 0 <= i < |s.queue| ==>
               s.queue[i].req == st.queue[i].req && s.queue[i].wasReserved == st.queue[i].wasReserved
    ensures Reserve(cfg, s, now) == s
  {
    assert ReserveMarks(cfg, s, now) == s.queue by {
      forall i | 0 <= i < |st.queue| ensures ReserveMark(cfg, s, now, s.queue[i]) == s.queue[i] {
        SameCoreAt(cfg, s, st, now, cfg.Pool(st.queue[i].req.model));
        assert ReserveMarks(cfg, st, now)[i] == st.queue[i];
      }
    }
    PoolsKept(cfg, s, st);
    assert Reserve(cfg, s, now).reserved == st.reserved by {
      forall p | p in st.reserved.Keys + PoolsWithWaiters(cfg, s)
        ensures p in st.reserved && BlockedHead(cfg, s, now, p) == st.reserved[p]
      {
        SameCoreAt(cfg, s, st, now, p);
        assert p in Reserve(cfg, st, now).reserved;
      }
    }
  }

  lemma RecordSettles(cfg: Config, st: State, now: real)
    requires Reserve(cfg, st, now) == st && FirstFit(cfg, st, now) == None
    ensures Settled(cfg, RecordWaits(cfg, st), now)
  {
    var s := RecordWaits(cfg, st);
    RecordKeeps(cfg, st);
    forall i | 0 <= i < |st.queue|
      ensures s.queue[i].req == st.queue[i].req && s.queue[i].wasReserved == st.queue[i].wasReserved
    {
      WaitMarkAgain(cfg, st, st, st.queue[i]);
    }
    ReserveAfterRecord(cfg, st, s, now);
    SameCoreFirstFit(cfg, s, st, now);
    SettledParts(cfg, s, now);
  }

  lemma IdlePassSettles(cfg: Config, st: State, now: real)
    requires OnePass(cfg, st, now).Idle?
    ensures Settled(cfg, OnePass(cfg, st, now).st, now)
  {
    var s1 := Reserve(cfg, st, now);
    ReserveIdempotent(cfg, st, now);
    if |st.queue| > 0 {
      RecordSettles(cfg, s1, now);
    }
  }

  /** The loop ends in a state it would leave alone. */
  lemma {:induction false} PumpSettles(cfg: Config, st: State, now: real)
    ensures Settled(cfg, Pump(cfg, st, now).0, now)
    decreases |st.queue|
  {
    match OnePass(cfg, st, now)
    case Idle(_) => IdlePassSettles(cfg, st, now);
    case Admits(s, _) => PumpSettles(cfg, s, now);
  }
}
