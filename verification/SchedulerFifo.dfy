/** The single-model case: with one model of cap `c` charged `1/c` against a budget of one, the
    scheduler is a first-in first-out counting semaphore with `c` permits. */
module SchedulerFifo {
  import opened Options
  import opened StableSort
  import opened SchedulerModel
  import opened SchedulerPump
  import opened SchedulerOrder
  import opened SchedulerRuns
  import opened SchedulerProgress

  datatype Semaphore = Semaphore(free: int, queue: seq<Request>)

  /** Grants permits from the front of the queue while there are any. */
  function Drain(sem: Semaphore): (Semaphore, seq<Request>)
    decreases |sem.queue|
  {
    if |sem.queue| == 0 || sem.free <= 0 then (sem, [])
    else
      var (end, rest) := Drain(Semaphore(sem.free - 1, sem.queue[1..]));
      (end, [sem.queue[0]] + rest)
  }

  function SemPrepare(sem: Semaphore, e: Event): Semaphore {
    match e
    case Arrive(r, _) => Semaphore(sem.free, sem.queue + [r])
    case Cancel(r, _) => Semaphore(sem.free, Filter(sem.queue, Except(r)))
    case Finish(_, _) => Semaphore(sem.free + 1, sem.queue)
  }

  function SemAfter(sem: Semaphore, evs: seq<Event>): Semaphore
    decreases |evs|
  {
    if |evs| == 0 then sem else SemAfter(Drain(SemPrepare(sem, evs[0])).0, evs[1..])
  }

  function SemLog(sem: Semaphore, evs: seq<Event>): seq<Request>
    decreases |evs|
  {
    if |evs| == 0 then []
    else
      var (next, granted) := Drain(SemPrepare(sem, evs[0]));
      granted + SemLog(next, evs[1..])
  }

  /** One model `m` with cap `c`, its base cost and a unit budget, aging that does not run backwards. */
  ghost predicate OneModel(cfg: Config, m: string, c: int) {
    && m in cfg.caps && cfg.caps[m] == c && c >= 1
    && m !in cfg.costs
    && cfg.Budget(cfg.Pool(m)) == 1.0
    && cfg.agingRate >= 0.0
  }

  /** A base-cost request for `m` of clamped priority `k`. */
  ghost predicate Plain(cfg: Config, m: string, k: real, r: Request) {
    r.model == m && r.cost == cfg.Cost(m) && cfg.Clamped(r) == k
  }

  ghost predicate InArrivalOrder(rs: seq<Request>) {
    forall i, j :: 0 <= i < j < |rs| ==> rs[i].enqueuedAt <= rs[j].enqueuedAt
  }

  ghost predicate FifoState(cfg: Config, m: string, c: int, k: real, st: State, now: real) {
    && c >= 1
    && (forall r :: r in st.Waiting() ==> Plain(cfg, m, k, r) && r.enqueuedAt <= now)
    && InArrivalOrder(st.Waiting())
    && 0 <= st.InFlight(m) <= c
    && st.Used(cfg.Pool(m)) == Portion(st.InFlight(m), c)
    && (forall x :: cfg.Pool(x) == cfg.Pool(m) && x != m ==> st.InFlight(x) == 0)
  }

  ghost predicate Simulates(m: string, c: int, st: State, sem: Semaphore) {
    sem.queue == st.Waiting() && sem.free == c - st.InFlight(m)
  }

  lemma AgingKeepsOrder(rate: real, now: real, x: real, y: real)
    requires rate >= 0.0 && x <= y <= now
    ensures rate * (now - x) >= rate * (now - y)
  {
    assert rate * (y - x) >= 0.0;
  }

  /** Equal clamped priorities: the admission order is the arrival order. */
  lemma OrderIsArrival(cfg: Config, m: string, c: int, k: real, st: State, now: real)
    requires OneModel(cfg, m, c) && FifoState(cfg, m, c, k, st, now)
    ensures Ordered(cfg, st.Waiting(), now) == st.Waiting()
  {
    var rs, key := st.Waiting(), PriorityKey(cfg, now);
    forall i, j | 0 <= i < j < |rs| ensures LexLe(key(rs[i]), key(rs[j])) {
      AgingKeepsOrder(cfg.agingRate, now, rs[i].enqueuedAt, rs[j].enqueuedAt);
      assert rs[i] in rs && rs[j] in rs;
    }
    SortOfSorted(rs, key);
  }

  /** `n` runs at `1/c` each. */
  function Portion(n: int, c: int): real
    requires c >= 1
  {
    n as real / c as real
  }

  lemma Fraction(n: int, c: int)
    requires c >= 1 && 0 <= n
    ensures Portion(n, c) + 1.0 / c as real == Portion(n + 1, c)
    ensures n < c ==> Portion(n + 1, c) <= 1.0
  {
    assert (n as real + 1.0) / c as real == n as real / c as real + 1.0 / c as real;
    if n < c {
      assert (n + 1) as real <= c as real;
      assert (n + 1) as real / c as real <= c as real / c as real;
    }
  }

  /** Nothing but the cap stands against a plain request, and it would fill one more slot's portion. */
  lemma PlainTests(cfg: Config, m: string, c: int, k: real, st: State, now: real, r: Request)
    requires OneModel(cfg, m, c) && FifoState(cfg, m, c, k, st, now) && Plain(cfg, m, k, r)
    ensures !ExclusionBlocks(cfg, st, r) && (CapFull(cfg, st, r) <==> st.InFlight(m) >= c)
    ensures st.Used(cfg.Pool(m)) + r.cost == Portion(st.InFlight(m) + 1, c)
    ensures st.InFlight(m) < c ==> Portion(st.InFlight(m) + 1, c) <= 1.0
  {}

  lemma FirstFitIsFirst(cfg: Config, m: string, c: int, k: real, st: State, now: real)
    requires OneModel(cfg, m, c) && FifoState(cfg, m, c, k, st, now)
    ensures FirstFit(cfg, st, now) ==
            if |st.Waiting()| > 0 && st.InFlight(m) < c then Some(st.Waiting()[0]) else None
  {
    OrderIsArrival(cfg, m, c, k, st, now);
    HeadProps(cfg, st, now, cfg.Pool(m));
    hide Portion;
    var h := Head(cfg, st, now, cfg.Pool(m));
    if h.Some? {
      PlainTests(cfg, m, c, k, st, now, h.value);
    }
    assert Reservable(cfg, st, now, cfg.Pool(m)) == 1.0;
    forall r | r in st.Waiting() ensures Admittable(cfg, st, now, r) <==> st.InFlight(m) < c {
      PlainTests(cfg, m, c, k, st, now, r);
    }
    FirstWhereProps(st.Waiting(), AdmittableIn(cfg, st, now));
    if |st.Waiting()| > 0 {
      assert st.Waiting()[0] in st.Waiting();
    }
  }

  lemma FifoCore(cfg: Config, m: string, c: int, k: real, a: State, b: State, now: real)
    requires FifoState(cfg, m, c, k, a, now) && SameCore(a, b)
    ensures FifoState(cfg, m, c, k, b, now)
  {}

  lemma AdmitFirst(cfg: Config, m: string, c: int, k: real, st: State, now: real, sem: Semaphore)
    requires OneModel(cfg, m, c) && FifoState(cfg, m, c, k, st, now) && Simulates(m, c, st, sem)
    requires NoDup(st.Waiting()) && |st.Waiting()| > 0 && st.InFlight(m) < c
    ensures var s := Admit(cfg, st, st.Waiting()[0]);
            FifoState(cfg, m, c, k, s, now) && Simulates(m, c, s, Semaphore(sem.free - 1, sem.queue[1..]))
  {
    var r := st.Waiting()[0];
    assert r in st.Waiting();
    WithoutFirst(st, r);
    Fraction(st.InFlight(m), c);
    hide Portion, Without, NoDup;
    assert Admit(cfg, st, r).Waiting() == st.Waiting()[1..];
  }

  lemma WithoutFirst(st: State, r: Request)
    requires |st.Waiting()| > 0 && r == st.Waiting()[0]
    ensures Without(st.queue, r) == st.queue[1..] && Reqs(st.queue[1..]) == st.Waiting()[1..]
  {
    assert IndexOf(st.queue, r) == 0;
  }

  /** One pass is one step of the drain. */
  lemma {:induction false} PumpDrains(cfg: Config, m: string, c: int, k: real, st: State, now: real, sem: Semaphore)
    requires OneModel(cfg, m, c) && FifoState(cfg, m, c, k, st, now) && Simulates(m, c, st, sem) && Orderly(st)
    ensures var end := Pump(cfg, st, now).0;
            FifoState(cfg, m, c, k, end, now) && Simulates(m, c, end, Drain(sem).0)
    ensures Admitted(Pump(cfg, st, now).1) == Drain(sem).1
    decreases |st.queue|
  {
    PassDrains(cfg, m, c, k, st, now, sem);
    PassKeepsOrderly(cfg, st, now);
    AdmittedAppend([], []);
    DrainStep(sem);
    hide OnePass, FifoState, Simulates, Orderly, OneModel, Admitted, Drain;
    match OnePass(cfg, st, now)
    case Idle(s) =>
    case Admits(s, a) =>
      var sem' := Semaphore(sem.free - 1, sem.queue[1..]);
      PumpDrains(cfg, m, c, k, s, now, sem');
      AdmittedAppend([a], Pump(cfg, s, now).1);
      AdmittedOne(a);
  }

  lemma DrainStep(sem: Semaphore)
    ensures if |sem.queue| == 0 || sem.free <= 0 then Drain(sem) == (sem, [])
            else var rest := Drain(Semaphore(sem.free - 1, sem.queue[1..]));
                 Drain(sem) == (rest.0, [sem.queue[0]] + rest.1)
  {}

  lemma AdmittedAppend(a: seq<Admission>, b: seq<Admission>)
    ensures Admitted(a + b) == Admitted(a) + Admitted(b)
    ensures Admitted([]) == []
  {}

  lemma AdmittedOne(a: Admission)
    ensures Admitted([a]) == [a.req]
  {}

  lemma PassDrains(cfg: Config, m: string, c: int, k: real, st: State, now: real, sem: Semaphore)
    requires OneModel(cfg, m, c) && FifoState(cfg, m, c, k, st, now) && Simulates(m, c, st, sem) && Orderly(st)
    ensures var pass := OnePass(cfg, st, now);
            if |sem.queue| > 0 && sem.free > 0 then
              && pass.Admits? && pass.admission.req == sem.queue[0]
              && FifoState(cfg, m, c, k, pass.st, now)
              && Simulates(m, c, pass.st, Semaphore(sem.free - 1, sem.queue[1..]))
            else
              pass.Idle? && FifoState(cfg, m, c, k, pass.st, now) && Simulates(m, c, pass.st, sem)
  {
    var s1 := Reserve(cfg, st, now);
    ReserveKeepsWaiting(cfg, st, now);
    FifoCore(cfg, m, c, k, st, s1, now);
    FirstFitIsFirst(cfg, m, c, k, s1, now);
    if |sem.queue| > 0 && sem.free > 0 {
      AdmitFirst(cfg, m, c, k, s1, now, sem);
    } else {
      RecordKeeps(cfg, s1);
      FifoCore(cfg, m, c, k, s1, RecordWaits(cfg, s1), now);
    }
  }

  lemma {:induction false} FilterOrder(rs: seq<Request>, q: Request -> bool)
    requires InArrivalOrder(rs)
    ensures InArrivalOrder(Filter(rs, q))
  {
    if |rs| > 0 {
      FilterOrder(rs[1..], q);
      FilterMembers(rs[1..], q);
      var fs := Filter(rs[1..], q);
      forall j | 0 <= j < |fs| ensures rs[0].enqueuedAt <= fs[j].enqueuedAt {
        assert fs[j] in fs;
        var i :| 1 <= i < |rs| && rs[i] == fs[j];
      }
    }
  }

  lemma ArriveFifo(cfg: Config, m: string, c: int, k: real, st: State, clock: real, now: real, r: Request)
    requires OneModel(cfg, m, c) && FifoState(cfg, m, c, k, st, clock) && Plain(cfg, m, k, r)
    requires clock <= r.enqueuedAt <= now
    ensures FifoState(cfg, m, c, k, st.(queue := st.queue + [Fresh(r)]), now)
    ensures Reqs(st.queue + [Fresh(r)]) == st.Waiting() + [r]
  {
    ReqsAppend(st.queue, Fresh(r));
    assert forall i :: 0 <= i < |st.Waiting()| ==> st.Waiting()[i] in st.Waiting();
  }

  lemma CancelFifo(cfg: Config, m: string, c: int, k: real, st: State, clock: real, now: real, r: Request)
    requires FifoState(cfg, m, c, k, st, clock) && clock <= now && NoDup(st.Waiting())
    ensures FifoState(cfg, m, c, k, Withdrawn(cfg, st, r), now)
    ensures Withdrawn(cfg, st, r).Waiting() == Filter(st.Waiting(), Except(r))
  {
    WithoutReqs(st.queue, r);
    hide Without, NoDup;
    FilterMembers(st.Waiting(), Except(r));
    FilterOrder(st.Waiting(), Except(r));
    hide Filter, InArrivalOrder, Plain;
  }

  lemma FinishFifo(cfg: Config, m: string, c: int, k: real, st: State, clock: real, now: real, r: Request)
    requires OneModel(cfg, m, c) && FifoState(cfg, m, c, k, st, clock) && Plain(cfg, m, k, r) && clock <= now
    requires var s := Refunded(cfg, st, m, r.cost);
             s.Used(cfg.Pool(m)) == st.Used(cfg.Pool(m)) - r.cost && s.InFlight(m) == st.InFlight(m) - 1 >= 0
    ensures FifoState(cfg, m, c, k, Refunded(cfg, st, m, r.cost), now)
    ensures Refunded(cfg, st, m, r.cost).Waiting() == st.Waiting()
  {
    Fraction(st.InFlight(m) - 1, c);
  }

  lemma PlainFitsPool(cfg: Config, m: string, c: int, k: real, r: Request)
    requires OneModel(cfg, m, c) && Plain(cfg, m, k, r)
    ensures CostFitsPool(cfg, r)
  {}

  lemma PrepareFifo(cfg: Config, m: string, c: int, k: real, w: World, e: Event, sem: Semaphore)
    requires OneModel(cfg, m, c) && FifoState(cfg, m, c, k, w.st, w.clock) && Simulates(m, c, w.st, sem)
    requires Good(cfg, w) && Enabled(w, e) && Plain(cfg, m, k, e.r)
    ensures Prepare(cfg, w, e).Some?
    ensures FifoState(cfg, m, c, k, Prepare(cfg, w, e).value, e.now)
    ensures Simulates(m, c, Prepare(cfg, w, e).value, SemPrepare(sem, e))
  {
    match e
    case Arrive(r, now) =>
      PlainFitsPool(cfg, m, c, k, r);
      ArriveFifo(cfg, m, c, k, w.st, w.clock, now, r);
      hide Good, FifoState, OneModel, Plain;
    case Cancel(r, now) =>
      CancelFifo(cfg, m, c, k, w.st, w.clock, now, r);
      hide Good, FifoState, OneModel, Plain;
    case Finish(r, now) =>
      ReleaseClampsInert(cfg, w, r);
      CountMembers(w.running, m);
      FinishFifo(cfg, m, c, k, w.st, w.clock, now, r);
      hide Good, FifoState, OneModel;
  }

  /** FIFO refinement: for every run of plain requests, the scheduler admits the same waiters in the
      same order as the semaphore, and the same ones are left waiting. */
  lemma {:induction false} FifoRefinement(
    cfg: Config, m: string, c: int, k: real, w: World, evs: seq<Event>, sem: Semaphore)
    requires OneModel(cfg, m, c) && FifoState(cfg, m, c, k, w.st, w.clock) && Simulates(m, c, w.st, sem)
    requires Good(cfg, w) && Valid(cfg, w, evs)
    requires forall e :: e in evs ==> Plain(cfg, m, k, e.r)
    ensures Admitted(Log(cfg, w, evs)) == SemLog(sem, evs)
    ensures SemAfter(sem, evs).queue == After(cfg, w, evs).st.Waiting()
    ensures SemAfter(sem, evs).free == c - After(cfg, w, evs).st.InFlight(m)
    decreases |evs|
  {
    AdmittedAppend([], []);
    hide Step, Drain, Good, FifoState, OneModel, Enabled, SemPrepare, Admitted, Plain;
    if |evs| > 0 {
      var e := evs[0];
      var (w', adm) := Step(cfg, w, e);
      assert e in evs;
      StepFifo(cfg, m, c, k, w, e, sem);
      StepClock(cfg, w, e);
      StepGood(cfg, w, e);
      FifoRefinement(cfg, m, c, k, w', evs[1..], Drain(SemPrepare(sem, e)).0);
      AdmittedAppend(adm, Log(cfg, w', evs[1..]));
    }
  }

  lemma StepClock(cfg: Config, w: World, e: Event)
    ensures Step(cfg, w, e).0.clock == e.now
  {}

  lemma StepFifo(cfg: Config, m: string, c: int, k: real, w: World, e: Event, sem: Semaphore)
    requires OneModel(cfg, m, c) && FifoState(cfg, m, c, k, w.st, w.clock) && Simulates(m, c, w.st, sem)
    requires Good(cfg, w) && Enabled(w, e) && Plain(cfg, m, k, e.r)
    ensures FifoState(cfg, m, c, k, Step(cfg, w, e).0.st, e.now)
    ensures Simulates(m, c, Step(cfg, w, e).0.st, Drain(SemPrepare(sem, e)).0)
    ensures Admitted(Step(cfg, w, e).1) == Drain(SemPrepare(sem, e)).1
  {
    PrepareFifo(cfg, m, c, k, w, e, sem);
    PrepareSafe(cfg, w, e);
    StepIsPump(cfg, w, e);
    assert Orderly(Prepare(cfg, w, e).value);
    hide Good, FifoState, Simulates, OneModel, Prepare, Enabled, SemPrepare;
    PumpDrains(cfg, m, c, k, Prepare(cfg, w, e).value, e.now, SemPrepare(sem, e));
  }

  /** From an empty scheduler, against a semaphore with all `c` permits free. */
  lemma FifoFromStart(cfg: Config, m: string, c: int, k: real, clock: real, evs: seq<Event>)
    requires OneModel(cfg, m, c) && Valid(cfg, Start(clock), evs)
    requires forall e :: e in evs ==> Plain(cfg, m, k, e.r)
    ensures Admitted(Log(cfg, Start(clock), evs)) == SemLog(Semaphore(c, []), evs)
  {
    StartGood(cfg, clock);
    assert EMPTY.Waiting() == [];
    assert FifoState(cfg, m, c, k, EMPTY, clock);
    FifoRefinement(cfg, m, c, k, Start(clock), evs, Semaphore(c, []));
  }
}
