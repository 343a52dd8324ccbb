/** Runs of the scheduler: every sequence of arrivals, cancellations and completions, with the
    in-flight runs kept beside the state, and the safety that every run keeps. */
module SchedulerRuns {
  import opened Options
  import opened StableSort
  import opened SchedulerModel
  import opened SchedulerPump
  import opened SchedulerOrder

  datatype Event =
    | Arrive(r: Request, now: real)
    | Cancel(r: Request, now: real)
    | Finish(r: Request, now: real)  // an in-flight run completes; its charged cost is refunded

  /** `running` lists the admitted requests that have not been released. */
  datatype World = World(st: State, running: seq<Request>, clock: real)

  function Admitted(adm: seq<Admission>): seq<Request> {
    seq(|adm|, i requires 0 <= i < |adm| => adm[i].req)
  }

  /** What an operation makes of the state before it pumps; `None` for a rejected arrival. */
  function Prepare(cfg: Config, w: World, e: Event): Option<State> {
    match e
    case Arrive(r, now) =>
      if CostFitsPool(cfg, r) then Some(w.st.(queue := w.st.queue + [Fresh(r)])) else None
    case Cancel(r, now) => Some(Withdrawn(cfg, w.st, r))
    case Finish(r, now) => Some(Refunded(cfg, w.st, r.model, r.cost))
  }

  function StillRunning(w: World, e: Event): seq<Request> {
    if e.Finish? then Filter(w.running, Except(e.r)) else w.running
  }

  function StepState(cfg: Config, w: World, e: Event): (State, seq<Admission>) {
    match e
    case Arrive(r, now) => Enqueue(cfg, w.st, r, now)
    case Cancel(r, now) => Withdraw(cfg, w.st, r, now)
    case Finish(r, now) => Release(cfg, w.st, r.model, Some(r.cost), now)
  }

  function Step(cfg: Config, w: World, e: Event): (World, seq<Admission>) {
    var (st, adm) := StepState(cfg, w, e);
    (World(st, StillRunning(w, e) + Admitted(adm), e.now), adm)
  }

  /** What the callers guarantee: the clock does not run backwards, costs are positive, a waiter is
      enqueued once, and only an in-flight run completes. */
  predicate Enabled(w: World, e: Event) {
    && w.clock <= e.now
    && match e
       case Arrive(r, now) =>
         && r.cost > 0.0 && w.clock <= r.enqueuedAt <= now
         && r !in w.st.Waiting() && r !in w.running
       case Cancel(_, _) => true
       case Finish(r, _) => r in w.running
  }

  function After(cfg: Config, w: World, evs: seq<Event>): World
    decreases |evs|
  {
    if |evs| == 0 then w else After(cfg, Step(cfg, w, evs[0]).0, evs[1..])
  }

  /** All admissions of a run, in order. */
  function Log(cfg: Config, w: World, evs: seq<Event>): seq<Admission>
    decreases |evs|
  {
    if |evs| == 0 then []
    else Step(cfg, w, evs[0]).1 + Log(cfg, Step(cfg, w, evs[0]).0, evs[1..])
  }

  predicate Valid(cfg: Config, w: World, evs: seq<Event>)
    decreases |evs|
  {
    |evs| == 0 || (Enabled(w, evs[0]) && Valid(cfg, Step(cfg, w, evs[0]).0, evs[1..]))
  }

  function Start(clock: real): World {
    World(EMPTY, [], clock)
  }

  // ---- ledgers ----

  function SumCost(cfg: Config, rs: seq<Request>, p: string): real {
    if |rs| == 0 then 0.0
    else (if cfg.Pool(rs[0].model) == p then rs[0].cost else 0.0) + SumCost(cfg, rs[1..], p)
  }

  function Count(rs: seq<Request>, m: string): nat {
    if |rs| == 0 then 0 else (if rs[0].model == m then 1 else 0) + Count(rs[1..], m)
  }

  lemma {:induction false} SumAppend(cfg: Config, a: seq<Request>, b: seq<Request>, p: string, m: string)
    ensures SumCost(cfg, a + b, p) == SumCost(cfg, a, p) + SumCost(cfg, b, p)
    ensures Count(a + b, m) == Count(a, m) + Count(b, m)
  {
    if |a| == 0 {
      assert a + b == b;
    } else {
      SumAppend(cfg, a[1..], b, p, m);
      assert (a + b)[1..] == a[1..] + b;
    }
  }

  lemma {:induction false} SumExcept(cfg: Config, rs: seq<Request>, r: Request, p: string, m: string)
    requires NoDup(rs) && r in rs
    ensures SumCost(cfg, Filter(rs, Except(r)), p) ==
            SumCost(cfg, rs, p) - if cfg.Pool(r.model) == p then r.cost else 0.0
    ensures Count(Filter(rs, Except(r)), m) == Count(rs, m) - if r.model == m then 1 else 0
  {
    if rs[0] == r {
      FilterAll(rs[1..], Except(r));
    } else {
      SumExcept(cfg, rs[1..], r, p, m);
    }
  }

  lemma {:induction false} SumNonNegative(cfg: Config, rs: seq<Request>, p: string)
    requires forall r :: r in rs ==> r.cost > 0.0
    ensures SumCost(cfg, rs, p) >= 0.0
    ensures forall r :: r in rs && cfg.Pool(r.model) == p ==> SumCost(cfg, rs, p) >= r.cost
  {
    if |rs| > 0 {
      SumNonNegative(cfg, rs[1..], p);
    }
  }

  lemma {:induction false} CountMembers(rs: seq<Request>, m: string)
    ensures Count(rs, m) > 0 <==> exists r :: r in rs && r.model == m
  {
    if |rs| > 0 {
      CountMembers(rs[1..], m);
      assert rs == [rs[0]] + rs[1..];
      if rs[0].model == m {
        assert rs[0] in rs;
      }
    }
  }

  lemma {:induction false} SumOfNone(cfg: Config, rs: seq<Request>, p: string)
    requires forall r :: r in rs ==> cfg.Pool(r.model) != p
    ensures SumCost(cfg, rs, p) == 0.0
  {
    if |rs| > 0 {
      SumOfNone(cfg, rs[1..], p);
    }
  }

  /** Every pool's ledger is the sum of the charged costs of its in-flight runs, every count is
      the number of runs of that model. */
  ghost predicate Ledger(cfg: Config, st: State, running: seq<Request>) {
    && (forall p :: st.Used(p) == SumCost(cfg, running, p))
    && (forall m :: st.InFlight(m) == Count(running, m))
  }

  /** Budgets, caps and the exclusive mutex bind. */
  ghost predicate Bounded(cfg: Config, st: State, running: seq<Request>) {
    && (forall r :: r in running ==> st.Used(cfg.Pool(r.model)) <= cfg.Budget(cfg.Pool(r.model)) + EPS)
    && (forall r :: r in running && r.model in cfg.caps ==> st.InFlight(r.model) <= cfg.caps[r.model])
    && (forall r, s | r in running && s in running && cfg.Pool(r.model) == cfg.Pool(s.model)
                      && cfg.Pool(r.model) in cfg.poolExclusive :: r.model == s.model)
  }

  ghost predicate Tidy(cfg: Config, st: State, running: seq<Request>, now: real) {
    && NoDup(st.Waiting()) && NoDup(running)
    && (forall r :: r in st.Waiting() ==> r !in running)
    && (forall r :: r in st.Waiting() ==> r.cost > 0.0 && r.enqueuedAt <= now && CostFitsPool(cfg, r))
    && (forall r :: r in running ==> r.cost > 0.0 && r.enqueuedAt <= now)
  }

  ghost predicate Safe(cfg: Config, st: State, running: seq<Request>, now: real) {
    Ledger(cfg, st, running) && Bounded(cfg, st, running) && Tidy(cfg, st, running, now)
  }

  /** The reservable budget never exceeds the pool's budget. */
  lemma ReservableAtMostBudget(cfg: Config, st: State, now: real, p: string)
    requires forall r :: r in st.Waiting() ==> r.cost > 0.0
    ensures Reservable(cfg, st, now, p) <= cfg.Budget(p)
  {
    HeadProps(cfg, st, now, p);
  }

  lemma AdmitLedger(cfg: Config, st: State, running: seq<Request>, r: Request)
    requires Ledger(cfg, st, running)
    ensures Ledger(cfg, Admit(cfg, st, r), running + [r])
  {
    var st' := Admit(cfg, st, r);
    forall p ensures st'.Used(p) == SumCost(cfg, running + [r], p) {
      SumAppend(cfg, running, [r], p, r.model);
      assert [r][1..] == [];
    }
    forall m ensures st'.InFlight(m) == Count(running + [r], m) {
      SumAppend(cfg, running, [r], cfg.Pool(r.model), m);
      assert [r][1..] == [];
    }
  }

  lemma AdmitBounded(cfg: Config, st: State, running: seq<Request>, r: Request)
    requires Ledger(cfg, st, running) && Bounded(cfg, st, running)
    requires Fits(cfg, st, r, cfg.Budget(cfg.Pool(r.model)))
    ensures Bounded(cfg, Admit(cfg, st, r), running + [r])
  {
    if cfg.Pool(r.model) in cfg.poolExclusive {
      OneActiveMember(cfg, st, running, r);
    }
  }

  lemma OneActiveMember(cfg: Config, st: State, running: seq<Request>, r: Request)
    requires Ledger(cfg, st, running) && Bounded(cfg, st, running)
    requires cfg.Pool(r.model) in cfg.poolExclusive && !ExclusionBlocks(cfg, st, r)
    ensures forall s :: s in running && cfg.Pool(s.model) == cfg.Pool(r.model) ==> s.model == r.model
  {
    var p := cfg.Pool(r.model);
    ActiveMembersExact(cfg, st, p);
    forall s | s in running && cfg.Pool(s.model) == p ensures s.model == r.model {
      CountMembers(running, s.model);
      assert s.model in ActiveMembers(cfg, st, p);
      CountMembers(running, r.model);
    }
  }

  lemma AdmitTidy(cfg: Config, st: State, running: seq<Request>, now: real, r: Request)
    requires Tidy(cfg, st, running, now) && r in st.Waiting()
    ensures Tidy(cfg, Admit(cfg, st, r), running + [r], now)
  {
    WithoutReqs(st.queue, r);
    FilterMembers(st.Waiting(), Except(r));
    assert Admit(cfg, st, r).Waiting() == Filter(st.Waiting(), Except(r));
  }

  lemma SafeCore(cfg: Config, a: State, b: State, running: seq<Request>, now: real)
    requires Safe(cfg, a, running, now) && SameCore(a, b)
    ensures Safe(cfg, b, running, now)
  {}

  lemma AdmitSafe(cfg: Config, st: State, running: seq<Request>, now: real, r: Request)
    requires Safe(cfg, st, running, now) && r in st.Waiting() && Admittable(cfg, st, now, r)
    ensures Safe(cfg, Admit(cfg, st, r), running + [r], now)
  {
    ReservableAtMostBudget(cfg, st, now, cfg.Pool(r.model));
    AdmitLedger(cfg, st, running, r);
    AdmitBounded(cfg, st, running, r);
    AdmitTidy(cfg, st, running, now, r);
  }

  lemma PassSafe(cfg: Config, st: State, running: seq<Request>, now: real)
    requires Safe(cfg, st, running, now)
    ensures var pass := OnePass(cfg, st, now);
            Safe(cfg, pass.st, if pass.Admits? then running + [pass.admission.req] else running, now)
  {
    var s1 := Reserve(cfg, st, now);
    ReserveKeepsWaiting(cfg, st, now);
    SafeCore(cfg, st, s1, running, now);
    match FirstFit(cfg, s1, now)
    case None =>
      RecordKeeps(cfg, s1);
      SafeCore(cfg, s1, RecordWaits(cfg, s1), running, now);
    case Some(r) =>
      AdmitSafe(cfg, s1, running, now, r);
  }

  lemma AdmittedCons(running: seq<Request>, a: Admission, rest: seq<Admission>)
    ensures running + Admitted([a] + rest) == running + [a.req] + Admitted(rest)
  {}

  lemma AdmittedNone(running: seq<Request>)
    ensures running + Admitted([]) == running
  {}

  /** The admit loop keeps the ledgers exact and the bounds, whatever it admits. */
  lemma {:induction false} PumpSafe(cfg: Config, st: State, running: seq<Request>, now: real)
    requires Safe(cfg, st, running, now)
    ensures Safe(cfg, Pump(cfg, st, now).0, running + Admitted(Pump(cfg, st, now).1), now)
    decreases |st.queue|
  {
    PassSafe(cfg, st, running, now);
    hide Safe, OnePass, Admitted;
    match OnePass(cfg, st, now)
    case Idle(s) =>
      AdmittedNone(running);
    case Admits(s, a) =>
      PumpSafe(cfg, s, running + [a.req], now);
      AdmittedCons(running, a, Pump(cfg, s, now).1);
  }

  lemma AdmitMoves(cfg: Config, st: State, now: real, x: Request)
    requires NoDup(st.Waiting())
    ensures var pass := OnePass(cfg, st, now);
            && NoDup(pass.st.Waiting())
            && (x in st.Waiting() <==> x in pass.st.Waiting() || (pass.Admits? && x == pass.admission.req))
  {
    var s1 := Reserve(cfg, st, now);
    ReserveKeepsWaiting(cfg, st, now);
    match FirstFit(cfg, s1, now)
    case None => RecordKeeps(cfg, s1);
    case Some(r) =>
      WithoutReqs(s1.queue, r);
      FilterMembers(s1.Waiting(), Except(r));
      hide Reserve, FirstFit, Without, RecordWaits, NoDup;
      assert |st.queue| == |st.Waiting()|;
  }

  /** The admit loop moves waiters to the admissions and loses nobody. */
  lemma {:induction false} PumpMoves(cfg: Config, st: State, now: real, x: Request)
    requires NoDup(st.Waiting())
    ensures x in st.Waiting() <==> x in Pump(cfg, st, now).0.Waiting() || x in Admitted(Pump(cfg, st, now).1)
    decreases |st.queue|
  {
    AdmitMoves(cfg, st, now, x);
    AdmittedOneMore(x);
    hide OnePass, State.Waiting, NoDup, Admitted;
    match OnePass(cfg, st, now)
    case Idle(s) =>
    case Admits(s, a) => PumpMoves(cfg, s, now, x);
  }

  lemma AdmittedOneMore(x: Request)
    ensures x !in Admitted([])
    ensures forall a, rest :: x in Admitted([a] + rest) <==> x == a.req || x in Admitted(rest)
  {
    forall a, rest ensures x in Admitted([a] + rest) <==> x == a.req || x in Admitted(rest) {
      assert Admitted([a] + rest) == [a.req] + Admitted(rest);
    }
  }

  /** Whoever leaves the queue, admitted or withdrawn, takes its own reservation along and nobody else's. */
  lemma LeavesNoReservation(cfg: Config, st: State, st': State, r: Request, p: string)
    requires st' == Admit(cfg, st, r) || st' == Withdrawn(cfg, st, r)
    ensures st'.ReservedFor(p) ==
            if st.ReservedFor(p) == Some(r) && p == cfg.Pool(r.model) then None else st.ReservedFor(p)
  {}

  /** Whatever is released, a ledger and a count stop at zero. */
  lemma RefundStopsAtZero(cfg: Config, st: State, model: string, cost: real)
    ensures var st', p := Refunded(cfg, st, model, cost), cfg.Pool(model);
            && st'.Used(p) == (if cost <= st.Used(p) then st.Used(p) - cost else 0.0)
            && st'.InFlight(model) == (if st.InFlight(model) > 0 then st.InFlight(model) - 1 else 0)
  {}

  /** A release without a cost is the completion of a run charged at base cost. */
  lemma ReleaseAtBaseCost(cfg: Config, w: World, r: Request, now: real)
    requires r.cost == cfg.Cost(r.model)
    ensures Release(cfg, w.st, r.model, None, now) == StepState(cfg, w, Finish(r, now))
  {}

  /** The two clamps to zero in a release never take effect on an in-flight run. */
  lemma ReleaseClampsInert(cfg: Config, w: World, r: Request)
    requires Safe(cfg, w.st, w.running, w.clock) && r in w.running
    ensures var st := Refunded(cfg, w.st, r.model, r.cost);
            && st.Used(cfg.Pool(r.model)) == w.st.Used(cfg.Pool(r.model)) - r.cost
            && st.InFlight(r.model) == w.st.InFlight(r.model) - 1
  {
    SumNonNegative(cfg, w.running, cfg.Pool(r.model));
    CountMembers(w.running, r.model);
  }

  lemma PrepareSafe(cfg: Config, w: World, e: Event)
    requires Safe(cfg, w.st, w.running, w.clock) && Enabled(w, e)
    ensures Prepare(cfg, w, e).Some? ==> Safe(cfg, Prepare(cfg, w, e).value, StillRunning(w, e), e.now)
  {
    match e
    case Arrive(r, now) =>
      ReqsAppend(w.st.queue, Fresh(r));
    case Cancel(r, now) =>
      WithoutReqs(w.st.queue, r);
      FilterMembers(w.st.Waiting(), Except(r));
      assert Withdrawn(cfg, w.st, r).Waiting() == Filter(w.st.Waiting(), Except(r));
    case Finish(r, now) =>
      FinishSafe(cfg, w, r, now);
  }

  lemma FinishSafe(cfg: Config, w: World, r: Request, now: real)
    requires Safe(cfg, w.st, w.running, w.clock) && r in w.running && w.clock <= now
    ensures Safe(cfg, Refunded(cfg, w.st, r.model, r.cost), Filter(w.running, Except(r)), now)
  {
    var st, running := Refunded(cfg, w.st, r.model, r.cost), Filter(w.running, Except(r));
    ReleaseClampsInert(cfg, w, r);
    FilterMembers(w.running, Except(r));
    FilterNoDup(w.running, Except(r));
    forall p ensures st.Used(p) == SumCost(cfg, running, p) && st.Used(p) <= w.st.Used(p) {
      SumExcept(cfg, w.running, r, p, r.model);
    }
    forall m ensures st.InFlight(m) == Count(running, m) && st.InFlight(m) <= w.st.InFlight(m) {
      SumExcept(cfg, w.running, r, cfg.Pool(r.model), m);
    }
    assert st.Waiting() == w.st.Waiting();
  }

  /** Between operations: safe, and settled at the time of the last one. */
  ghost predicate Good(cfg: Config, w: World) {
    Safe(cfg, w.st, w.running, w.clock) && Settled(cfg, w.st, w.clock)
  }

  lemma StepIsPump(cfg: Config, w: World, e: Event)
    ensures StepState(cfg, w, e) ==
            match Prepare(cfg, w, e) case Some(st) => Pump(cfg, st, e.now) case None => (w.st, [])
  {}

  lemma StepGood(cfg: Config, w: World, e: Event)
    requires Good(cfg, w) && Enabled(w, e)
    ensures Good(cfg, Step(cfg, w, e).0)
  {
    StepIsPump(cfg, w, e);
    PrepareSafe(cfg, w, e);
    match Prepare(cfg, w, e)
    case Some(st) =>
      PumpSafe(cfg, st, StillRunning(w, e), e.now);
      PumpSettles(cfg, st, e.now);
    case None =>
      assert Admitted([]) == [];
      assert w.running + [] == w.running;
      RepumpIsIdle(cfg, w.st, w.clock, e.now);
  }

  lemma StartGood(cfg: Config, clock: real)
    ensures Good(cfg, Start(clock))
  {}

  /** Safety of every run: exact ledgers, `used <= B + EPS`, `in_flight <= cap`, one active member
      per exclusive pool, and a settled state after every operation. */
  lemma {:induction false} EveryRunIsGood(cfg: Config, w: World, evs: seq<Event>)
    requires Good(cfg, w) && Valid(cfg, w, evs)
    ensures Good(cfg, After(cfg, w, evs))
    decreases |evs|
  {
    hide Good, Step, Enabled;
    if |evs| > 0 {
      StepGood(cfg, w, evs[0]);
      EveryRunIsGood(cfg, Step(cfg, w, evs[0]).0, evs[1..]);
    }
  }
}
