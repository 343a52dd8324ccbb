/** What a settled scheduler looks like, and that it always makes progress: no pool with waiters
    is idle, and a head blocked by budget alone waits for a bounded number of completions. */
module SchedulerProgress {
  import opened Options
  import opened StableSort
  import opened SchedulerModel
  import opened SchedulerPump
  import opened SchedulerOrder
  import opened SchedulerRuns

  // ---- the exact fixed point ----

  /** The state of one pool when nothing more can be admitted. */
  ghost predicate PoolAtRest(cfg: Config, st: State, now: real, p: string) {
    match Head(cfg, st, now, p)
    case None => st.ReservedFor(p) == None
    case Some(h) =>
      if BudgetBlocked(cfg, st, h) then
        && st.ReservedFor(p) == Some(h)
        && forall r: Request | r.cost > 0.0 && cfg.Pool(r.model) == p :: !Fits(cfg, st, r, cfg.Budget(p) - h.cost)
      else
        && st.ReservedFor(p) == None
        && forall r | r in st.Waiting() && cfg.Pool(r.model) == p ::
             CapFull(cfg, st, r) || ExclusionBlocks(cfg, st, r) || st.Used(p) + r.cost > cfg.Budget(p) + EPS
  }

  /** Exact fixed point: in a settled state `p` is reserved for its head exactly when that head is
      blocked by budget alone, and then nothing of positive cost fits `p` at all; otherwise every
      waiter of `p` is cap-full, shut out by the mutex, or over the raw remaining budget. */
  lemma SettledAtRest(cfg: Config, st: State, now: real, p: string)
    requires forall r :: r in st.Waiting() ==> r.cost > 0.0
    requires Settled(cfg, st, now)
    ensures PoolAtRest(cfg, st, now, p)
  {
    SettledParts(cfg, st, now);
    ReserveFor(cfg, st, now, p);
    HeadProps(cfg, st, now, p);
    assert BlockedHead(cfg, st, now, p) == st.ReservedFor(p);
    forall r | r in st.Waiting() ensures !Admittable(cfg, st, now, r) {}
  }

  /** Conversely, when every pool is at rest and the marks are up to date, the loop is at its fixed point. */
  lemma AtRestSettled(cfg: Config, st: State, now: real)
    requires forall r :: r in st.Waiting() ==> r.cost > 0.0
    requires forall p :: PoolAtRest(cfg, st, now, p)
    requires PoolsWithWaiters(cfg, st) <= st.reserved.Keys
    requires ReserveMarks(cfg, st, now) == st.queue && RecordWaits(cfg, st) == st
    ensures Settled(cfg, st, now)
  {
    forall r | r in st.Waiting() ensures !Admittable(cfg, st, now, r) {
      assert PoolAtRest(cfg, st, now, cfg.Pool(r.model));
      HeadProps(cfg, st, now, cfg.Pool(r.model));
    }
    assert FirstFit(cfg, st, now) == None;
    forall p | p in st.reserved ensures st.reserved[p] == BlockedHead(cfg, st, now, p) {
      assert PoolAtRest(cfg, st, now, p);
      HeadProps(cfg, st, now, p);
    }
    hide PoolAtRest, BlockedHead, FirstFit;
    assert Reserve(cfg, st, now).reserved == st.reserved;
    SettledParts(cfg, st, now);
  }

  lemma {:induction false} HeadIsTriedFirst(xs: seq<Request>, p: Request -> bool, q: Request -> bool)
    requires FirstWhere(xs, p).Some? && q(FirstWhere(xs, p).value)
    requires FirstWhere(xs, q).Some? && p(FirstWhere(xs, q).value)
    ensures FirstWhere(xs, q) == FirstWhere(xs, p)
  {
    if !p(xs[0]) && !q(xs[0]) {
      HeadIsTriedFirst(xs[1..], p, q);
    }
  }

  /** A waiter overtakes its pool's head only if the head is cap-full or shut out by the mutex. */
  lemma OvertakesOnlyIfHeadStuck(cfg: Config, st: State, now: real, p: string, h: Request, r: Request)
    requires forall x :: x in st.Waiting() ==> x.cost > 0.0
    requires Head(cfg, st, now, p) == Some(h)
    requires FirstFit(cfg, st, now) == Some(r) && cfg.Pool(r.model) == p && r != h
    ensures CapFull(cfg, st, h) || ExclusionBlocks(cfg, st, h)
  {
    HeadProps(cfg, st, now, p);
    if Admittable(cfg, st, now, h) {
      FirstWhereProps(Ordered(cfg, st.Waiting(), now), AdmittableIn(cfg, st, now));
      HeadIsTriedFirst(Ordered(cfg, st.Waiting(), now), InPool(cfg, p), AdmittableIn(cfg, st, now));
    }
  }

  // ---- deadlock freedom ----

  ghost predicate CapsPositive(cfg: Config) {
    forall m :: m in cfg.caps ==> cfg.caps[m] >= 1
  }

  lemma NoneInFlight(cfg: Config, st: State, running: seq<Request>, h: Request)
    requires Ledger(cfg, st, running) && CapsPositive(cfg) && CostFitsPool(cfg, h)
    requires forall r :: r in running ==> cfg.Pool(r.model) != cfg.Pool(h.model)
    ensures Fits(cfg, st, h, cfg.Budget(cfg.Pool(h.model)))
  {
    var p := cfg.Pool(h.model);
    SumOfNone(cfg, running, p);
    ActiveMembersExact(cfg, st, p);
    forall m | cfg.Pool(m) == p ensures st.InFlight(m) == 0 {
      CountMembers(running, m);
    }
    assert ActiveMembers(cfg, st, p) == {};
  }

  /** After any operation, a pool with waiters has something in flight. */
  lemma NoDeadlock(cfg: Config, w: World, r: Request)
    requires Good(cfg, w) && CapsPositive(cfg) && r in w.st.Waiting()
    ensures exists s :: s in w.running && cfg.Pool(s.model) == cfg.Pool(r.model)
  {
    var p := cfg.Pool(r.model);
    if forall s :: s in w.running ==> cfg.Pool(s.model) != p {
      HeadProps(cfg, w.st, w.clock, p);
      var h := Head(cfg, w.st, w.clock, p).value;
      NoneInFlight(cfg, w.st, w.running, h);
      SettledAtRest(cfg, w.st, w.clock, p);
    }
  }

  // ---- no starvation of a budget-blocked head ----

  lemma AgreeTransitive(cfg: Config, a: State, b: State, c: State, p: string)
    requires AgreeIn(cfg, a, b, p) && AgreeIn(cfg, b, c, p)
    ensures AgreeIn(cfg, a, c, p)
  {}

  lemma SameCoreAgrees(cfg: Config, a: State, b: State, p: string)
    requires SameCore(a, b)
    ensures AgreeIn(cfg, a, b, p)
  {}

  /** Admitting a waiter of one pool leaves every other pool as it was. */
  lemma AdmitElsewhere(cfg: Config, st: State, r: Request, p: string)
    requires NoDup(st.Waiting()) && cfg.Pool(r.model) != p
    ensures AgreeIn(cfg, Admit(cfg, st, r), st, p)
  {
    WithoutReqs(st.queue, r);
    FilterTwice(st.Waiting(), Except(r), InPool(cfg, p));
  }

  ghost predicate Orderly(st: State) {
    NoDup(st.Waiting()) && forall r :: r in st.Waiting() ==> r.cost > 0.0
  }

  lemma PassKeepsOrderly(cfg: Config, st: State, now: real)
    requires Orderly(st)
    ensures Orderly(OnePass(cfg, st, now).st)
  {
    var s1 := Reserve(cfg, st, now);
    ReserveKeepsWaiting(cfg, st, now);
    RecordKeeps(cfg, s1);
    match FirstFit(cfg, s1, now)
    case None =>
    case Some(r) =>
      WithoutReqs(s1.queue, r);
      FilterMembers(s1.Waiting(), Except(r));
      assert OnePass(cfg, st, now).st.Waiting() == Filter(s1.Waiting(), Except(r));
  }

  /** One pass, seen from a pool whose head `h` has a free cap slot and no mutex against it: the
      pass admits `h`, or touches only other pools, or is the last one and `h` is blocked by budget. */
  lemma PassSeenFromHead(cfg: Config, st: State, now: real, h: Request)
    requires Orderly(st) && Head(cfg, st, now, cfg.Pool(h.model)) == Some(h)
    requires !CapFull(cfg, st, h) && !ExclusionBlocks(cfg, st, h)
    ensures var p, pass := cfg.Pool(h.model), OnePass(cfg, st, now);
            if pass.Admits? && cfg.Pool(pass.admission.req.model) == p
            then pass.admission.req == h && !BudgetBlocked(cfg, st, h)
            else AgreeIn(cfg, pass.st, st, p) && (pass.Idle? ==> BudgetBlocked(cfg, st, h))
  {
    var p, s1 := cfg.Pool(h.model), Reserve(cfg, st, now);
    ReserveKeepsWaiting(cfg, st, now);
    SameCoreAt(cfg, s1, st, now, p);
    AgreeBlocks(cfg, s1, st, h);
    HeadProps(cfg, st, now, p);
    assert BudgetBlocked(cfg, s1, h) == BudgetBlocked(cfg, st, h);
    assert |st.queue| == |st.Waiting()| > 0;
    SameCoreAgrees(cfg, s1, st, p);
    RecordKeeps(cfg, s1);
    SameCoreAgrees(cfg, RecordWaits(cfg, s1), st, p);
    hide CapFull, ExclusionBlocks, BudgetBlocked, Head, Reserve, AgreeIn, SameCore;
    match FirstFit(cfg, s1, now)
    case None =>
      IdleHeadBlocked(cfg, s1, now, h);
    case Some(r) =>
      if cfg.Pool(r.model) == p {
        PassAdmitsHead(cfg, s1, now, h, r);
      } else {
        AdmitElsewhere(cfg, s1, r, p);
        AgreeTransitive(cfg, Admit(cfg, s1, r), s1, st, p);
      }
  }

  lemma IdleHeadBlocked(cfg: Config, st: State, now: real, h: Request)
    requires Head(cfg, st, now, cfg.Pool(h.model)) == Some(h) && h in st.Waiting()
    requires !CapFull(cfg, st, h) && !ExclusionBlocks(cfg, st, h)
    requires FirstFit(cfg, st, now) == None
    ensures BudgetBlocked(cfg, st, h)
  {}

  lemma PassAdmitsHead(cfg: Config, st: State, now: real, h: Request, r: Request)
    requires Orderly(st) && Head(cfg, st, now, cfg.Pool(h.model)) == Some(h)
    requires !CapFull(cfg, st, h) && !ExclusionBlocks(cfg, st, h)
    requires FirstFit(cfg, st, now) == Some(r) && cfg.Pool(r.model) == cfg.Pool(h.model)
    ensures r == h && !BudgetBlocked(cfg, st, h)
  {
    HeadProps(cfg, st, now, cfg.Pool(h.model));
    if r != h {
      OvertakesOnlyIfHeadStuck(cfg, st, now, cfg.Pool(h.model), h, r);
    }
  }

  // ---- along one operation ----

  function InPoolLog(cfg: Config, adm: seq<Admission>, p: string): seq<Request> {
    Filter(Admitted(adm), InPool(cfg, p))
  }

  lemma LogCons(cfg: Config, a: Admission, rest: seq<Admission>, p: string)
    ensures InPoolLog(cfg, [a] + rest, p) ==
            if cfg.Pool(a.req.model) == p then [a.req] + InPoolLog(cfg, rest, p) else InPoolLog(cfg, rest, p)
  {
    assert Admitted([a] + rest) == [a.req] + Admitted(rest);
  }

  lemma AgreeHead(cfg: Config, a: State, b: State, now: real, h: Request)
    requires AgreeIn(cfg, a, b, cfg.Pool(h.model))
    ensures Head(cfg, a, now, cfg.Pool(h.model)) == Head(cfg, b, now, cfg.Pool(h.model))
    ensures CapFull(cfg, a, h) == CapFull(cfg, b, h) && ExclusionBlocks(cfg, a, h) == ExclusionBlocks(cfg, b, h)
    ensures BudgetBlocked(cfg, a, h) == BudgetBlocked(cfg, b, h)
  {
    AgreeHeads(cfg, a, b, now, cfg.Pool(h.model));
    AgreeBlocks(cfg, a, b, h);
  }

  /** A whole pump, seen from such a head: `h` comes first of its pool, or it is blocked by budget
      and nobody of its pool is admitted. */
  lemma {:induction false} PumpSeenFromHead(cfg: Config, st: State, now: real, h: Request)
    requires Orderly(st) && Head(cfg, st, now, cfg.Pool(h.model)) == Some(h)
    requires !CapFull(cfg, st, h) && !ExclusionBlocks(cfg, st, h)
    ensures var p, out := cfg.Pool(h.model), Pump(cfg, st, now);
            if BudgetBlocked(cfg, st, h) then InPoolLog(cfg, out.1, p) == [] && AgreeIn(cfg, out.0, st, p)
            else |InPoolLog(cfg, out.1, p)| > 0 && InPoolLog(cfg, out.1, p)[0] == h
    decreases |st.queue|
  {
    var p := cfg.Pool(h.model);
    PassSeenFromHead(cfg, st, now, h);
    PassKeepsOrderly(cfg, st, now);
    hide OnePass, Orderly, Head, CapFull, ExclusionBlocks, BudgetBlocked, InPoolLog, AgreeIn;
    match OnePass(cfg, st, now)
    case Idle(s) =>
      assert InPoolLog(cfg, [], p) == [] by { LogEmpty(cfg, p); }
    case Admits(s, a) =>
      var rest := Pump(cfg, s, now).1;
      LogCons(cfg, a, rest, p);
      if cfg.Pool(a.req.model) != p {
        AgreeHead(cfg, s, st, now, h);
        PumpSeenFromHead(cfg, s, now, h);
        if BudgetBlocked(cfg, st, h) {
          AgreeTransitive(cfg, Pump(cfg, s, now).0, s, st, p);
        }
      }
  }

  lemma LogEmpty(cfg: Config, p: string)
    ensures InPoolLog(cfg, [], p) == []
  {}

  // ---- over a run ----

  function RunsIn(cfg: Config, rs: seq<Request>, p: string): nat {
    |Filter(rs, InPool(cfg, p))|
  }

  /** Completions of runs of pool `p` among the events. */
  function FinishesIn(cfg: Config, evs: seq<Event>, p: string): nat {
    if |evs| == 0 then 0
    else (if evs[0].Finish? && cfg.Pool(evs[0].r.model) == p then 1 else 0) + FinishesIn(cfg, evs[1..], p)
  }

  /** The operation neither withdraws `h` nor puts another waiter ahead of it in its pool. */
  predicate KeepsHead(cfg: Config, w: World, e: Event, h: Request) {
    && !(e.Cancel? && e.r == h)
    && match Prepare(cfg, w, e)
       case Some(st) => Head(cfg, st, e.now, cfg.Pool(h.model)) == Some(h)
       case None => true
  }

  /** `h` is never withdrawn and, until it is admitted, nobody gets ahead of it. */
  predicate StaysHead(cfg: Config, w: World, evs: seq<Event>, h: Request)
    decreases |evs|
  {
    |evs| == 0 || h !in w.st.Waiting() ||
    (KeepsHead(cfg, w, evs[0], h) && StaysHead(cfg, Step(cfg, w, evs[0]).0, evs[1..], h))
  }

  lemma ReservedIsBlockedHead(cfg: Config, w: World, h: Request)
    requires Good(cfg, w) && w.st.ReservedFor(cfg.Pool(h.model)) == Some(h)
    ensures Head(cfg, w.st, w.clock, cfg.Pool(h.model)) == Some(h) && BudgetBlocked(cfg, w.st, h)
    ensures h in w.st.Waiting()
  {
    SettledAtRest(cfg, w.st, w.clock, cfg.Pool(h.model));
    HeadProps(cfg, w.st, w.clock, cfg.Pool(h.model));
  }

  /** What has a free cap slot and no mutex against it keeps both until the operation pumps. */
  lemma PrepareKeepsFree(cfg: Config, w: World, e: Event, h: Request)
    requires Good(cfg, w) && Enabled(w, e) && Prepare(cfg, w, e).Some?
    requires !CapFull(cfg, w.st, h) && !ExclusionBlocks(cfg, w.st, h)
    ensures !CapFull(cfg, Prepare(cfg, w, e).value, h) && !ExclusionBlocks(cfg, Prepare(cfg, w, e).value, h)
  {
    var st, p := Prepare(cfg, w, e).value, cfg.Pool(h.model);
    if e.Finish? {
      ReleaseClampsInert(cfg, w, e.r);
      ActiveMembersExact(cfg, st, p);
      ActiveMembersExact(cfg, w.st, p);
      if ExclusionBlocks(cfg, st, h) {
        var m :| m in ActiveMembers(cfg, st, p);
        CountMembers(w.running, m);
        assert m in ActiveMembers(cfg, w.st, p);
        OneActiveMember(cfg, w.st, w.running, h);
      }
    } else {
      AgreeBlocks(cfg, st, w.st, h);
    }
  }

  lemma StepSeenFromHead(cfg: Config, w: World, e: Event, h: Request)
    requires Good(cfg, w) && Enabled(w, e) && KeepsHead(cfg, w, e, h)
    requires w.st.ReservedFor(cfg.Pool(h.model)) == Some(h)
    ensures var (w', adm) := Step(cfg, w, e);
            var p := cfg.Pool(h.model);
            if |InPoolLog(cfg, adm, p)| > 0 then InPoolLog(cfg, adm, p)[0] == h
            else w'.st.ReservedFor(p) == Some(h)
  {
    var p := cfg.Pool(h.model);
    StepIsPump(cfg, w, e);
    ReservedIsBlockedHead(cfg, w, h);
    LogEmpty(cfg, p);
    match Prepare(cfg, w, e)
    case None =>
    case Some(st) =>
      PrepareKeepsFree(cfg, w, e, h);
      PrepareSafe(cfg, w, e);
      PumpSeenFromHead(cfg, st, e.now, h);
      StepGood(cfg, w, e);
      var end := Pump(cfg, st, e.now).0;
      if BudgetBlocked(cfg, st, h) {
        AgreeHead(cfg, end, st, e.now, h);
        SettledAtRest(cfg, end, e.now, p);
      }
  }

  lemma {:induction false} RunsExcept(cfg: Config, rs: seq<Request>, r: Request, p: string)
    requires NoDup(rs) && r in rs
    ensures RunsIn(cfg, Filter(rs, Except(r)), p) == RunsIn(cfg, rs, p) - if cfg.Pool(r.model) == p then 1 else 0
  {
    if rs[0] == r {
      FilterAll(rs[1..], Except(r));
    } else {
      RunsExcept(cfg, rs[1..], r, p);
    }
  }

  lemma RunsAfterStep(cfg: Config, w: World, e: Event, p: string)
    requires Good(cfg, w) && Enabled(w, e)
    ensures RunsIn(cfg, Step(cfg, w, e).0.running, p) ==
            RunsIn(cfg, w.running, p) - FinishesIn(cfg, [e], p) + |InPoolLog(cfg, Step(cfg, w, e).1, p)|
  {
    assert [e][1..] == [];
    FilterAppend(StillRunning(w, e), Admitted(Step(cfg, w, e).1), InPool(cfg, p));
    if e.Finish? {
      RunsExcept(cfg, w.running, e.r, p);
    }
  }

  lemma LogAppend(cfg: Config, a: seq<Admission>, b: seq<Admission>, p: string)
    ensures InPoolLog(cfg, a + b, p) == InPoolLog(cfg, a, p) + InPoolLog(cfg, b, p)
  {
    assert Admitted(a + b) == Admitted(a) + Admitted(b);
    FilterAppend(Admitted(a), Admitted(b), InPool(cfg, p));
  }

  lemma BlockedMeansBusy(cfg: Config, w: World, h: Request)
    requires Good(cfg, w) && CapsPositive(cfg)
    requires w.st.ReservedFor(cfg.Pool(h.model)) == Some(h)
    ensures RunsIn(cfg, w.running, cfg.Pool(h.model)) > 0
  {
    ReservedIsBlockedHead(cfg, w, h);
    NoDeadlock(cfg, w, h);
    FilterMembers(w.running, InPool(cfg, cfg.Pool(h.model)));
  }

  /** No starvation of a budget-blocked head: while the reserved head `h` of a pool with `n` runs in
      flight keeps its place, nobody of its pool is admitted before it, and it is admitted by the
      `n`-th completion in its pool. */
  lemma {:induction false} ReservedHeadIsServed(cfg: Config, w: World, evs: seq<Event>, h: Request)
    requires Good(cfg, w) && CapsPositive(cfg) && Valid(cfg, w, evs)
    requires w.st.ReservedFor(cfg.Pool(h.model)) == Some(h) && StaysHead(cfg, w, evs, h)
    ensures var p, log := cfg.Pool(h.model), InPoolLog(cfg, Log(cfg, w, evs), cfg.Pool(h.model));
            && (|log| > 0 ==> log[0] == h)
            && (FinishesIn(cfg, evs, p) >= RunsIn(cfg, w.running, p) ==> |log| > 0)
    decreases |evs|
  {
    var p := cfg.Pool(h.model);
    BlockedMeansBusy(cfg, w, h);
    LogEmpty(cfg, p);
    if |evs| > 0 {
      ReservedIsBlockedHead(cfg, w, h);
      var e := evs[0];
      var (w', adm) := Step(cfg, w, e);
      StepSeenFromHead(cfg, w, e, h);
      StepGood(cfg, w, e);
      RunsAfterStep(cfg, w, e, p);
      LogAppend(cfg, adm, Log(cfg, w', evs[1..]), p);
      assert FinishesIn(cfg, [e], p) + FinishesIn(cfg, evs[1..], p) == FinishesIn(cfg, evs, p) by {
        assert [e][1..] == [];
      }
      if |InPoolLog(cfg, adm, p)| == 0 {
        ReservedHeadIsServed(cfg, w', evs[1..], h);
      }
    }
  }
}
