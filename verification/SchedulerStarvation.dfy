/** Which waiting is bounded and which is not: what packing leaves idle beside a reserved head, when a
    head is overtaken, when one that is stuck at its cap or shut out by the mutex gets its turn, and how
    the mutex starves one for ever. */
module SchedulerStarvation {
  import opened Options
  import opened StableSort
  import opened SchedulerModel
  import opened SchedulerPump
  import opened SchedulerOrder
  import opened SchedulerRuns
  import opened SchedulerProgress

  // ---- packing ----

  /** Exactly when the leftover budget of a pool is used: a request that fits what the running ones
      leave may be admitted if and only if the pool's head is not blocked by budget alone. */
  lemma PackingExactly(cfg: Config, st: State, now: real, r: Request)
    requires r.cost >= 0.0
    ensures var p := cfg.Pool(r.model);
            Admittable(cfg, st, now, r) <==> Fits(cfg, st, r, cfg.Budget(p)) && BlockedHead(cfg, st, now, p) == None
  {
    HeadProps(cfg, st, now, cfg.Pool(r.model));
  }

  /** A pool of unit budget without caps; exclusive if its name is in `exclusive`. */
  function UnitPool(exclusive: set<string>, agingRate: real): Config {
    Config(1.0, map[], map[], map[], map[], exclusive, map[], 1.0, 0, agingRate, None)
  }

  function Arrival(id: nat, model: string, cost: real, priority: int, at: real): Request {
    Request(id, model, cost, priority, None, at)
  }

  /** A single waiter that fits its pool is admitted by its own arrival. */
  lemma LoneArrival(cfg: Config, w: World, r: Request)
    requires Good(cfg, w) && Enabled(w, Arrive(r, r.enqueuedAt)) && w.st.Waiting() == []
    requires Fits(cfg, w.st, r, cfg.Budget(cfg.Pool(r.model))) && CostFitsPool(cfg, r)
    ensures var w' := Step(cfg, w, Arrive(r, r.enqueuedAt)).0;
            Good(cfg, w') && w'.running == w.running + [r] && w'.st.Waiting() == []
  {
    var now := r.enqueuedAt;
    var st := w.st.(queue := w.st.queue + [Fresh(r)]);
    StepGood(cfg, w, Arrive(r, now));
    ReqsAppend(w.st.queue, Fresh(r));
    HeadProps(cfg, st, now, cfg.Pool(r.model));
    AgreeBlocks(cfg, st, w.st, r);
    OnlyWaiter(cfg, st, now, r);
  }

  /** The admit loop with one waiter that fits. */
  lemma OnlyWaiter(cfg: Config, st: State, now: real, r: Request)
    requires st.Waiting() == [r] && Fits(cfg, st, r, cfg.Budget(cfg.Pool(r.model)))
    ensures Pump(cfg, st, now).0.Waiting() == [] && Admitted(Pump(cfg, st, now).1) == [r]
  {
    var s1 := Reserve(cfg, st, now);
    ReserveKeepsWaiting(cfg, st, now);
    SameCoreFirstFit(cfg, s1, st, now);
    HeadProps(cfg, st, now, cfg.Pool(r.model));
    assert Admittable(cfg, st, now, r);
    assert FirstFit(cfg, st, now) == Some(r);
    assert r == st.Waiting()[0];
    WithoutReqs(s1.queue, r);
    var s2 := OnePass(cfg, st, now).st;
    assert s2.Waiting() == Filter([r], Except(r)) == [];
    assert |s2.queue| == |s2.Waiting()|;
    assert Pump(cfg, s2, now).1 == [];
  }

  lemma FirstOfPair(cfg: Config, st: State, now: real, h: Request, x: Request)
    requires st.Waiting() == [h, x] && h != x && cfg.Pool(h.model) == cfg.Pool(x.model)
    requires LexLe(PriorityKey(cfg, now)(h), PriorityKey(cfg, now)(x))
    ensures Head(cfg, st, now, cfg.Pool(h.model)) == Some(h)
  {
    assert |st.queue| == |st.Waiting()|;
    assert st.queue[0].req == st.Waiting()[0] && st.queue[1].req == st.Waiting()[1];
    NotHead(cfg, st, now, 0, 1);
    HeadProps(cfg, st, now, cfg.Pool(h.model));
    assert h in st.Waiting();
  }

  /** With all models in one pool, an arrival that finds a budget-blocked head, or is one, only queues. */
  lemma BlockedArrival(cfg: Config, w: World, r: Request, h: Request)
    requires Good(cfg, w) && Enabled(w, Arrive(r, r.enqueuedAt)) && CostFitsPool(cfg, r) && cfg.poolOf == map[]
    requires BlockedHead(cfg, w.st.(queue := w.st.queue + [Fresh(r)]), r.enqueuedAt, DEFAULT_POOL) == Some(h)
    ensures var w' := Step(cfg, w, Arrive(r, r.enqueuedAt)).0;
            && Good(cfg, w') && w'.running == w.running && w'.st.Waiting() == w.st.Waiting() + [r]
            && w'.st.ReservedFor(DEFAULT_POOL) == Some(h)
  {
    var now, st := r.enqueuedAt, w.st.(queue := w.st.queue + [Fresh(r)]);
    var out := Pump(cfg, st, now);
    StepGood(cfg, w, Arrive(r, now));
    PrepareSafe(cfg, w, Arrive(r, now));
    ReqsAppend(w.st.queue, Fresh(r));
    PumpSeenFromHead(cfg, st, now, h);
    FilterAll(Admitted(out.1), InPool(cfg, DEFAULT_POOL));
    FilterAll(out.0.Waiting(), InPool(cfg, DEFAULT_POOL));
    FilterAll(st.Waiting(), InPool(cfg, DEFAULT_POOL));
    AgreeHeads(cfg, out.0, st, now, DEFAULT_POOL);
    SettledAtRest(cfg, out.0, now, DEFAULT_POOL);
  }

  const PLAIN: Config := UnitPool({}, 0.0)
  const HALF: Request := Arrival(0, "a", 0.5, 0, 1.0)
  const LARGE: Request := Arrival(1, "h", 0.8, 0, 2.0)
  const SMALL: Request := Arrival(2, "x", 0.25, 0, 3.0)

  lemma LargeIsBlocked(st: State, now: real)
    requires Ledger(PLAIN, st, [HALF]) && Head(PLAIN, st, now, DEFAULT_POOL) == Some(LARGE)
    ensures BlockedHead(PLAIN, st, now, DEFAULT_POOL) == Some(LARGE)
    ensures Fits(PLAIN, st, SMALL, PLAIN.Budget(DEFAULT_POOL))
  {
    assert [HALF][1..] == [];
    assert SumCost(PLAIN, [HALF], DEFAULT_POOL) == 0.5;
  }

  lemma LargeQueues(w: World)
    requires Good(PLAIN, w) && w.running == [HALF] && w.st.Waiting() == [] && w.clock == 1.0
    ensures var w' := Step(PLAIN, w, Arrive(LARGE, 2.0)).0;
            Good(PLAIN, w') && w'.running == [HALF] && w'.st.Waiting() == [LARGE]
  {
    var st := w.st.(queue := w.st.queue + [Fresh(LARGE)]);
    ReqsAppend(w.st.queue, Fresh(LARGE));
    assert st.Waiting() == [LARGE];
    PrepareSafe(PLAIN, w, Arrive(LARGE, 2.0));
    HeadProps(PLAIN, st, 2.0, DEFAULT_POOL);
    hide Good, Step, Pump, Head, Reqs;
    assert LARGE in st.Waiting();
    LargeIsBlocked(st, 2.0);
    BlockedArrival(PLAIN, w, LARGE, LARGE);
  }

  lemma SmallFindsLarge(w: World)
    requires Good(PLAIN, w) && w.running == [HALF] && w.st.Waiting() == [LARGE] && w.clock == 2.0
    ensures Enabled(w, Arrive(SMALL, 3.0))
    ensures BlockedHead(PLAIN, w.st.(queue := w.st.queue + [Fresh(SMALL)]), 3.0, DEFAULT_POOL) == Some(LARGE)
  {
    hide Pump, Reserve, BlockedHead, Head;
    var st := w.st.(queue := w.st.queue + [Fresh(SMALL)]);
    ReqsAppend(w.st.queue, Fresh(SMALL));
    PrepareSafe(PLAIN, w, Arrive(SMALL, 3.0));
    FirstOfPair(PLAIN, st, 3.0, LARGE, SMALL);
    LargeIsBlocked(st, 3.0);
  }

  lemma SmallIsHeldBack(w: World)
    requires Good(PLAIN, w) && w.running == [HALF] && w.st.Waiting() == [LARGE] && w.clock == 2.0
    ensures var w' := Step(PLAIN, w, Arrive(SMALL, 3.0)).0;
            && w'.running == [HALF] && w'.st.Waiting() == [LARGE, SMALL]
            && w'.st.ReservedFor(DEFAULT_POOL) == Some(LARGE)
            && Fits(PLAIN, w'.st, SMALL, PLAIN.Budget(DEFAULT_POOL))
  {
    hide Step, Enabled, Settled, Bounded, Tidy, BlockedHead, Reqs, Fits;
    SmallFindsLarge(w);
    BlockedArrival(PLAIN, w, SMALL, LARGE);
    var w' := Step(PLAIN, w, Arrive(SMALL, 3.0)).0;
    ReservedIsBlockedHead(PLAIN, w', LARGE);
    LargeIsBlocked(w'.st, w'.clock);
  }

  /** Leftover budget does stay idle: beside a running cost of 0.5, a waiter of cost 0.25 that fits the
      remaining half is held back by a head of cost 0.8. */
  lemma LeftoverStaysIdle()
    ensures var evs := [Arrive(HALF, 1.0), Arrive(LARGE, 2.0), Arrive(SMALL, 3.0)];
            var w := After(PLAIN, Start(0.0), evs);
            && Valid(PLAIN, Start(0.0), evs)
            && w.running == [HALF] && w.st.Waiting() == [LARGE, SMALL]
            && w.st.ReservedFor(DEFAULT_POOL) == Some(LARGE)
            && Fits(PLAIN, w.st, SMALL, PLAIN.Budget(DEFAULT_POOL))
  {
    var w0 := Start(0.0);
    StartGood(PLAIN, 0.0);
    assert w0.st.Waiting() == [];
    LoneArrival(PLAIN, w0, HALF);
    var w1 := Step(PLAIN, w0, Arrive(HALF, 1.0)).0;
    hide Good, StepState, Fits;
    LargeQueues(w1);
    SmallIsHeldBack(Step(PLAIN, w1, Arrive(LARGE, 2.0)).0);
    RunOfThree(PLAIN, w0, Arrive(HALF, 1.0), Arrive(LARGE, 2.0), Arrive(SMALL, 3.0));
  }

  lemma RunOfThree(cfg: Config, w: World, e0: Event, e1: Event, e2: Event)
    ensures var w1 := Step(cfg, w, e0).0;
            var w2 := Step(cfg, w1, e1).0;
            && After(cfg, w, [e0, e1, e2]) == Step(cfg, w2, e2).0
            && (Valid(cfg, w, [e0, e1, e2]) <==> Enabled(w, e0) && Enabled(w1, e1) && Enabled(w2, e2))
  {
    var w1 := Step(cfg, w, e0).0;
    var w2 := Step(cfg, w1, e1).0;
    assert [e0, e1, e2][1..] == [e1, e2] && [e1, e2][1..] == [e2] && [e2][1..] == [];
    hide Step, Enabled;
    assert Valid(cfg, w2, [e2]) <==> Enabled(w2, e2);
    assert Valid(cfg, w1, [e1, e2]) <==> Enabled(w1, e1) && Valid(cfg, w2, [e2]);
    assert After(cfg, w2, [e2]) == Step(cfg, w2, e2).0;
  }

  // ---- a head that is stuck ----

  /** Nothing is held back for a head that is cap-full or shut out, and any waiter of its pool that
      fits the whole remaining budget lets the loop go on without it. */
  lemma StuckHeadIsOvertaken(cfg: Config, st: State, now: real, h: Request, x: Request)
    requires var p := cfg.Pool(h.model);
             && Head(cfg, st, now, p) == Some(h) && (CapFull(cfg, st, h) || ExclusionBlocks(cfg, st, h))
             && x in st.Waiting() && cfg.Pool(x.model) == p && Fits(cfg, st, x, cfg.Budget(p))
    ensures BlockedHead(cfg, st, now, cfg.Pool(h.model)) == None
    ensures FirstFit(cfg, st, now).Some? && FirstFit(cfg, st, now).value != h
  {
    assert Admittable(cfg, st, now, x);
    assert !Admittable(cfg, st, now, h);
  }

  /** A pump that admits nobody of `p` leaves the pool as it was. */
  lemma {:induction false} QuietPumpAgrees(cfg: Config, st: State, now: real, p: string)
    requires Orderly(st) && InPoolLog(cfg, Pump(cfg, st, now).1, p) == []
    ensures AgreeIn(cfg, Pump(cfg, st, now).0, st, p)
    decreases |st.queue|
  {
    PassElsewhere(cfg, st, now, p);
    PassKeepsOrderly(cfg, st, now);
    hide OnePass, Orderly, InPoolLog, AgreeIn;
    match OnePass(cfg, st, now)
    case Idle(_) =>
    case Admits(s, a) =>
      LogCons(cfg, a, Pump(cfg, s, now).1, p);
      QuietPumpAgrees(cfg, s, now, p);
      AgreeTransitive(cfg, Pump(cfg, s, now).0, s, st, p);
  }

  lemma PassElsewhere(cfg: Config, st: State, now: real, p: string)
    requires Orderly(st)
    ensures var pass := OnePass(cfg, st, now);
            (pass.Admits? ==> cfg.Pool(pass.admission.req.model) != p) ==> AgreeIn(cfg, pass.st, st, p)
  {
    var s1 := Reserve(cfg, st, now);
    ReserveKeepsWaiting(cfg, st, now);
    RecordKeeps(cfg, s1);
    SameCoreAgrees(cfg, s1, st, p);
    SameCoreAgrees(cfg, RecordWaits(cfg, s1), st, p);
    hide Reserve, FirstFit, AgreeIn, RecordWaits;
    match FirstFit(cfg, s1, now)
    case None =>
    case Some(r) =>
      if cfg.Pool(r.model) != p {
        AdmitElsewhere(cfg, s1, r, p);
        AgreeTransitive(cfg, Admit(cfg, s1, r), s1, st, p);
      }
  }

  lemma PassAdmitsFitting(cfg: Config, st: State, now: real)
    requires Orderly(st) && OnePass(cfg, st, now).Admits?
    ensures var r := OnePass(cfg, st, now).admission.req;
            r in st.Waiting() && Fits(cfg, st, r, cfg.Budget(cfg.Pool(r.model)))
  {
    var s1 := Reserve(cfg, st, now);
    ReserveKeepsWaiting(cfg, st, now);
    var r := FirstFit(cfg, s1, now).value;
    ReservableAtMostBudget(cfg, s1, now, cfg.Pool(r.model));
    AgreeBlocks(cfg, s1, st, r);
  }

  /** The first of `p` that a pump admits was already waiting, and fitted the remaining budget, when
      the pump began. */
  lemma {:induction false} FirstOfPoolFits(cfg: Config, st: State, now: real, p: string)
    requires Orderly(st) && InPoolLog(cfg, Pump(cfg, st, now).1, p) != []
    ensures var x := InPoolLog(cfg, Pump(cfg, st, now).1, p)[0];
            x in st.Waiting() && cfg.Pool(x.model) == p && Fits(cfg, st, x, cfg.Budget(p))
    decreases |st.queue|
  {
    PassElsewhere(cfg, st, now, p);
    PassKeepsOrderly(cfg, st, now);
    LogEmpty(cfg, p);
    if OnePass(cfg, st, now).Admits? {
      PassAdmitsFitting(cfg, st, now);
    }
    hide OnePass, Orderly, InPoolLog, AgreeIn, Fits, State.Waiting;
    match OnePass(cfg, st, now)
    case Idle(_) =>
    case Admits(s, a) =>
      LogCons(cfg, a, Pump(cfg, s, now).1, p);
      if cfg.Pool(a.req.model) != p {
        FirstOfPoolFits(cfg, s, now, p);
        AgreeFits(cfg, s, st, InPoolLog(cfg, Pump(cfg, s, now).1, p)[0]);
      }
  }

  lemma AgreeFits(cfg: Config, a: State, b: State, x: Request)
    requires AgreeIn(cfg, a, b, cfg.Pool(x.model)) && x in a.Waiting()
    requires Fits(cfg, a, x, cfg.Budget(cfg.Pool(x.model)))
    ensures x in b.Waiting() && Fits(cfg, b, x, cfg.Budget(cfg.Pool(x.model)))
  {
    FilterMembers(a.Waiting(), InPool(cfg, cfg.Pool(x.model)));
    FilterMembers(b.Waiting(), InPool(cfg, cfg.Pool(x.model)));
    AgreeBlocks(cfg, a, b, x);
  }

  /** Exactly when a pump lets a waiter of `h`'s pool overtake its head `h`: the head is cap-full or
      shut out by the mutex, and some other waiter of the pool fits the remaining budget. */
  lemma OvertakenExactly(cfg: Config, st: State, now: real, h: Request)
    requires Orderly(st) && Head(cfg, st, now, cfg.Pool(h.model)) == Some(h)
    ensures var p, log := cfg.Pool(h.model), InPoolLog(cfg, Pump(cfg, st, now).1, cfg.Pool(h.model));
            |log| > 0 && log[0] != h <==>
            && (CapFull(cfg, st, h) || ExclusionBlocks(cfg, st, h))
            && exists x :: x in st.Waiting() && cfg.Pool(x.model) == p && Fits(cfg, st, x, cfg.Budget(p))
  {
    var p, log := cfg.Pool(h.model), InPoolLog(cfg, Pump(cfg, st, now).1, cfg.Pool(h.model));
    if !CapFull(cfg, st, h) && !ExclusionBlocks(cfg, st, h) {
      PumpSeenFromHead(cfg, st, now, h);
    } else if |log| > 0 {
      FirstOfPoolFits(cfg, st, now, p);
      assert !Fits(cfg, st, h, cfg.Budget(p));
    } else {
      NobodyFits(cfg, st, now, h);
    }
  }

  lemma NobodyFits(cfg: Config, st: State, now: real, h: Request)
    requires Orderly(st) && Head(cfg, st, now, cfg.Pool(h.model)) == Some(h)
    requires CapFull(cfg, st, h) || ExclusionBlocks(cfg, st, h)
    requires InPoolLog(cfg, Pump(cfg, st, now).1, cfg.Pool(h.model)) == []
    ensures forall x :: x in st.Waiting() && cfg.Pool(x.model) == cfg.Pool(h.model) ==>
              !Fits(cfg, st, x, cfg.Budget(cfg.Pool(h.model)))
  {
    var p, end := cfg.Pool(h.model), Pump(cfg, st, now).0;
    QuietPumpAgrees(cfg, st, now, p);
    PumpSettles(cfg, st, now);
    PumpKeepsOrderly(cfg, st, now);
    SettledAtRest(cfg, end, now, p);
    AgreeHead(cfg, end, st, now, h);
    forall x | x in st.Waiting() && cfg.Pool(x.model) == p ensures !Fits(cfg, st, x, cfg.Budget(p)) {
      if Fits(cfg, st, x, cfg.Budget(p)) {
        AgreeFits(cfg, st, end, x);
      }
    }
  }

  lemma {:induction false} PumpKeepsOrderly(cfg: Config, st: State, now: real)
    requires Orderly(st)
    ensures Orderly(Pump(cfg, st, now).0)
    decreases |st.queue|
  {
    PassKeepsOrderly(cfg, st, now);
    hide OnePass, Orderly;
    match OnePass(cfg, st, now)
    case Idle(_) =>
    case Admits(s, _) => PumpKeepsOrderly(cfg, s, now);
  }

  /** A head stuck at its cap waits only for its own model: the next completion of a run of that model
      admits it, before anybody else of its pool, or reserves for it. */
  lemma CapFullUntilCompletion(cfg: Config, w: World, h: Request, e: Event)
    requires Good(cfg, w) && Enabled(w, e) && e.Finish? && e.r.model == h.model
    requires Head(cfg, w.st, w.clock, cfg.Pool(h.model)) == Some(h) && CapFull(cfg, w.st, h)
    ensures var (w', adm) := Step(cfg, w, e);
            var p := cfg.Pool(h.model);
            if |InPoolLog(cfg, adm, p)| > 0 then InPoolLog(cfg, adm, p)[0] == h
            else w'.st.ReservedFor(p) == Some(h)
  {
    var p, st := cfg.Pool(h.model), Prepare(cfg, w, e).value;
    StepIsPump(cfg, w, e);
    PrepareSafe(cfg, w, e);
    StepGood(cfg, w, e);
    CompletionFrees(cfg, w, h, e);
    DecisionsLater(cfg, w.st, w.clock, e.now, p);
    HeadAsBefore(cfg, w.st, st, e.now, p);
    PumpSeenFromHead(cfg, st, e.now, h);
    var end := Pump(cfg, st, e.now).0;
    if BudgetBlocked(cfg, st, h) {
      AgreeHead(cfg, end, st, e.now, h);
      SettledAtRest(cfg, end, e.now, p);
    }
  }

  lemma CompletionFrees(cfg: Config, w: World, h: Request, e: Event)
    requires Safe(cfg, w.st, w.running, w.clock) && Enabled(w, e) && e.Finish? && e.r.model == h.model
    requires h.model in cfg.caps
    ensures var st := Prepare(cfg, w, e).value; !CapFull(cfg, st, h) && !ExclusionBlocks(cfg, st, h)
  {
    var st, p := Prepare(cfg, w, e).value, cfg.Pool(h.model);
    ReleaseClampsInert(cfg, w, e.r);
    if ExclusionBlocks(cfg, st, h) {
      ActiveMembersExact(cfg, st, p);
      var m :| m in ActiveMembers(cfg, st, p);
      CountMembers(w.running, m);
    }
  }

  lemma HeadAsBefore(cfg: Config, a: State, b: State, now: real, p: string)
    requires a.Waiting() == b.Waiting()
    ensures Head(cfg, a, now, p) == Head(cfg, b, now, p)
  {}

  // ---- the mutex hand-off ----

  /** A waiter that the mutex shuts out stays shut out through a pump, and is not admitted by it. */
  lemma {:induction false} PumpShutsOut(cfg: Config, st: State, now: real, h: Request)
    requires ExclusionBlocks(cfg, st, h)
    ensures ExclusionBlocks(cfg, Pump(cfg, st, now).0, h) && h !in Admitted(Pump(cfg, st, now).1)
    decreases |st.queue|
  {
    PassShutsOut(cfg, st, now, h);
    AdmittedOneMore(h);
    hide OnePass, ExclusionBlocks, Admitted;
    match OnePass(cfg, st, now)
    case Idle(_) =>
    case Admits(s, a) => PumpShutsOut(cfg, s, now, h);
  }

  lemma PassShutsOut(cfg: Config, st: State, now: real, h: Request)
    requires ExclusionBlocks(cfg, st, h)
    ensures var pass := OnePass(cfg, st, now);
            ExclusionBlocks(cfg, pass.st, h) && (pass.Admits? ==> pass.admission.req != h)
  {
    hide ExclusionBlocks, RecordWaits, FirstFit;
    var s1 := Reserve(cfg, st, now);
    AgreeBlocks(cfg, s1, st, h);
    RecordKeeps(cfg, s1);
    AgreeBlocks(cfg, RecordWaits(cfg, s1), st, h);
    match FirstFit(cfg, s1, now)
    case None =>
    case Some(r) =>
      PickedIsNotShutOut(cfg, s1, now, h, r);
      StillShutOut(cfg, s1, Admit(cfg, s1, r), h, r);
  }

  lemma PickedIsNotShutOut(cfg: Config, st: State, now: real, h: Request, r: Request)
    requires ExclusionBlocks(cfg, st, h) && FirstFit(cfg, st, now) == Some(r)
    ensures r.model != h.model
  {
    if r.model == h.model {
      SameModelExcluded(cfg, st, r, h);
    }
  }

  /** `e` is the completion that empties `p`: of the last run in flight there. */
  ghost predicate Empties(cfg: Config, w: World, e: Event, p: string) {
    && e.Finish? && cfg.Pool(e.r.model) == p
    && forall s :: s in w.running && cfg.Pool(s.model) == p ==> s == e.r
  }

  /** Until its pool is emptied, the mutex shuts `h` out of the pump too. */
  lemma PrepareShutsOut(cfg: Config, w: World, e: Event, h: Request)
    requires Good(cfg, w) && Enabled(w, e) && Prepare(cfg, w, e).Some?
    requires ExclusionBlocks(cfg, w.st, h) && !Empties(cfg, w, e, cfg.Pool(h.model))
    ensures ExclusionBlocks(cfg, Prepare(cfg, w, e).value, h)
  {
    var st, p := Prepare(cfg, w, e).value, cfg.Pool(h.model);
    if e.Finish? {
      ActiveMembersExact(cfg, w.st, p);
      var m :| m in ActiveMembers(cfg, w.st, p);
      CountMembers(w.running, m);
      var s :| s in w.running && cfg.Pool(s.model) == p && s != e.r;
      PrepareSafe(cfg, w, e);
      FilterMembers(w.running, Except(e.r));
      CountMembers(w.running, h.model);
      OthersShutOut(cfg, st, StillRunning(w, e), s, h);
    } else {
      AgreeBlocks(cfg, st, w.st, h);
    }
  }

  lemma OthersShutOut(cfg: Config, st: State, running: seq<Request>, s: Request, h: Request)
    requires Ledger(cfg, st, running) && s in running && forall x :: x in running ==> x.model != h.model
    requires cfg.Pool(s.model) == cfg.Pool(h.model) && cfg.Pool(h.model) in cfg.poolExclusive
    ensures ExclusionBlocks(cfg, st, h)
  {
    ActiveMembersExact(cfg, st, cfg.Pool(h.model));
    CountMembers(running, s.model);
    CountMembers(running, h.model);
    assert s.model in ActiveMembers(cfg, st, cfg.Pool(h.model));
  }

  /** The hand-off, exactly: an operation admits a head that the mutex shut out if and only if it is
      the completion of the last run in flight in the head's pool. */
  lemma HandOffExactly(cfg: Config, w: World, e: Event, h: Request)
    requires Good(cfg, w) && CapsPositive(cfg) && Enabled(w, e) && KeepsHead(cfg, w, e, h)
    requires ExclusionBlocks(cfg, w.st, h)
    ensures var (w', adm) := Step(cfg, w, e);
            var p := cfg.Pool(h.model);
            && (h in Admitted(adm) <==> Empties(cfg, w, e, p))
            && (h in Admitted(adm) ==> |InPoolLog(cfg, adm, p)| > 0 && InPoolLog(cfg, adm, p)[0] == h)
            && (h !in Admitted(adm) ==> ExclusionBlocks(cfg, w'.st, h))
  {
    StepIsPump(cfg, w, e);
    match Prepare(cfg, w, e)
    case None =>
      assert Admitted([]) == [];
    case Some(st) =>
      if Empties(cfg, w, e, cfg.Pool(h.model)) {
        EmptiedServes(cfg, w, e, h);
      } else {
        PrepareShutsOut(cfg, w, e, h);
        PumpShutsOut(cfg, st, e.now, h);
      }
  }

  lemma EmptiedServes(cfg: Config, w: World, e: Event, h: Request)
    requires Good(cfg, w) && CapsPositive(cfg) && Enabled(w, e) && KeepsHead(cfg, w, e, h)
    requires Empties(cfg, w, e, cfg.Pool(h.model))
    ensures var log := InPoolLog(cfg, Step(cfg, w, e).1, cfg.Pool(h.model)); |log| > 0 && log[0] == h
    ensures h in Admitted(Step(cfg, w, e).1)
  {
    var st, p := Prepare(cfg, w, e).value, cfg.Pool(h.model);
    PrepareSafe(cfg, w, e);
    FilterMembers(w.running, Except(e.r));
    HeadProps(cfg, st, e.now, p);
    NoneInFlight(cfg, st, StillRunning(w, e), h);
    PumpSeenFromHead(cfg, st, e.now, h);
    StepIsPump(cfg, w, e);
    var adm := Step(cfg, w, e).1;
    FilterMembers(Admitted(adm), InPool(cfg, p));
    assert InPoolLog(cfg, adm, p)[0] in InPoolLog(cfg, adm, p);
  }

  /** Some event of the run empties `p`. */
  ghost predicate Emptied(cfg: Config, w: World, evs: seq<Event>, p: string)
    decreases |evs|
  {
    |evs| > 0 && (Empties(cfg, w, evs[0], p) || Emptied(cfg, Step(cfg, w, evs[0]).0, evs[1..], p))
  }

  /** Over a run, a head that the mutex shuts out and that keeps its place is served if and only if its
      pool is emptied, and until then stays shut out. With `n` runs in flight in its pool, that takes
      at most `n` completions unless somebody of the pool is admitted ahead of it. */
  lemma {:induction false} ShutOutHeadIsServed(cfg: Config, w: World, evs: seq<Event>, h: Request)
    requires Good(cfg, w) && CapsPositive(cfg) && Valid(cfg, w, evs)
    requires h in w.st.Waiting() && ExclusionBlocks(cfg, w.st, h) && StaysHead(cfg, w, evs, h)
    ensures var p, log := cfg.Pool(h.model), InPoolLog(cfg, Log(cfg, w, evs), cfg.Pool(h.model));
            && (h in Admitted(Log(cfg, w, evs)) <==> Emptied(cfg, w, evs, p))
            && (!Emptied(cfg, w, evs, p) ==> ExclusionBlocks(cfg, After(cfg, w, evs).st, h))
            && (FinishesIn(cfg, evs, p) >= RunsIn(cfg, w.running, p) ==> |log| > 0)
    decreases |evs|
  {
    var p := cfg.Pool(h.model);
    ShutOutMeansBusy(cfg, w, h);
    LogEmpty(cfg, p);
    if |evs| > 0 {
      var e := evs[0];
      var (w', adm) := Step(cfg, w, e);
      var rest := Log(cfg, w', evs[1..]);
      HandOffExactly(cfg, w, e, h);
      StillWaits(cfg, w, e, h);
      StepGood(cfg, w, e);
      RunsAfterStep(cfg, w, e, p);
      AdmittedAppend(adm, rest);
      LogAppend(cfg, adm, rest, p);
      FinishesCons(cfg, evs, p);
      hide Step, Good, Enabled, KeepsHead, ExclusionBlocks, Empties, InPoolLog, Admitted, CapsPositive, RunsIn;
      if !Empties(cfg, w, e, p) {
        ShutOutHeadIsServed(cfg, w', evs[1..], h);
      }
    } else {
      assert Admitted([]) == [];
    }
  }

  lemma FinishesCons(cfg: Config, evs: seq<Event>, p: string)
    requires |evs| > 0
    ensures FinishesIn(cfg, evs, p) == FinishesIn(cfg, [evs[0]], p) + FinishesIn(cfg, evs[1..], p)
  {
    assert [evs[0]][1..] == [];
  }

  lemma ShutOutMeansBusy(cfg: Config, w: World, h: Request)
    requires Good(cfg, w) && ExclusionBlocks(cfg, w.st, h)
    ensures RunsIn(cfg, w.running, cfg.Pool(h.model)) > 0
  {
    var p := cfg.Pool(h.model);
    ActiveMembersExact(cfg, w.st, p);
    var m :| m in ActiveMembers(cfg, w.st, p);
    CountMembers(w.running, m);
    FilterMembers(w.running, InPool(cfg, p));
  }

  /** A head that keeps its place and is not admitted is still waiting. */
  lemma StillWaits(cfg: Config, w: World, e: Event, h: Request)
    requires Good(cfg, w) && Enabled(w, e) && KeepsHead(cfg, w, e, h) && h in w.st.Waiting()
    ensures var (w', adm) := Step(cfg, w, e); h !in Admitted(adm) ==> h in w'.st.Waiting()
  {
    StepIsPump(cfg, w, e);
    match Prepare(cfg, w, e)
    case None =>
    case Some(st) =>
      HeadProps(cfg, st, e.now, cfg.Pool(h.model));
      PrepareSafe(cfg, w, e);
      PumpMoves(cfg, st, e.now, h);
  }

  // ---- starvation by the mutex ----

  /** The pump with a shut-out head and one other waiter that fits admits that one and leaves the head. */
  lemma {:induction false} PumpOvertakes(cfg: Config, st: State, now: real, h: Request, x: Request)
    requires st.Waiting() == [h, x] && h != x && ExclusionBlocks(cfg, st, h)
    requires Head(cfg, st, now, cfg.Pool(h.model)) == Some(h)
    requires cfg.Pool(x.model) == cfg.Pool(h.model) && x.model != h.model
    requires Fits(cfg, st, x, cfg.Budget(cfg.Pool(x.model)))
    ensures Pump(cfg, st, now).0.Waiting() == [h] && Admitted(Pump(cfg, st, now).1) == [x]
  {
    PassOvertakes(cfg, st, now, h, x);
    hide OnePass, Head, ExclusionBlocks, Fits;
    PumpIdles(cfg, OnePass(cfg, st, now).st, now, h);
  }

  lemma PassOvertakes(cfg: Config, st: State, now: real, h: Request, x: Request)
    requires st.Waiting() == [h, x] && h != x && ExclusionBlocks(cfg, st, h)
    requires Head(cfg, st, now, cfg.Pool(h.model)) == Some(h)
    requires cfg.Pool(x.model) == cfg.Pool(h.model) && x.model != h.model
    requires Fits(cfg, st, x, cfg.Budget(cfg.Pool(x.model)))
    ensures var pass := OnePass(cfg, st, now);
            && pass.Admits? && pass.admission.req == x
            && pass.st.Waiting() == [h] && ExclusionBlocks(cfg, pass.st, h)
  {
    var s1 := Reserve(cfg, st, now);
    ReserveKeepsWaiting(cfg, st, now);
    SameCoreFirstFit(cfg, s1, st, now);
    assert x == st.Waiting()[1];
    StuckHeadIsOvertaken(cfg, st, now, h, x);
    assert FirstFit(cfg, st, now) == Some(x);
    assert |st.queue| == |st.Waiting()|;
    hide Head, FirstFit, Fits, Reserve;
    FilterPair(h, x);
    WithoutReqs(s1.queue, x);
    StillShutOut(cfg, st, Admit(cfg, s1, x), h, x);
  }

  lemma FilterPair(h: Request, x: Request)
    requires h != x
    ensures NoDup([h, x]) && Filter([h, x], Except(x)) == [h]
  {
    assert Filter([x], Except(x)) == [] by {
      assert [x][1..] == [];
    }
    assert [h, x][1..] == [x];
  }

  lemma StillShutOut(cfg: Config, st: State, s2: State, h: Request, x: Request)
    requires ExclusionBlocks(cfg, st, h) && x.model != h.model
    requires forall m :: s2.InFlight(m) == st.InFlight(m) + if m == x.model then 1 else 0
    ensures ExclusionBlocks(cfg, s2, h)
  {
    var p := cfg.Pool(h.model);
    ActiveMembersExact(cfg, st, p);
    ActiveMembersExact(cfg, s2, p);
    var m :| m in ActiveMembers(cfg, st, p);
    assert m in ActiveMembers(cfg, s2, p);
  }

  /** The pump with nobody but a shut-out head does nothing. */
  lemma PumpIdles(cfg: Config, st: State, now: real, h: Request)
    requires st.Waiting() == [h] && ExclusionBlocks(cfg, st, h)
    ensures Pump(cfg, st, now).0.Waiting() == [h] && Pump(cfg, st, now).1 == []
  {
    var s1 := Reserve(cfg, st, now);
    ReserveKeepsWaiting(cfg, st, now);
    SameCoreFirstFit(cfg, s1, st, now);
    assert FirstFit(cfg, st, now) == None;
    RecordKeeps(cfg, s1);
  }

  /** The i-th request of a stream for the model of `a`, one time unit apart. */
  function Nth(a: Request, i: nat): Request {
    a.(id := a.id + i, enqueuedAt := a.enqueuedAt + i as real)
  }

  /** From round `i` on, each of `n` rounds starts the next run of the stream and ends the one before. */
  function Rounds(a: Request, i: nat, n: nat): seq<Event>
    decreases n
  {
    if n == 0 then []
    else
      var now := Nth(a, i + 1).enqueuedAt;
      [Arrive(Nth(a, i + 1), now), Finish(Nth(a, i), now)] + Rounds(a, i + 1, n - 1)
  }

  /** The requests that those rounds start. */
  function Started(a: Request, i: nat, n: nat): seq<Request> {
    seq(n, k requires 0 <= k < n => Nth(a, i + 1 + k))
  }

  /** `h` heads an exclusive pool, has at least the priority of the stream of `a`, another member of the
      pool, and was there before it; two runs of the stream fit the pool side by side. */
  predicate Shadowed(cfg: Config, a: Request, h: Request) {
    var p := cfg.Pool(h.model);
    && p in cfg.poolExclusive && cfg.Pool(a.model) == p && a.model != h.model
    && (a.model in cfg.caps ==> cfg.caps[a.model] >= 2)
    && 0.0 < a.cost && a.cost + a.cost <= cfg.Budget(p) + EPS && 0.0 < h.cost <= cfg.Budget(p) + EPS
    && cfg.agingRate >= 0.0 && cfg.Clamped(a) <= cfg.Clamped(h) && h.enqueuedAt == a.enqueuedAt
  }

  /** Only the i-th run of the stream is in flight, and `h` waits. */
  ghost predicate ShutOut(cfg: Config, w: World, a: Request, i: nat, h: Request) {
    && Good(cfg, w) && w.clock <= Nth(a, i + 1).enqueuedAt
    && w.running == [Nth(a, i)] && w.st.Waiting() == [h]
  }

  lemma OlderIsFirst(cfg: Config, a: Request, i: nat, h: Request)
    requires Shadowed(cfg, a, h)
    ensures var x, now := Nth(a, i), Nth(a, i).enqueuedAt;
            LexLe(PriorityKey(cfg, now)(h), PriorityKey(cfg, now)(x))
  {
    var now := Nth(a, i).enqueuedAt;
    assert cfg.agingRate * (now - h.enqueuedAt) >= 0.0;
  }

  lemma OthersExclude(cfg: Config, st: State, running: seq<Request>, x: Request, h: Request)
    requires Ledger(cfg, st, running) && x in running
    requires cfg.Pool(x.model) == cfg.Pool(h.model) && cfg.Pool(h.model) in cfg.poolExclusive && x.model != h.model
    requires forall y :: y in running ==> y.model == x.model
    ensures ExclusionBlocks(cfg, st, h) && !ExclusionBlocks(cfg, st, x)
  {
    ActiveMembersExact(cfg, st, cfg.Pool(h.model));
    CountMembers(running, x.model);
    CountMembers(running, h.model);
    assert x.model in ActiveMembers(cfg, st, cfg.Pool(h.model));
  }

  lemma OneRunLedger(cfg: Config, st: State, x: Request)
    requires Ledger(cfg, st, [x])
    ensures st.Used(cfg.Pool(x.model)) == x.cost && st.InFlight(x.model) == 1
  {
    assert [x][1..] == [];
    assert st.Used(cfg.Pool(x.model)) == SumCost(cfg, [x], cfg.Pool(x.model));
    assert st.InFlight(x.model) == Count([x], x.model);
  }

  /** What the pump finds when the next run of the stream arrives: `h` first, but shut out, */
  lemma NextIsBehind(cfg: Config, w: World, a: Request, i: nat, h: Request)
    requires Shadowed(cfg, a, h) && w.st.Waiting() == [h]
    ensures var x, st := Nth(a, i + 1), w.st.(queue := w.st.queue + [Fresh(Nth(a, i + 1))]);
            st.Waiting() == [h, x] && Head(cfg, st, x.enqueuedAt, cfg.Pool(h.model)) == Some(h)
  {
    var x := Nth(a, i + 1);
    ReqsAppend(w.st.queue, Fresh(x));
    OlderIsFirst(cfg, a, i + 1, h);
    hide PriorityKey, Head, Reqs;
    FirstOfPair(cfg, w.st.(queue := w.st.queue + [Fresh(x)]), x.enqueuedAt, h, x);
  }

  /** and room for the run that arrives. */
  lemma NextFits(cfg: Config, w: World, a: Request, i: nat, h: Request)
    requires Shadowed(cfg, a, h) && ShutOut(cfg, w, a, i, h)
    ensures var x, st := Nth(a, i + 1), w.st.(queue := w.st.queue + [Fresh(Nth(a, i + 1))]);
            ExclusionBlocks(cfg, st, h) && Fits(cfg, st, x, cfg.Budget(cfg.Pool(x.model)))
  {
    var x, st := Nth(a, i + 1), w.st.(queue := w.st.queue + [Fresh(Nth(a, i + 1))]);
    OneRunLedger(cfg, w.st, Nth(a, i));
    OthersExclude(cfg, w.st, w.running, Nth(a, i), h);
    AgreeBlocks(cfg, st, w.st, h);
    AgreeBlocks(cfg, st, w.st, Nth(a, i));
    hide ExclusionBlocks;
    SameModelExcluded(cfg, st, x, Nth(a, i));
  }

  lemma SameModelExcluded(cfg: Config, st: State, x: Request, y: Request)
    requires x.model == y.model
    ensures ExclusionBlocks(cfg, st, x) == ExclusionBlocks(cfg, st, y)
  {}

  lemma NextPossible(cfg: Config, w: World, a: Request, i: nat, h: Request)
    requires Shadowed(cfg, a, h) && ShutOut(cfg, w, a, i, h)
    ensures var x := Nth(a, i + 1);
            var e := Arrive(x, x.enqueuedAt);
            Enabled(w, e) && Prepare(cfg, w, e) == Some(w.st.(queue := w.st.queue + [Fresh(x)]))
  {}

  /** The next run of the stream arrives: it overtakes `h`. */
  lemma NextArrives(cfg: Config, w: World, a: Request, i: nat, h: Request)
    requires Shadowed(cfg, a, h) && ShutOut(cfg, w, a, i, h)
    ensures var x := Nth(a, i + 1);
            var e := Arrive(x, x.enqueuedAt);
            var (w', adm) := Step(cfg, w, e);
            && Enabled(w, e) && KeepsHead(cfg, w, e, h)
            && Good(cfg, w') && w'.clock == x.enqueuedAt
            && w'.running == [Nth(a, i), x] && w'.st.Waiting() == [h] && Admitted(adm) == [x]
  {
    hide Good, Head, ExclusionBlocks, Reqs, Fits, Enabled, StepState, Prepare, Pump, CapFull;
    var x := Nth(a, i + 1);
    var e := Arrive(x, x.enqueuedAt);
    NextPossible(cfg, w, a, i, h);
    StepGood(cfg, w, e);
    NextIsBehind(cfg, w, a, i, h);
    NextFits(cfg, w, a, i, h);
    StepIsPump(cfg, w, e);
    PumpOvertakes(cfg, w.st.(queue := w.st.queue + [Fresh(x)]), x.enqueuedAt, h, x);
  }

  /** An operation that leaves nobody queued but a shut-out head admits nobody. */
  lemma StepIdles(cfg: Config, w: World, e: Event, h: Request)
    requires Good(cfg, w) && Enabled(w, e) && Prepare(cfg, w, e).Some?
    requires Prepare(cfg, w, e).value.Waiting() == [h] && ExclusionBlocks(cfg, Prepare(cfg, w, e).value, h)
    ensures var (w', adm) := Step(cfg, w, e);
            && Good(cfg, w') && w'.running == StillRunning(w, e) && w'.st.Waiting() == [h] && adm == []
    ensures Head(cfg, Prepare(cfg, w, e).value, e.now, cfg.Pool(h.model)) == Some(h)
  {
    hide Good, ExclusionBlocks, Enabled, Reserve, FirstFit;
    var st := Prepare(cfg, w, e).value;
    StepGood(cfg, w, e);
    StepIsPump(cfg, w, e);
    PumpIdles(cfg, st, e.now, h);
    HeadProps(cfg, st, e.now, cfg.Pool(h.model));
    assert h in st.Waiting();
    AdmittedNone(StillRunning(w, e));
  }

  /** The run before it ends: the mutex stays with the stream. */
  lemma LastEnds(cfg: Config, w: World, a: Request, i: nat, h: Request)
    requires Shadowed(cfg, a, h) && Good(cfg, w) && w.clock == Nth(a, i + 1).enqueuedAt
    requires w.running == [Nth(a, i), Nth(a, i + 1)] && w.st.Waiting() == [h]
    ensures var e := Finish(Nth(a, i), w.clock);
            var (w', adm) := Step(cfg, w, e);
            && Enabled(w, e) && KeepsHead(cfg, w, e, h) && ShutOut(cfg, w', a, i + 1, h) && adm == []
  {
    var e, x := Finish(Nth(a, i), w.clock), Nth(a, i + 1);
    PrepareSafe(cfg, w, e);
    LastRemains(a, i);
    hide Reserve, FirstFit, Pump, Bounded, Tidy, Head;
    assert Prepare(cfg, w, e).value.Waiting() == [h];
    OthersExclude(cfg, Prepare(cfg, w, e).value, [x], x, h);
    hide Good, ExclusionBlocks, Reqs;
    StepIdles(cfg, w, e, h);
  }

  lemma LastRemains(a: Request, i: nat)
    ensures Filter([Nth(a, i), Nth(a, i + 1)], Except(Nth(a, i))) == [Nth(a, i + 1)]
  {
    var x := Nth(a, i + 1);
    assert [x][1..] == [] && [Nth(a, i), x][1..] == [x];
    assert Filter([x], Except(Nth(a, i))) == [x];
  }

  /** In `n` rounds from `w` on, `h` stays the queued head of its pool, while everything that arrives
      for the other member is admitted on arrival and ends one round later. */
  ghost predicate Starved(cfg: Config, w: World, a: Request, i: nat, h: Request, n: nat) {
    var evs := Rounds(a, i, n);
    && Valid(cfg, w, evs) && StaysHead(cfg, w, evs, h)
    && ShutOut(cfg, After(cfg, w, evs), a, i + n, h)
    && Admitted(Log(cfg, w, evs)) == Started(a, i, n)
    && FinishesIn(cfg, evs, cfg.Pool(h.model)) == n
  }

  /** Starvation: a head shut out by the mutex may have to wait for any number of rounds. */
  lemma {:induction false} MutexStarves(cfg: Config, w: World, a: Request, i: nat, h: Request, n: nat)
    requires Shadowed(cfg, a, h) && ShutOut(cfg, w, a, i, h)
    ensures Starved(cfg, w, a, i, h, n)
    decreases n
  {
    hide Step, Shadowed, KeepsHead, Enabled, Starved, ShutOut, Good, Admitted;
    if n == 0 {
      StarvedAtFirst(cfg, w, a, i, h);
    } else {
      NextArrives(cfg, w, a, i, h);
      var w1 := Step(cfg, w, Arrive(Nth(a, i + 1), Nth(a, i + 1).enqueuedAt)).0;
      LastEnds(cfg, w1, a, i, h);
      MutexStarves(cfg, Step(cfg, w1, Finish(Nth(a, i), w1.clock)).0, a, i + 1, h, n - 1);
      StarvedOneMore(cfg, w, a, i, h, n);
    }
  }

  lemma StarvedAtFirst(cfg: Config, w: World, a: Request, i: nat, h: Request)
    requires ShutOut(cfg, w, a, i, h)
    ensures Starved(cfg, w, a, i, h, 0)
  {
    hide ShutOut;
    assert Rounds(a, i, 0) == [] && Log(cfg, w, []) == [];
    assert Admitted([]) == [] == Started(a, i, 0);
  }

  lemma StarvedOneMore(cfg: Config, w: World, a: Request, i: nat, h: Request, n: nat)
    requires n > 0 && Shadowed(cfg, a, h)
    requires var x := Nth(a, i + 1);
             var e0, e1 := Arrive(x, x.enqueuedAt), Finish(Nth(a, i), x.enqueuedAt);
             var (w1, adm0) := Step(cfg, w, e0);
             var (w2, adm1) := Step(cfg, w1, e1);
             && Enabled(w, e0) && KeepsHead(cfg, w, e0, h) && Admitted(adm0) == [x]
             && Enabled(w1, e1) && KeepsHead(cfg, w1, e1, h) && adm1 == []
             && Starved(cfg, w2, a, i + 1, h, n - 1)
    ensures Starved(cfg, w, a, i, h, n)
  {
    hide Step, KeepsHead, Enabled, StaysHead, ShutOut, Started, After, Log, Valid, FinishesIn, Admitted;
    var x, rest := Nth(a, i + 1), Rounds(a, i + 1, n - 1);
    var e0, e1 := Arrive(x, x.enqueuedAt), Finish(Nth(a, i), x.enqueuedAt);
    var (w1, adm0) := Step(cfg, w, e0);
    var (w2, adm1) := Step(cfg, w1, e1);
    assert Rounds(a, i, n) == [e0, e1] + rest;
    TwoAndRest(cfg, w, e0, e1, rest, h);
    StartedMore(a, i, n);
    AdmittedAppend(adm0, Log(cfg, w2, rest));
    assert adm0 + adm1 + Log(cfg, w2, rest) == adm0 + Log(cfg, w2, rest);
    assert i + 1 + (n - 1) == i + n && cfg.Pool(a.model) == cfg.Pool(h.model);
  }

  lemma StartedMore(a: Request, i: nat, n: nat)
    ensures Started(a, i, n) == if n == 0 then [] else [Nth(a, i + 1)] + Started(a, i + 1, n - 1)
  {}

  lemma AdmittedAppend(x: seq<Admission>, y: seq<Admission>)
    ensures Admitted(x + y) == Admitted(x) + Admitted(y)
  {}

  lemma TwoAndRest(cfg: Config, w: World, e0: Event, e1: Event, rest: seq<Event>, h: Request)
    ensures var evs := [e0, e1] + rest;
            var (w1, adm0) := Step(cfg, w, e0);
            var (w2, adm1) := Step(cfg, w1, e1);
            && After(cfg, w, evs) == After(cfg, w2, rest)
            && Log(cfg, w, evs) == adm0 + adm1 + Log(cfg, w2, rest)
            && (Valid(cfg, w, evs) <==> Enabled(w, e0) && Enabled(w1, e1) && Valid(cfg, w2, rest))
            && (KeepsHead(cfg, w, e0, h) && KeepsHead(cfg, w1, e1, h) && StaysHead(cfg, w2, rest, h) ==>
                  StaysHead(cfg, w, evs, h))
            && FinishesIn(cfg, evs, cfg.Pool(h.model)) ==
               (if e0.Finish? && cfg.Pool(e0.r.model) == cfg.Pool(h.model) then 1 else 0)
               + (if e1.Finish? && cfg.Pool(e1.r.model) == cfg.Pool(h.model) then 1 else 0)
               + FinishesIn(cfg, rest, cfg.Pool(h.model))
  {
    var evs := [e0, e1] + rest;
    assert evs[1..] == [e1] + rest && evs[1..][1..] == rest;
    hide Step, Enabled, KeepsHead;
  }

  /** Such a head does come about: from an empty scheduler, two arrivals shut `h` out. */
  lemma ShutOutFromStart(cfg: Config, a: Request, h: Request)
    requires Shadowed(cfg, a, h)
    ensures var t := a.enqueuedAt;
            var w1 := Step(cfg, Start(t), Arrive(a, t)).0;
            && Enabled(Start(t), Arrive(a, t)) && Enabled(w1, Arrive(h, t))
            && ShutOut(cfg, Step(cfg, w1, Arrive(h, t)).0, a, 0, h)
  {
    var t := a.enqueuedAt;
    var w0 := Start(t);
    StartGood(cfg, t);
    assert w0.st.Waiting() == [];
    assert Nth(a, 0) == a;
    LoneArrival(cfg, w0, a);
    ArrivesShutOut(cfg, Step(cfg, w0, Arrive(a, t)).0, a, h);
  }

  lemma ArrivesShutOut(cfg: Config, w: World, a: Request, h: Request)
    requires Shadowed(cfg, a, h) && Good(cfg, w) && w.running == [a] && w.st.Waiting() == [] && w.clock == a.enqueuedAt
    ensures Enabled(w, Arrive(h, w.clock)) && ShutOut(cfg, Step(cfg, w, Arrive(h, w.clock)).0, a, 0, h)
  {
    var e := Arrive(h, w.clock);
    PrepareSafe(cfg, w, e);
    ReqsAppend(w.st.queue, Fresh(h));
    assert Nth(a, 0) == a;
    hide Reserve, FirstFit, Pump, Bounded, Tidy, Head;
    assert Prepare(cfg, w, e).value.Waiting() == [h];
    OthersExclude(cfg, Prepare(cfg, w, e).value, [a], a, h);
    hide Good, ExclusionBlocks, Reqs;
    StepIdles(cfg, w, e, h);
  }

  lemma MutexStarvesFromStart(cfg: Config, a: Request, h: Request, n: nat)
    requires Shadowed(cfg, a, h)
    ensures var t := a.enqueuedAt;
            var begin := [Arrive(a, t), Arrive(h, t)];
            Valid(cfg, Start(t), begin) && Starved(cfg, After(cfg, Start(t), begin), a, 0, h, n)
  {
    var t := a.enqueuedAt;
    ShutOutFromStart(cfg, a, h);
    TwoAndRest(cfg, Start(t), Arrive(a, t), Arrive(h, t), [], h);
    assert [Arrive(a, t), Arrive(h, t)] + [] == [Arrive(a, t), Arrive(h, t)];
    hide Step, Enabled, Shadowed, ShutOut, Starved;
    MutexStarves(cfg, After(cfg, Start(t), [Arrive(a, t), Arrive(h, t)]), a, 0, h, n);
  }

  /** No job starves, says the design; this one does: priority 1000 against 0, with aging on, and every
      run it waits for ends after one time unit. */
  lemma TopPriorityStarves(n: nat)
    ensures var cfg := UnitPool({DEFAULT_POOL}, 1.0);
            var a, h := Arrival(1, "resident", 0.4, 0, 1.0), Arrival(0, "shut out", 0.8, 1000, 1.0);
            var begin := [Arrive(a, 1.0), Arrive(h, 1.0)];
            Valid(cfg, Start(1.0), begin) && Starved(cfg, After(cfg, Start(1.0), begin), a, 0, h, n)
  {
    MutexStarvesFromStart(UnitPool({DEFAULT_POOL}, 1.0),
                          Arrival(1, "resident", 0.4, 0, 1.0), Arrival(0, "shut out", 0.8, 1000, 1.0), n);
  }
}
