/** Resource pools do not interfere: what happens in a pool is exactly what a scheduler would do
    that only ever saw that pool's requests. */
module SchedulerPools {
  import opened Options
  import opened StableSort
  import opened SchedulerModel
  import opened SchedulerPump
  import opened SchedulerOrder
  import opened SchedulerRuns
  import opened SchedulerProgress

  function EntryIn(cfg: Config, p: string): Entry -> bool {
    (e: Entry) => cfg.Pool(e.req.model) == p
  }

  function AdmissionIn(cfg: Config, p: string): Admission -> bool {
    (a: Admission) => cfg.Pool(a.req.model) == p
  }

  function Restrict<V>(m: map<string, V>, keep: string -> bool): map<string, V> {
    map k | k in m && keep(k) :: m[k]
  }

  function Is(p: string): string -> bool {
    (k: string) => k == p
  }

  function ModelIn(cfg: Config, p: string): string -> bool {
    (m: string) => cfg.Pool(m) == p
  }

  /** The part of the state that belongs to pool `p`. */
  function Project(cfg: Config, st: State, p: string): State {
    State(Restrict(st.used, Is(p)),
          Restrict(st.inFlight, ModelIn(cfg, p)),
          Filter(st.queue, EntryIn(cfg, p)),
          Restrict(st.reserved, Is(p)))
  }

  // ---- projecting the queue ----

  lemma {:induction false} FilterReqs(cfg: Config, q: seq<Entry>, p: string)
    ensures Reqs(Filter(q, EntryIn(cfg, p))) == Filter(Reqs(q), InPool(cfg, p))
  {
    if |q| > 0 {
      FilterReqs(cfg, q[1..], p);
      assert Reqs(q)[1..] == Reqs(q[1..]);
      assert Reqs([q[0]] + Filter(q[1..], EntryIn(cfg, p))) == [q[0].req] + Reqs(Filter(q[1..], EntryIn(cfg, p)));
    }
  }

  lemma {:induction false} FilterMarked(
    a: seq<Entry>, b: seq<Entry>, keep: Entry -> bool, c: seq<Entry>, mark: Entry -> Entry)
    requires |a| == |b| && forall i :: 0 <= i < |a| ==> keep(b[i]) == keep(a[i]) && (keep(a[i]) ==> b[i] == mark(a[i]))
    requires |c| == |Filter(a, keep)| && forall i :: 0 <= i < |c| ==> c[i] == mark(Filter(a, keep)[i])
    ensures Filter(b, keep) == c
  {
    if |a| > 0 {
      if keep(a[0]) {
        assert Filter(a, keep)[1..] == Filter(a[1..], keep);
        FilterMarked(a[1..], b[1..], keep, c[1..], mark);
        assert c == [c[0]] + c[1..];
      } else {
        FilterMarked(a[1..], b[1..], keep, c, mark);
      }
    }
  }

  function EntryExcept(r: Request): Entry -> bool {
    (e: Entry) => e.req != r
  }

  lemma WithoutIsFilter(q: seq<Entry>, r: Request)
    requires NoDup(Reqs(q))
    ensures Without(q, r) == Filter(q, EntryExcept(r))
  {
    var i := IndexOf(q, r);
    if i < |q| {
      var left, right := q[..i], q[i + 1..];
      forall e | e in right ensures e.req != r {
        var k :| i < k < |q| && q[k] == e;
        assert Reqs(q)[i] != Reqs(q)[k];
      }
      assert q == left + ([q[i]] + right);
      FilterDrop(left, right, q[i], EntryExcept(r));
    } else {
      forall e | e in q ensures e.req != r {
        var k :| 0 <= k < |q| && q[k] == e;
        assert Reqs(q)[k] == e.req;
      }
      FilterAll(q, EntryExcept(r));
    }
  }

  /** Removing a waiter commutes with projecting. */
  lemma ProjectWithout(cfg: Config, q: seq<Entry>, r: Request, p: string)
    requires NoDup(Reqs(q))
    ensures Filter(Without(q, r), EntryIn(cfg, p)) == Without(Filter(q, EntryIn(cfg, p)), r)
    ensures cfg.Pool(r.model) != p ==> Filter(Without(q, r), EntryIn(cfg, p)) == Filter(q, EntryIn(cfg, p))
  {
    var keep := EntryIn(cfg, p);
    FilterReqs(cfg, q, p);
    FilterNoDup(Reqs(q), InPool(cfg, p));
    WithoutIsFilter(q, r);
    WithoutIsFilter(Filter(q, keep), r);
    FilterSwap(q, EntryExcept(r), keep);
    if cfg.Pool(r.model) != p {
      FilterTwice(q, EntryExcept(r), keep);
    }
  }

  // ---- projecting decisions ----

  lemma ProjectAgrees(cfg: Config, st: State, p: string)
    ensures AgreeIn(cfg, Project(cfg, st, p), st, p)
    ensures Project(cfg, st, p).ReservedFor(p) == st.ReservedFor(p)
  {
    FilterReqs(cfg, st.queue, p);
    FilterTwice(st.Waiting(), InPool(cfg, p), InPool(cfg, p));
  }

  lemma ProjectedQueue(cfg: Config, st: State, p: string)
    ensures forall e :: e in Project(cfg, st, p).queue <==> e in st.queue && cfg.Pool(e.req.model) == p
    ensures Project(cfg, st, p).Waiting() == Filter(st.Waiting(), InPool(cfg, p))
  {
    FilterMembers(st.queue, EntryIn(cfg, p));
    FilterReqs(cfg, st.queue, p);
  }

  lemma ProjectReserveMark(cfg: Config, st: State, now: real, p: string, e: Entry)
    requires cfg.Pool(e.req.model) == p
    ensures ReserveMark(cfg, Project(cfg, st, p), now, e) == ReserveMark(cfg, st, now, e)
  {
    ProjectAgrees(cfg, st, p);
    AgreeHeads(cfg, Project(cfg, st, p), st, now, p);
  }

  lemma ProjectReserveMarks(cfg: Config, st: State, now: real, p: string)
    ensures Filter(ReserveMarks(cfg, st, now), EntryIn(cfg, p)) == ReserveMarks(cfg, Project(cfg, st, p), now)
  {
    var q := Project(cfg, st, p);
    ProjectedQueue(cfg, st, p);
    var mark := (e: Entry) => ReserveMark(cfg, st, now, e);
    var a, c := ReserveMarks(cfg, st, now), ReserveMarks(cfg, q, now);
    forall i | 0 <= i < |c| ensures c[i] == mark(q.queue[i]) {
      assert q.queue[i] in q.queue;
      ProjectReserveMark(cfg, st, now, p, q.queue[i]);
    }
    forall i | 0 <= i < |a| ensures a[i] == mark(st.queue[i]) && a[i].req == st.queue[i].req {}
    hide ReserveMarks, ReserveMark;
    FilterMarked(st.queue, a, EntryIn(cfg, p), c, mark);
  }

  lemma ProjectReserve(cfg: Config, st: State, now: real, p: string)
    ensures Project(cfg, Reserve(cfg, st, now), p) == Reserve(cfg, Project(cfg, st, p), now)
  {
    ProjectReserveMarks(cfg, st, now, p);
    ProjectReserved(cfg, st, now, p);
  }

  lemma ProjectPools(cfg: Config, st: State, p: string)
    ensures p in PoolsWithWaiters(cfg, Project(cfg, st, p)) <==> p in PoolsWithWaiters(cfg, st)
    ensures forall k :: k in PoolsWithWaiters(cfg, Project(cfg, st, p)) ==> k == p
  {
    var q := Project(cfg, st, p);
    ProjectedQueue(cfg, st, p);
    hide Project;
    if p in PoolsWithWaiters(cfg, st) {
      var e :| e in st.queue && cfg.Pool(e.req.model) == p;
      assert e in q.queue;
    }
  }

  lemma ProjectReserved(cfg: Config, st: State, now: real, p: string)
    ensures Project(cfg, Reserve(cfg, st, now), p).reserved == Reserve(cfg, Project(cfg, st, p), now).reserved
  {
    var q := Project(cfg, st, p);
    ProjectAgrees(cfg, st, p);
    ProjectPools(cfg, st, p);
    AgreeHeads(cfg, q, st, now, p);
    hide BlockedHead, PoolsWithWaiters, AgreeIn, Head, ReserveMarks, Filter;
  }

  lemma ProjectWaitMark(cfg: Config, st: State, p: string, e: Entry)
    requires cfg.Pool(e.req.model) == p
    ensures WaitMark(cfg, Project(cfg, st, p), e) == WaitMark(cfg, st, e)
  {
    ProjectAgrees(cfg, st, p);
    AgreeBlocks(cfg, Project(cfg, st, p), st, e.req);
  }

  lemma ProjectRecord(cfg: Config, st: State, p: string)
    ensures Project(cfg, RecordWaits(cfg, st), p) == RecordWaits(cfg, Project(cfg, st, p))
  {
    var q := Project(cfg, st, p);
    ProjectedQueue(cfg, st, p);
    var mark := (e: Entry) => WaitMark(cfg, st, e);
    var a, c := RecordWaits(cfg, st).queue, RecordWaits(cfg, q).queue;
    forall i | 0 <= i < |c| ensures c[i] == mark(q.queue[i]) {
      assert q.queue[i] in q.queue;
      ProjectWaitMark(cfg, st, p, q.queue[i]);
    }
    forall i | 0 <= i < |a| ensures a[i] == mark(st.queue[i]) && a[i].req == st.queue[i].req {}
    hide WaitMark;
    FilterMarked(st.queue, a, EntryIn(cfg, p), c, mark);
  }

  lemma ProjectAdmitMaps(cfg: Config, st: State, r: Request, p: string)
    ensures var own := if cfg.Pool(r.model) == p then Admit(cfg, Project(cfg, st, p), r) else Project(cfg, st, p);
            var all := Project(cfg, Admit(cfg, st, r), p);
            all.used == own.used && all.reserved == own.reserved
  {
    hide Without, Filter, EntryIn, ModelIn;
  }

  lemma ProjectAdmitCounts(cfg: Config, st: State, r: Request, p: string)
    ensures var own := if cfg.Pool(r.model) == p then Admit(cfg, Project(cfg, st, p), r) else Project(cfg, st, p);
            Project(cfg, Admit(cfg, st, r), p).inFlight == own.inFlight
  {
    hide Without, Filter, EntryIn;
  }

  lemma ProjectAdmitQueue(cfg: Config, st: State, r: Request, p: string)
    requires NoDup(st.Waiting())
    ensures var own := if cfg.Pool(r.model) == p then Admit(cfg, Project(cfg, st, p), r) else Project(cfg, st, p);
            Project(cfg, Admit(cfg, st, r), p).queue == own.queue
  {
    ProjectWithout(cfg, st.queue, r, p);
    hide Without, NoDup, Filter, EntryIn, Restrict;
  }

  lemma ProjectAdmit(cfg: Config, st: State, r: Request, p: string)
    requires NoDup(st.Waiting())
    ensures Project(cfg, Admit(cfg, st, r), p) ==
            if cfg.Pool(r.model) == p then Admit(cfg, Project(cfg, st, p), r) else Project(cfg, st, p)
  {
    ProjectAdmitMaps(cfg, st, r, p);
    ProjectAdmitCounts(cfg, st, r, p);
    ProjectAdmitQueue(cfg, st, r, p);
    hide Project, Admit, NoDup;
  }

  lemma ProjectFirstFit(cfg: Config, st: State, now: real, p: string)
    ensures FirstFit(cfg, st, now) == None ==> FirstFit(cfg, Project(cfg, st, p), now) == None
    ensures FirstFit(cfg, st, now).Some? && cfg.Pool(FirstFit(cfg, st, now).value.model) == p
            ==> FirstFit(cfg, Project(cfg, st, p), now) == FirstFit(cfg, st, now)
  {
    var q := Project(cfg, st, p);
    ProjectAgrees(cfg, st, p);
    ProjectedQueue(cfg, st, p);
    forall r: Request | cfg.Pool(r.model) == p ensures Admittable(cfg, q, now, r) == Admittable(cfg, st, now, r) {
      AgreeAdmittable(cfg, q, st, now, r);
    }
    hide Admittable;
    FilterMembers(st.Waiting(), InPool(cfg, p));
    var ordered, adm := Ordered(cfg, st.Waiting(), now), AdmittableIn(cfg, st, now);
    if FirstFit(cfg, st, now).Some? && cfg.Pool(FirstFit(cfg, st, now).value.model) == p {
      SortFilter(st.Waiting(), PriorityKey(cfg, now), InPool(cfg, p));
      FirstWhereFilter(ordered, InPool(cfg, p), adm);
      FilterMembers(ordered, InPool(cfg, p));
      FirstWhereCongruence(Filter(ordered, InPool(cfg, p)), AdmittableIn(cfg, q, now), adm);
    }
  }

  lemma ProjectReason(cfg: Config, st: State, r: Request, p: string)
    requires NoDup(st.Waiting()) && r in st.Waiting() && cfg.Pool(r.model) == p
    ensures r in Project(cfg, st, p).Waiting()
    ensures Project(cfg, st, p).queue[IndexOf(Project(cfg, st, p).queue, r)] == st.queue[IndexOf(st.queue, r)]
  {
    var q := Project(cfg, st, p);
    ProjectedQueue(cfg, st, p);
    FilterNoDup(st.Waiting(), InPool(cfg, p));
    var e := EntryOf(st.queue, r);
    assert e in q.queue;
    EntryUnique(q.queue, e);
  }

  /** One pass, projected: it is that pool's own pass, or that pool does not notice it. */
  lemma ProjectPass(cfg: Config, st: State, now: real, p: string)
    requires NoDup(st.Waiting())
    ensures var pass, own := OnePass(cfg, st, now), OnePass(cfg, Project(cfg, st, p), now);
            if pass.Admits? && cfg.Pool(pass.admission.req.model) == p
            then own == Admits(Project(cfg, pass.st, p), pass.admission)
            else if pass.Admits? then Project(cfg, pass.st, p) == Reserve(cfg, Project(cfg, st, p), now)
            else own == Idle(Project(cfg, pass.st, p))
  {
    var s1, q := Reserve(cfg, st, now), Project(cfg, st, p);
    var q1 := Reserve(cfg, q, now);
    ReserveKeepsWaiting(cfg, st, now);
    ReserveKeepsWaiting(cfg, q, now);
    ProjectReserve(cfg, st, now, p);
    ProjectFirstFit(cfg, s1, now, p);
    match FirstFit(cfg, s1, now)
    case None =>
      ProjectRecord(cfg, s1, p);
      if |st.queue| == 0 {
        assert q.queue == [];
      }
      EmptyPass(cfg, q1);
    case Some(r) =>
      ProjectAdmit(cfg, s1, r, p);
      if cfg.Pool(r.model) == p {
        ProjectReason(cfg, s1, r, p);
        assert |q1.queue| > 0;
      }
  }

  lemma EmptyPass(cfg: Config, st: State)
    ensures |st.queue| == 0 ==> RecordWaits(cfg, st) == st
  {}

  /** The admit loop, projected, is the pool's own admit loop. */
  lemma {:induction false} ProjectPump(cfg: Config, st: State, now: real, p: string)
    requires Orderly(st)
    ensures Pump(cfg, Project(cfg, st, p), now) ==
            (Project(cfg, Pump(cfg, st, now).0, p), Filter(Pump(cfg, st, now).1, AdmissionIn(cfg, p)))
    decreases |st.queue|
  {
    ProjectPass(cfg, st, now, p);
    PassKeepsOrderly(cfg, st, now);
    ReserveBeforePump(cfg, Project(cfg, st, p), now);
    hide OnePass, Reserve, Project;
    match OnePass(cfg, st, now)
    case Idle(s) =>
    case Admits(s, a) =>
      ProjectPump(cfg, s, now, p);
      var rest := Pump(cfg, s, now).1;
      assert ([a] + rest)[1..] == rest;
  }

  // ---- projecting operations and runs ----

  function EventIn(cfg: Config, p: string): Event -> bool {
    (e: Event) => cfg.Pool(e.r.model) == p
  }

  /** `v` is what pool `p` of `w` looks like to a scheduler of its own. */
  ghost predicate Mirrors(cfg: Config, w: World, v: World, p: string) {
    v.st == Project(cfg, w.st, p) && v.running == Filter(w.running, InPool(cfg, p)) && v.clock <= w.clock
  }

  lemma ProjectEnqueued(cfg: Config, st: State, r: Request, p: string)
    ensures Project(cfg, st.(queue := st.queue + [Fresh(r)]), p) ==
            var q := Project(cfg, st, p);
            if cfg.Pool(r.model) == p then q.(queue := q.queue + [Fresh(r)]) else q
  {
    FilterAppend(st.queue, [Fresh(r)], EntryIn(cfg, p));
    assert [Fresh(r)][1..] == [];
    hide Restrict;
  }

  lemma ProjectWithdrawn(cfg: Config, st: State, r: Request, p: string)
    requires NoDup(st.Waiting())
    ensures Project(cfg, Withdrawn(cfg, st, r), p) ==
            if cfg.Pool(r.model) == p then Withdrawn(cfg, Project(cfg, st, p), r) else Project(cfg, st, p)
  {
    ProjectWithout(cfg, st.queue, r, p);
    WithdrawnReserved(cfg, st, r, p);
    hide Without, NoDup, Filter, Restrict, EntryIn;
  }

  lemma WithdrawnReserved(cfg: Config, st: State, r: Request, p: string)
    ensures var own := if cfg.Pool(r.model) == p then Withdrawn(cfg, Project(cfg, st, p), r) else Project(cfg, st, p);
            Project(cfg, Withdrawn(cfg, st, r), p).reserved == own.reserved
  {
    hide Without, Filter, ModelIn;
  }

  lemma ProjectRefunded(cfg: Config, st: State, model: string, cost: real, p: string)
    ensures Project(cfg, Refunded(cfg, st, model, cost), p) ==
            if cfg.Pool(model) == p then Refunded(cfg, Project(cfg, st, p), model, cost) else Project(cfg, st, p)
  {
    RefundedUsed(cfg, st, model, cost, p);
    RefundedCounts(cfg, st, model, cost, p);
    hide Filter, Restrict;
  }

  lemma RefundedUsed(cfg: Config, st: State, model: string, cost: real, p: string)
    ensures var own := if cfg.Pool(model) == p then Refunded(cfg, Project(cfg, st, p), model, cost)
                       else Project(cfg, st, p);
            Project(cfg, Refunded(cfg, st, model, cost), p).used == own.used
  {
    hide Filter, ModelIn;
  }

  lemma RefundedCounts(cfg: Config, st: State, model: string, cost: real, p: string)
    ensures var own := if cfg.Pool(model) == p then Refunded(cfg, Project(cfg, st, p), model, cost)
                       else Project(cfg, st, p);
            Project(cfg, Refunded(cfg, st, model, cost), p).inFlight == own.inFlight
  {
    hide Filter;
  }

  /** What an operation makes of the state before the pump, projected. */
  lemma ProjectPrepare(cfg: Config, w: World, v: World, e: Event, p: string)
    requires Mirrors(cfg, w, v, p) && NoDup(w.st.Waiting())
    ensures Prepare(cfg, w, e) == None <==> Prepare(cfg, v, e) == None
    ensures Prepare(cfg, w, e).Some? ==>
            Project(cfg, Prepare(cfg, w, e).value, p) ==
            if cfg.Pool(e.r.model) == p then Prepare(cfg, v, e).value else v.st
  {
    ProjectEnqueued(cfg, w.st, e.r, p);
    ProjectWithdrawn(cfg, w.st, e.r, p);
    ProjectRefunded(cfg, w.st, e.r.model, e.r.cost, p);
    hide Project, Withdrawn, Refunded, NoDup;
  }

  lemma {:induction false} ProjectAdmissions(cfg: Config, adm: seq<Admission>, p: string)
    ensures Filter(Admitted(adm), InPool(cfg, p)) == Admitted(Filter(adm, AdmissionIn(cfg, p)))
  {
    if |adm| > 0 {
      ProjectAdmissions(cfg, adm[1..], p);
      assert Admitted(adm)[1..] == Admitted(adm[1..]);
      var rest := Filter(adm[1..], AdmissionIn(cfg, p));
      assert Admitted([adm[0]] + rest) == [adm[0].req] + Admitted(rest);
    }
  }

  lemma ProjectRunning(cfg: Config, w: World, v: World, e: Event, p: string)
    requires Mirrors(cfg, w, v, p)
    ensures Filter(StillRunning(w, e), InPool(cfg, p)) ==
            if cfg.Pool(e.r.model) == p then StillRunning(v, e) else v.running
  {
    if e.Finish? {
      FilterSwap(w.running, Except(e.r), InPool(cfg, p));
      if cfg.Pool(e.r.model) != p {
        FilterTwice(w.running, Except(e.r), InPool(cfg, p));
      }
    }
  }

  lemma PrepareOrderly(cfg: Config, w: World, e: Event)
    requires Good(cfg, w) && Enabled(w, e)
    ensures Orderly(w.st)
    ensures Prepare(cfg, w, e).Some? ==> Orderly(Prepare(cfg, w, e).value)
  {
    PrepareSafe(cfg, w, e);
  }

  /** An operation on a waiter of pool `p` does to `p` what it does to a scheduler of its own. */
  lemma StepOwn(cfg: Config, w: World, v: World, e: Event, p: string)
    requires Good(cfg, w) && Enabled(w, e) && Mirrors(cfg, w, v, p) && cfg.Pool(e.r.model) == p
    ensures Enabled(v, e)
    ensures Mirrors(cfg, Step(cfg, w, e).0, Step(cfg, v, e).0, p)
    ensures Step(cfg, v, e).1 == Filter(Step(cfg, w, e).1, AdmissionIn(cfg, p))
  {
    ProjectStepState(cfg, w, v, e, p);
    ProjectRunning(cfg, w, v, e, p);
    OwnEnabled(cfg, w, v, e, p);
    var adm := Step(cfg, w, e).1;
    ProjectAdmissions(cfg, adm, p);
    FilterAppend(StillRunning(w, e), Admitted(adm), InPool(cfg, p));
    hide Project, Good, Enabled, StillRunning, Admitted, StepState, Filter;
  }

  lemma ProjectStepState(cfg: Config, w: World, v: World, e: Event, p: string)
    requires Good(cfg, w) && Enabled(w, e) && Mirrors(cfg, w, v, p) && cfg.Pool(e.r.model) == p
    ensures StepState(cfg, v, e) ==
            (Project(cfg, StepState(cfg, w, e).0, p), Filter(StepState(cfg, w, e).1, AdmissionIn(cfg, p)))
  {
    PrepareOrderly(cfg, w, e);
    StepIsPump(cfg, w, e);
    StepIsPump(cfg, v, e);
    ProjectPrepare(cfg, w, v, e, p);
    hide StepState, Project, Orderly, Good, Enabled, Prepare, Pump;
    match Prepare(cfg, w, e)
    case Some(st) => ProjectPump(cfg, st, e.now, p);
    case None =>
  }

  lemma OwnEnabled(cfg: Config, w: World, v: World, e: Event, p: string)
    requires Enabled(w, e) && Mirrors(cfg, w, v, p) && cfg.Pool(e.r.model) == p
    ensures Enabled(v, e)
  {
    ProjectedQueue(cfg, w.st, p);
    FilterMembers(w.st.Waiting(), InPool(cfg, p));
    FilterMembers(w.running, InPool(cfg, p));
  }

  /** The pool's own state is settled whenever the whole is. */
  lemma ProjectSettled(cfg: Config, w: World, now: real, p: string)
    requires Good(cfg, w) && w.clock <= now
    ensures Pump(cfg, Project(cfg, w.st, p), now) == (Project(cfg, w.st, p), [])
  {
    ProjectPump(cfg, w.st, w.clock, p);
    ProjectedQueue(cfg, w.st, p);
    FilterMembers(w.st.Waiting(), InPool(cfg, p));
    RepumpIsIdle(cfg, Project(cfg, w.st, p), w.clock, now);
  }

  /** An operation on a waiter of another pool never changes `p`. */
  lemma StepOther(cfg: Config, w: World, v: World, e: Event, p: string)
    requires Good(cfg, w) && Enabled(w, e) && Mirrors(cfg, w, v, p) && cfg.Pool(e.r.model) != p
    ensures Mirrors(cfg, Step(cfg, w, e).0, v, p)
    ensures Filter(Step(cfg, w, e).1, AdmissionIn(cfg, p)) == []
  {
    PrepareOrderly(cfg, w, e);
    StepIsPump(cfg, w, e);
    ProjectRunning(cfg, w, v, e, p);
    var adm := Step(cfg, w, e).1;
    ProjectAdmissions(cfg, adm, p);
    FilterAppend(StillRunning(w, e), Admitted(adm), InPool(cfg, p));
    assert Admitted([]) == [];
    ProjectSettled(cfg, w, e.now, p);
    match Prepare(cfg, w, e)
    case Some(st) =>
      ProjectPrepare(cfg, w, v, e, p);
      hide Project, Orderly, Good, Enabled, Prepare, StillRunning, Admitted;
      ProjectPump(cfg, st, e.now, p);
    case None =>
  }

  /** Pools do not interfere: over any run, what is left of pool `p` - ledger, counts, waiters with
      their marks, reservation, runs and the admissions with their reasons - is exactly the run of a
      scheduler fed only the events of `p`. */
  lemma {:induction false} PoolsDoNotInterfere(cfg: Config, w: World, v: World, evs: seq<Event>, p: string)
    requires Good(cfg, w) && Valid(cfg, w, evs) && Mirrors(cfg, w, v, p)
    ensures Valid(cfg, v, Filter(evs, EventIn(cfg, p)))
    ensures Mirrors(cfg, After(cfg, w, evs), After(cfg, v, Filter(evs, EventIn(cfg, p))), p)
    ensures Log(cfg, v, Filter(evs, EventIn(cfg, p))) == Filter(Log(cfg, w, evs), AdmissionIn(cfg, p))
    decreases |evs|
  {
    hide Good, Mirrors, Step, Enabled;
    if |evs| > 0 {
      var e, rest := evs[0], Filter(evs[1..], EventIn(cfg, p));
      var (w', adm) := Step(cfg, w, e);
      StepGood(cfg, w, e);
      FilterAppend(adm, Log(cfg, w', evs[1..]), AdmissionIn(cfg, p));
      if cfg.Pool(e.r.model) == p {
        StepOwn(cfg, w, v, e, p);
        PoolsDoNotInterfere(cfg, w', Step(cfg, v, e).0, evs[1..], p);
        assert ([e] + rest)[1..] == rest;
      } else {
        StepOther(cfg, w, v, e, p);
        PoolsDoNotInterfere(cfg, w', v, evs[1..], p);
      }
    }
  }

  /** From an empty scheduler: every run's admissions in `p` are those of `p`'s own events. */
  lemma PoolAdmissionsFromStart(cfg: Config, clock: real, evs: seq<Event>, p: string)
    requires Valid(cfg, Start(clock), evs)
    ensures Valid(cfg, Start(clock), Filter(evs, EventIn(cfg, p)))
    ensures Log(cfg, Start(clock), Filter(evs, EventIn(cfg, p))) ==
            Filter(Log(cfg, Start(clock), evs), AdmissionIn(cfg, p))
    ensures After(cfg, Start(clock), Filter(evs, EventIn(cfg, p))).st ==
            Project(cfg, After(cfg, Start(clock), evs).st, p)
  {
    StartGood(cfg, clock);
    PoolsDoNotInterfere(cfg, Start(clock), Start(clock), evs, p);
  }
}
