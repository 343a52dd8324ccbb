/** The proxy object with the scheduler on: the requests' coroutines, the metrics and the event log,
    updated in place step by step, every step proved to be the one `Lifecycle` describes. */
module ProxyImpl {
  import opened Options
  import opened StableSort
  import opened SchedulerModel
  import opened SchedulerImpl
  import opened SchedulerRuns
  import opened Lifecycle
  import opened LifecycleProofs
  import L = Lifecycle

  /** One request's coroutine; `waiter` is null when it was turned away before dispatch. */
  class Call {
    const req: Request
    const waiter: Waiter?
    var cancelled: bool
    var phase: Phase
    var tAcquire: Option<real>
    var released: bool
    var emitted: bool

    constructor (req: Request, waiter: Waiter?, phase: Phase)
      requires waiter != null ==> waiter.req == req
      ensures this.req == req && this.waiter == waiter
      ensures Snap() == Job(phase, FutOf(waiter), false, None, false, false)
    {
      this.req, this.waiter, this.phase := req, waiter, phase;
      cancelled, tAcquire, released, emitted := false, None, false, false;
    }

    /** Updates the fields to show `j`; the future is the waiter's own. */
    method Become(j: Job)
      requires j.fut == FutOf(waiter)
      modifies this
      ensures Snap() == j
    {
      phase, cancelled, tAcquire, released, emitted := j.phase, j.cancelled, j.tAcquire, j.released, j.emitted;
    }

    function Snap(): Job
      reads this, if waiter == null then {} else {waiter}
    {
      Job(phase, FutOf(waiter), cancelled, tAcquire, released, emitted)
    }
  }

  /** A waiter's admission future as the coroutine sees it. */
  function FutOf(w: Waiter?): Fut
    reads if w == null then {} else {w}
  {
    if w == null then Unqueued
    else if w.fut.None? then Pending
    else if w.fut.value then Granted else Refused
  }

  ghost function WaitersOf(calls: map<Request, Call>): set<Waiter> {
    set c | c in calls.Values && c.waiter != null :: c.waiter
  }

  /** The calls show exactly the jobs `jobs`. */
  ghost predicate Agrees(calls: map<Request, Call>, jobs: map<Request, Job>)
    reads calls.Values, WaitersOf(calls)
  {
    && jobs.Keys == calls.Keys
    && forall r :: r in calls ==> calls[r].Snap() == jobs[r]
  }

  /** The calls show `jobs`, but for what became of the futures of the waiters `ws` since. */
  ghost predicate AgreesBut(calls: map<Request, Call>, jobs: map<Request, Job>, ws: seq<Waiter>)
    reads calls.Values, WaitersOf(calls)
  {
    && jobs.Keys == calls.Keys
    && forall r :: r in calls ==> ShowedAs(calls[r], jobs[r], ws)
  }

  ghost predicate ShowedAs(c: Call, j: Job, ws: seq<Waiter>)
    reads c, if c.waiter == null then {} else {c.waiter}
  {
    j == if c.waiter != null && c.waiter in ws then c.Snap().(fut := Pending) else c.Snap()
  }

  /** Calls and queued waiters belong together, one of each per request. */
  ghost predicate Linked(calls: map<Request, Call>, ws: seq<Waiter>) {
    && (forall r :: r in calls ==> calls[r].req == r && (calls[r].waiter != null ==> calls[r].waiter.req == r))
    && (forall w :: w in ws ==> w.req in calls && calls[w.req].waiter == w)
  }

  /** The scheduler object and the calls stand for the scheduler state `st` and the jobs `jobs`. */
  ghost predicate Represents(sched: Scheduler, calls: map<Request, Call>, st: State, jobs: map<Request, Job>)
    reads sched, sched.waiters, calls.Values, WaitersOf(calls)
  {
    sched.Valid() && sched.State() == st && Linked(calls, sched.waiters) && Agrees(calls, jobs)
  }

  class Proxy {
    const sched: Scheduler
    var calls: map<Request, Call>
    var inFlight: map<string, int>
    var queueDepth: map<string, int>
    var served: map<string, int>
    var errored: map<string, int>
    var events: seq<Record>
    ghost var v: L.Proxy  // the abstract state that the fields represent

    constructor (cfg: Config, ghost clock: real)
      ensures Valid() && v == Boot(clock) && sched.cfg == cfg
    {
      sched := new Scheduler(cfg);
      calls, inFlight, queueDepth, served, errored, events := map[], map[], map[], map[], map[], [];
      v := Boot(clock);
      new;
      BootInv(cfg, clock);
    }

    /** The fields represent `s`. */
    ghost predicate Shows(s: L.Proxy)
      reads this, sched, sched.waiters, calls.Values, WaitersOf(calls)
    {
      && Represents(sched, calls, s.w.st, s.jobs)
      && inFlight == s.inFlight && queueDepth == s.queueDepth && served == s.served && errored == s.errored
      && events == s.events
    }

    ghost predicate Valid()
      reads this, sched, sched.waiters, calls.Values, WaitersOf(calls)
    {
      Shows(v) && Inv(sched.cfg, v)
    }

    // ---- one scheduler operation ----

    /** What the calls show after a scheduler operation that started to pump with `ws`. */
    lemma Regranted(jobs: map<Request, Job>, ws: seq<Waiter>, earlier: seq<Admission>, adm: seq<Admission>)
      requires sched.Valid() && Linked(calls, ws) && AgreesBut(calls, jobs, ws)
      requires sched.log == earlier + adm && sched.Left(ws, earlier)
      requires forall x :: x in Admitted(adm) ==> x !in ReqsOf(sched.waiters) && x in ReqsOf(ws)
      ensures Agrees(calls, GrantAll(jobs, adm)) && Linked(calls, sched.waiters)
    {
      forall r | r in calls ensures calls[r].Snap() == GrantAll(jobs, adm)[r] {
        RegrantedAt(r, jobs, ws, earlier, adm);
      }
    }

    lemma RegrantedAt(
      r: Request, jobs: map<Request, Job>, ws: seq<Waiter>, earlier: seq<Admission>, adm: seq<Admission>)
      requires sched.Valid() && Linked(calls, ws) && jobs.Keys == calls.Keys && r in calls
      requires sched.log == earlier + adm && sched.Left(ws, earlier)
      requires ShowedAs(calls[r], jobs[r], ws)
      requires forall x :: x in Admitted(adm) ==> x !in ReqsOf(sched.waiters) && x in ReqsOf(ws)
      ensures calls[r].Snap() == GrantAll(jobs, adm)[r]
    {
      var w := calls[r].waiter;
      LinkedRequest(r, ws);
      hide NoDup;
      if w != null && w in ws {
        if w in sched.waiters {
          var i :| 0 <= i < |sched.waiters| && sched.waiters[i] == w;
          assert ReqsOf(sched.waiters)[i] == r;
        } else {
          var a := Admission(w.req, w.waitReason);
          assert a in adm by { assert sched.log[|earlier|..] == adm; }
          var i :| 0 <= i < |adm| && adm[i] == a;
          assert Admitted(adm)[i] == r;
        }
      }
    }

    lemma LinkedRequest(r: Request, ws: seq<Waiter>)
      requires Linked(calls, ws) && r in calls
      ensures r in ReqsOf(ws) ==> calls[r].waiter != null && calls[r].waiter in ws
    {
      if r in ReqsOf(ws) {
        var i :| 0 <= i < |ws| && ReqsOf(ws)[i] == r;
        assert ws[i] in ws;
      }
    }

    lemma AgreesSoFar(jobs: map<Request, Job>, ws: seq<Waiter>)
      requires Agrees(calls, jobs) && forall w :: w in ws ==> w.fut.None?
      ensures AgreesBut(calls, jobs, ws)
    {}

    /** The scheduler's release; the calls show what they did but for the futures of the waiters. */
    method SchedRelease(r: Request, now: real, ghost st: State, ghost ws: seq<Waiter>, ghost jobs: map<Request, Job>)
      requires sched.Valid() && sched.State() == st && sched.waiters == ws && AgreesBut(calls, jobs, ws)
      modifies sched, sched.waiters
      ensures sched.Valid() && sched.State() == Release(sched.cfg, st, r.model, Some(r.cost), now).0
      ensures sched.log == old(sched.log) + Release(sched.cfg, st, r.model, Some(r.cost), now).1
      ensures sched.Left(ws, old(sched.log)) && AgreesBut(calls, jobs, ws)
    {
      hide Release;
      sched.Release(r.model, Some(r.cost), now);
      forall r | r in calls ensures ShowedAs(calls[r], jobs[r], ws) {
        assert old(ShowedAs(calls[r], jobs[r], ws));
      }
    }

    /** Releases one run of `r` in the scheduler. */
    method ReleaseRun(r: Request, now: real, ghost s: L.Proxy)
      requires Represents(sched, calls, s.w.st, s.jobs) && Good(sched.cfg, s.w) && Enabled(s.w, Finish(r, now))
      modifies sched, sched.waiters
      ensures Represents(sched, calls, GiveBack(sched.cfg, s, r, now).w.st, GiveBack(sched.cfg, s, r, now).jobs)
    {
      hide Good, Enabled, Step, Release, GrantAll, GiveBack, Schedule, Admitted, StillRunning, WaitsFor;
      ghost var ws, earlier, e := sched.waiters, sched.log, Finish(r, now);
      ghost var adm := Step(sched.cfg, s.w, e).1;
      AdmittedWaiters(sched.cfg, s.w, e, adm);
      ReleaseStep(sched.cfg, s, r, now);
      FinishAdmits(sched.cfg, s.w, e, adm);
      sched.WaitingIsReqs();
      SchedRelease(r, now, s.w.st, ws, s.jobs);
      sched.WaitingIsReqs();
      Regranted(s.jobs, ws, earlier, adm);
    }

    /** The scheduler's withdraw, likewise. */
    method SchedWithdraw(w: Waiter, now: real, ghost st: State, ghost ws: seq<Waiter>, ghost jobs: map<Request, Job>)
      requires sched.Valid() && sched.State() == st && Removed(sched.waiters, w) == ws && AgreesBut(calls, jobs, ws)
      requires forall v :: v in sched.waiters && v.req == w.req ==> v == w
      modifies sched, sched.waiters, w`cancelled
      ensures sched.Valid() && sched.State() == Withdraw(sched.cfg, st, w.req, now).0
      ensures sched.log == old(sched.log) + Withdraw(sched.cfg, st, w.req, now).1
      ensures sched.Left(ws, old(sched.log)) && AgreesBut(calls, jobs, ws)
    {
      hide Withdraw;
      RemovedMembers(sched.waiters, w);
      sched.Withdraw(w, now);
      forall r | r in calls ensures ShowedAs(calls[r], jobs[r], ws) {
        assert old(ShowedAs(calls[r], jobs[r], ws));
      }
    }

    lemma RemainingWaiters(w: Waiter, ws: seq<Waiter>)
      requires sched.Valid() && Linked(calls, sched.waiters) && ws == Removed(sched.waiters, w)
      ensures Linked(calls, ws) && forall v :: v in ws ==> v.fut.None?
      ensures forall x :: x in sched.State().Waiting() && x != w.req ==> x in ReqsOf(ws)
      ensures w.req in calls && calls[w.req].waiter == w ==> forall v :: v in sched.waiters && v.req == w.req ==> v == w
    {
      sched.WaitingIsReqs();
      RemovedMembers(sched.waiters, w);
      hide Removed, SchedulerImpl.Scheduler.State;
      assert forall v :: v in ws ==> v in sched.waiters;
      forall x | x in ReqsOf(sched.waiters) && x != w.req ensures x in ReqsOf(ws) {
        var i :| 0 <= i < |sched.waiters| && ReqsOf(sched.waiters)[i] == x;
        var v := sched.waiters[i];
        assert v in sched.waiters && v in ws;
        var k :| 0 <= k < |ws| && ws[k] == v;
        assert ReqsOf(ws)[k] == x;
      }
    }

    /** What is known before a parked request is withdrawn: `ws` is what remains of the queue. */
    lemma BeforeWithdraw(c: Call, now: real, s: L.Proxy, ws: seq<Waiter>, adm: seq<Admission>)
      requires Represents(sched, calls, s.w.st, s.jobs) && Good(sched.cfg, s.w) && Enabled(s.w, Cancel(c.req, now))
      requires c.req in calls && calls[c.req] == c && c.waiter != null && ws == Removed(sched.waiters, c.waiter)
      requires adm == Withdraw(sched.cfg, s.w.st, c.req, now).1
      ensures Linked(calls, ws) && AgreesBut(calls, s.jobs, ws)
      ensures forall v :: v in sched.waiters && v.req == c.req ==> v == c.waiter
      ensures forall x :: x in Admitted(adm) ==>
              x !in Withdraw(sched.cfg, s.w.st, c.req, now).0.Waiting() && x in ReqsOf(ws)
    {
      hide Good, Enabled, Step, Withdraw, GrantAll, Schedule, Admitted, StillRunning, WaitsFor;
      ghost var e := Cancel(c.req, now);
      WithdrawStep(sched.cfg, s, c.req, now);
      AdmittedWaiters(sched.cfg, s.w, e, adm);
      RemainingWaiters(c.waiter, ws);
      AgreesSoFar(s.jobs, ws);
      CancelAdmits(sched.cfg, s.w, e, adm);
    }

    /** Withdraws a parked request from the scheduler. */
    method WithdrawRun(c: Call, now: real, ghost s: L.Proxy, ghost end: L.Proxy)
      requires Represents(sched, calls, s.w.st, s.jobs) && Good(sched.cfg, s.w) && Enabled(s.w, Cancel(c.req, now))
      requires c.req in calls && calls[c.req] == c && c.waiter != null
      requires end == Schedule(sched.cfg, s, Cancel(c.req, now))
      modifies sched, sched.waiters, c.waiter`cancelled
      ensures Represents(sched, calls, end.w.st, end.jobs)
    {
      hide Good, Enabled, Step, Withdraw, GrantAll, Schedule, Admitted, Removed, AgreesBut;
      var w := c.waiter;
      ghost var ws, earlier, adm := Removed(sched.waiters, w), sched.log, Withdraw(sched.cfg, s.w.st, c.req, now).1;
      BeforeWithdraw(c, now, s, ws, adm);
      WithdrawStep(sched.cfg, s, c.req, now);
      SchedWithdraw(w, now, s.w.st, ws, s.jobs);
      sched.WaitingIsReqs();
      Regranted(s.jobs, ws, earlier, adm);
    }

    /** The scheduler's enqueue of a waiter that fits its pool, likewise. */
    method SchedEnqueue(w: Waiter, now: real, ghost st: State, ghost ws: seq<Waiter>, ghost jobs: map<Request, Job>)
      requires sched.Valid() && sched.State() == st && ws == sched.waiters + [w] && AgreesBut(calls, jobs, ws)
      requires w.req !in ReqsOf(sched.waiters) && w.fut.None? && w.Mark() == Fresh(w.req)
      requires CostFitsPool(sched.cfg, w.req)
      modifies sched, sched.waiters, w
      ensures sched.Valid() && sched.State() == Enqueue(sched.cfg, st, w.req, now).0
      ensures sched.log == old(sched.log) + Enqueue(sched.cfg, st, w.req, now).1
      ensures sched.Left(ws, old(sched.log)) && AgreesBut(calls, jobs, ws)
    {
      hide Enqueue;
      sched.Enqueue(w, now);
      forall r | r in calls ensures ShowedAs(calls[r], jobs[r], ws) {
        assert old(ShowedAs(calls[r], jobs[r], ws));
      }
    }

    /** The scheduler's refusal of a waiter that can never fit. */
    method SchedRefuse(w: Waiter, now: real, ghost st: State, ghost jobs: map<Request, Job>)
      requires Represents(sched, calls, st, jobs) && w.req in calls && calls[w.req].waiter == w
      requires w.req !in ReqsOf(sched.waiters) && w.fut.None? && w.Mark() == Fresh(w.req)
      requires !CostFitsPool(sched.cfg, w.req)
      modifies sched, sched.waiters, w
      ensures Represents(sched, calls, st, jobs[w.req := jobs[w.req].(fut := Refused)])
    {
      hide Pump, SchedulerImpl.Scheduler.State;
      sched.Enqueue(w, now);
      forall r | r in calls ensures calls[r].Snap() == jobs[w.req := jobs[w.req].(fut := Refused)][r] {
        assert old(calls[r].Snap()) == jobs[r];
        assert calls[r].waiter != null ==> calls[r].waiter.req == r;
      }
    }

    /** What is known before an arrival that fits its pool is enqueued behind the queue `ws[..|ws| - 1]`. */
    lemma BeforeEnqueue(c: Call, now: real, s: L.Proxy, ws: seq<Waiter>, adm: seq<Admission>)
      requires Represents(sched, calls, s.w.st, s.jobs) && Good(sched.cfg, s.w) && Enabled(s.w, Arrive(c.req, now))
      requires c.req in calls && calls[c.req] == c && c.waiter != null && c.waiter.fut.None?
      requires ws == sched.waiters + [c.waiter]
      requires adm == Enqueue(sched.cfg, s.w.st, c.req, now).1
      ensures Linked(calls, ws) && AgreesBut(calls, s.jobs, ws) && c.req !in ReqsOf(sched.waiters)
      ensures forall x :: x in Admitted(adm) ==>
              x !in Enqueue(sched.cfg, s.w.st, c.req, now).0.Waiting() && x in ReqsOf(ws)
    {
      hide Good, Step, Enqueue, GrantAll, Schedule, Admitted, StillRunning, WaitsFor;
      EnqueueStep(sched.cfg, s, c.req, now);
      AdmittedWaiters(sched.cfg, s.w, Arrive(c.req, now), adm);
      sched.WaitingIsReqs();
      assert ReqsOf(ws) == ReqsOf(sched.waiters) + [c.req];
      ArriveAdmits(sched.cfg, s.w, Arrive(c.req, now), adm);
      AgreesSoFar(s.jobs, ws);
    }

    /** Enqueues an arrival, or has it refused. */
    method EnqueueRun(c: Call, now: real, ghost s: L.Proxy, ghost jobs: map<Request, Job>, ghost end: L.Proxy)
      requires Represents(sched, calls, s.w.st, jobs) && Good(sched.cfg, s.w) && Enabled(s.w, Arrive(c.req, now))
      requires c.req in calls && calls[c.req] == c && c.waiter != null && c.waiter.fut.None?
      requires c.waiter.Mark() == Fresh(c.req)
      requires s.jobs == if CostFitsPool(sched.cfg, c.req) then jobs else jobs[c.req := jobs[c.req].(fut := Refused)]
      requires end == Schedule(sched.cfg, s, Arrive(c.req, now))
      modifies sched, sched.waiters, c.waiter
      ensures Represents(sched, calls, end.w.st, end.jobs)
    {
      hide Good, Step, Enqueue, GrantAll, Schedule, Admitted, CostFitsPool, AgreesBut;
      EnqueueStep(sched.cfg, s, c.req, now);
      if CostFitsPool(sched.cfg, c.req) {
        ghost var ws, earlier, adm := sched.waiters + [c.waiter], sched.log, Enqueue(sched.cfg, s.w.st, c.req, now).1;
        BeforeEnqueue(c, now, s, ws, adm);
        SchedEnqueue(c.waiter, now, s.w.st, ws, s.jobs);
        sched.WaitingIsReqs();
        Regranted(s.jobs, ws, earlier, adm);
      } else {
        sched.WaitingIsReqs();
        SchedRefuse(c.waiter, now, s.w.st, jobs);
      }
    }

    // ---- the parts of a step ----

    /** Updates the fields of `c` to show `j`; the other calls and the scheduler are untouched. */
    method Put(c: Call, j: Job, ghost st: State, ghost jobs: map<Request, Job>)
      requires Represents(sched, calls, st, jobs) && c.req in calls && calls[c.req] == c && j.fut == c.Snap().fut
      modifies c
      ensures Represents(sched, calls, st, jobs[c.req := j])
    {
      assert forall r :: r in calls && calls[r] == c ==> r == c.req;
      assert jobs.Keys == calls.Keys && forall r :: r in calls ==> calls[r].Snap() == jobs[r];
      hide Agrees, Linked, NoDup, SchedulerImpl.Scheduler.Valid, SchedulerImpl.Scheduler.State, ReqsOf;
      c.Become(j);
      forall r | r in calls && r != c.req ensures calls[r].Snap() == jobs[r] {
        assert old(calls[r].Snap()) == jobs[r];
      }
      OneCall(c, jobs, j);
    }

    /** Only `c` changed: the other calls show what they did. */
    lemma OneCall(c: Call, jobs: map<Request, Job>, j: Job)
      requires c.req in calls && calls[c.req] == c && c.Snap() == j && jobs.Keys == calls.Keys
      requires forall r :: r in calls && r != c.req ==> calls[r].Snap() == jobs[r]
      ensures Agrees(calls, jobs[c.req := j])
    {}

    lemma CallShows(c: Call, s: L.Proxy)
      requires Shows(s) && c.req in calls && calls[c.req] == c
      ensures c.req in s.jobs && c.Snap() == s.jobs[c.req]
    {}

    /** Emits the event of `c` and ends it. */
    method Emit(c: Call, status: int, outcome: Outcome, now: real, ghost s: L.Proxy)
      requires Shows(s) && c.req in calls && calls[c.req] == c
      modifies this`events, c
      ensures Shows(L.Emit(s, c.req, s.jobs[c.req], status, outcome, now))
    {
      hide Represents;
      CallShows(c, s);
      Log(Record(c.req, c.tAcquire, now, status, outcome), s);
      Put(c, c.Snap().(phase := Ended, emitted := true), s.w.st, s.jobs);
    }

    /** The slot is taken: the request goes into service. */
    method TakeSlot(c: Call, now: real, ghost s: L.Proxy)
      requires Shows(s) && c.req in calls && calls[c.req] == c
      modifies this`inFlight, c
      ensures Shows(SetJob(s, c.req, s.jobs[c.req].(phase := Sending, tAcquire := Some(now)))
                      .(inFlight := Bump(s.inFlight, c.req.model, 1)))
    {
      hide Represents, Bump;
      CallShows(c, s);
      CountService(c.req.model, s.w.st, s.jobs);
      Put(c, c.Snap().(phase := Sending, tAcquire := Some(now)), s.w.st, s.jobs);
    }

    /** The meter of a run that goes into service. */
    method CountService(model: string, ghost st: State, ghost jobs: map<Request, Job>)
      requires Represents(sched, calls, st, jobs)
      modifies this`inFlight
      ensures Represents(sched, calls, st, jobs) && inFlight == Bump(old(inFlight), model, 1)
    {
      inFlight := Bump(inFlight, model, 1);
    }

    /** The `release` closure, under its flag. */
    method ReleaseSlot(c: Call, status: int, now: real, ghost s: L.Proxy)
      requires Shows(s) && c.req in calls && calls[c.req] == c
      requires Good(sched.cfg, s.w) && Enabled(s.w, Finish(c.req, now))
      modifies this`inFlight, this`served, this`errored, c, sched, sched.waiters
      ensures Shows(L.ReleaseSlot(sched.cfg, s, c.req, status, now))
    {
      hide Represents, Good, Enabled, GiveBack, GoodStatus, Bump;
      CallShows(c, s);
      if c.released {
        return;
      }
      ghost var s1 := SetJob(s, c.req, s.jobs[c.req].(released := true));
      GiveBackKeeps(sched.cfg, s1, c.req, now);
      CountRelease(c.req.model, status, s.w.st, s.jobs);
      Put(c, c.Snap().(released := true), s.w.st, s.jobs);
      ReleaseRun(c.req, now, s1);
    }

    /** The meters of a released run. */
    method CountRelease(model: string, status: int, ghost st: State, ghost jobs: map<Request, Job>)
      requires Represents(sched, calls, st, jobs)
      modifies this`inFlight, this`served, this`errored
      ensures Represents(sched, calls, st, jobs) && inFlight == Bump(old(inFlight), model, -1)
      ensures served == if GoodStatus(status) then Bump(old(served), model, 1) else old(served)
      ensures errored == if GoodStatus(status) then old(errored) else Bump(old(errored), model, 1)
    {
      inFlight := Bump(inFlight, model, -1);
      if GoodStatus(status) {
        served := Bump(served, model, 1);
      } else {
        errored := Bump(errored, model, 1);
      }
    }

    /** The `finish` closure, under its flag. */
    method FinishCall(c: Call, status: int, outcome: Outcome, now: real, ghost s: L.Proxy)
      requires Shows(s) && c.req in calls && calls[c.req] == c
      modifies this`events, c
      ensures Shows(L.FinishJob(s, c.req, status, outcome, now))
    {
      CallShows(c, s);
      if !c.emitted {
        Emit(c, status, outcome, now, s);
      }
    }

    /** The end of an upstream attempt: release, then finish. */
    method Close(c: Call, status: int, outcome: Outcome, now: real, ghost s: L.Proxy)
      requires Shows(s) && c.req in calls && calls[c.req] == c
      requires Good(sched.cfg, s.w) && Enabled(s.w, Finish(c.req, now))
      modifies this`inFlight, this`served, this`errored, this`events, c, sched, sched.waiters
      ensures Shows(L.Closed(sched.cfg, s, c.req, status, outcome, now))
    {
      hide Shows, Good, Enabled, L.ReleaseSlot, L.FinishJob;
      CallShows(c, s);
      ReleaseSlot(c, status, now, s);
      FinishCall(c, status, outcome, now, L.ReleaseSlot(sched.cfg, s, c.req, status, now));
    }

    /** Completes a step: `s` becomes the abstract state. */
    method Commit(ghost s: L.Proxy)
      requires Shows(s) && Inv(sched.cfg, s)
      modifies this`v
      ensures Valid() && v == s
    {
      hide Inv;
      v := s;
    }

    // ---- the steps ----

    lemma CallOf(r: Request)
      requires Valid() && r in v.jobs
      ensures r in calls && calls[r].req == r && calls[r].Snap() == v.jobs[r]
    {}

    /** The send to the upstream fails. */
    method SendFailed(r: Request, now: real)
      requires Valid() && r in calls && Possible(v, SendFails(r, now))
      modifies this, sched, sched.waiters, calls[r]
      ensures Valid() && v == Next(sched.cfg, old(v), SendFails(r, now))
    {
      ghost var s, step := v, SendFails(r, now);
      EndsItsRun(sched.cfg, s, step);
      StepInv(sched.cfg, s, step);
      CallOf(r);
      hide Represents, Inv, Good, Enabled, Closed;
      Close(calls[r], 599, UpstreamError, now, s);
      Commit(Next(sched.cfg, s, step));
    }

    /** Response headers: the stream begins. */
    method BeginStream(c: Call, status: int, ghost s: L.Proxy)
      requires Shows(s) && c.req in calls && calls[c.req] == c
      modifies c
      ensures Shows(SetJob(s, c.req, s.jobs[c.req].(phase := Streaming(status))))
    {
      CallShows(c, s);
      hide Represents;
      Put(c, c.Snap().(phase := Streaming(status)), s.w.st, s.jobs);
    }

    /** The upstream answers with `status`. */
    method HeadersArrived(r: Request, status: int, now: real)
      requires Valid() && r in calls && Possible(v, HeadersIn(r, status, now))
      modifies this, calls[r]
      ensures Valid() && v == Next(sched.cfg, old(v), HeadersIn(r, status, now))
    {
      ghost var s, step := v, HeadersIn(r, status, now);
      StepInv(sched.cfg, s, step);
      CallOf(r);
      hide Represents, Inv, ArriveStep, WakeStep, Closed, SetJob;
      BeginStream(calls[r], status, s);
      Commit(Next(sched.cfg, s, step));
    }

    /** The response stream ends, by itself or because the client or the upstream broke it off. */
    method StreamEnded(r: Request, natural: bool, now: real)
      requires Valid() && r in calls && Possible(v, StreamEnds(r, natural, now))
      modifies this, sched, sched.waiters, calls[r]
      ensures Valid() && v == Next(sched.cfg, old(v), StreamEnds(r, natural, now))
    {
      ghost var s, step := v, StreamEnds(r, natural, now);
      EndsItsRun(sched.cfg, s, step);
      StepInv(sched.cfg, s, step);
      CallOf(r);
      hide Represents, Inv, Good, Enabled, Closed, FinalOutcome;
      var status := calls[r].phase.status;
      Close(calls[r], status, FinalOutcome(status, natural), now, s);
      Commit(Next(sched.cfg, s, step));
    }

    /** Resolves the cancel future of a queued request. */
    method NoteCancel(c: Call, ghost s: L.Proxy)
      requires Shows(s) && c.req in calls && calls[c.req] == c
      modifies c
      ensures Shows(if s.jobs[c.req].phase.Parked? then SetJob(s, c.req, s.jobs[c.req].(cancelled := true)) else s)
    {
      CallShows(c, s);
      hide Represents;
      if c.phase.Parked? {
        Put(c, c.Snap().(cancelled := true), s.w.st, s.jobs);
      }
    }

    /** An operator cancels `r`: only a request that is still queued takes notice. */
    method CancelAsk(r: Request, now: real)
      requires Valid() && Possible(v, CancelAsked(r, now))
      modifies this, if r in calls then {calls[r]} else {}
      ensures Valid() && v == Next(sched.cfg, old(v), CancelAsked(r, now))
    {
      ghost var s, step := v, CancelAsked(r, now);
      StepInv(sched.cfg, s, step);
      KnownCalls(r);
      hide Represents, Inv;
      if r in calls {
        CallOf(r);
        NoteCancel(calls[r], s);
      }
      Commit(Next(sched.cfg, s, step));
    }

    lemma KnownCalls(r: Request)
      requires Valid()
      ensures r in calls <==> r in v.jobs
    {}

    /** The cancel won: the waiter was never admitted. */
    method DropOut(c: Call, now: real, ghost s: L.Proxy, ghost s2: L.Proxy)
      requires Shows(s) && c.req in calls && calls[c.req] == c && c.waiter != null
      requires Good(sched.cfg, s.w) && Enabled(s.w, Cancel(c.req, now))
      requires s2 == Schedule(sched.cfg, s, Cancel(c.req, now)) && s2 == s.(w := s2.w, jobs := s2.jobs)
      requires c.req in s2.jobs
      modifies this`events, c, c.waiter, sched, sched.waiters
      ensures Shows(L.Emit(s2, c.req, s2.jobs[c.req], 499, CancelledQueued, now))
    {
      hide Represents, Good, Enabled, Schedule, L.Emit;
      WithdrawRun(c, now, s, s2);
      Emit(c, 499, CancelledQueued, now, s2);
    }

    /** Admitted and cancelled at once: the admission was charged, so it is given back. */
    method GiveUp(c: Call, now: real, ghost s: L.Proxy, ghost s2: L.Proxy)
      requires Shows(s) && c.req in calls && calls[c.req] == c
      requires Good(sched.cfg, s.w) && Enabled(s.w, Finish(c.req, now))
      requires s2 == GiveBack(sched.cfg, s, c.req, now) && c.req in s2.jobs
      modifies this`events, c, sched, sched.waiters
      ensures Shows(L.Emit(s2, c.req, s2.jobs[c.req], 499, CancelledQueued, now))
    {
      hide Represents, Good, Enabled, GiveBack, L.Emit;
      GiveBackKeeps(sched.cfg, s, c.req, now);
      ReleaseRun(c.req, now, s);
      Emit(c, 499, CancelledQueued, now, s2);
    }

    /** The branches of a wake-up. */
    method Resume(c: Call, now: real, ghost s: L.Proxy)
      requires Shows(s) && c.req in calls && calls[c.req] == c && c.waiter != null
      requires Inv(sched.cfg, s) && Possible(s, Wakes(c.req, now))
      modifies this`inFlight, this`events, this`queueDepth, c, c.waiter, sched, sched.waiters
      ensures Shows(L.WakeStep(sched.cfg, s, c.req, now))
    {
      hide Shows, Inv, Good, Enabled, Schedule, GiveBack, Bump, L.Emit, Possible;
      WakeKeepsOwn(sched.cfg, s, c.req, now);
      CallShows(c, s);
      LeaveQueue(c, s);
      ghost var s1 := s.(queueDepth := Bump(s.queueDepth, c.req.model, -1));
      if c.waiter.fut.None? {
        DropOut(c, now, s1, Schedule(sched.cfg, s1, Cancel(c.req, now)));
      } else if !c.waiter.fut.value {
        Emit(c, 503, RejectedUnadmittable, now, s1);
      } else if c.cancelled {
        GiveUp(c, now, s1, GiveBack(sched.cfg, s1, c.req, now));
      } else {
        TakeSlot(c, now, s1);
      }
    }

    /** The coroutine of a parked request resumes. */
    method Wake(r: Request, now: real)
      requires Valid() && r in calls && calls[r].waiter != null && Possible(v, Wakes(r, now))
      modifies this, sched, sched.waiters, calls[r], calls[r].waiter
      ensures Valid() && v == Next(sched.cfg, old(v), Wakes(r, now))
    {
      ghost var s, step := v, Wakes(r, now);
      StepInv(sched.cfg, s, step);
      CallOf(r);
      hide Represents, Inv, WakeStep;
      Resume(calls[r], now, s);
      Commit(Next(sched.cfg, s, step));
    }

    /** The request leaves the queue registry. */
    method LeaveQueue(c: Call, ghost s: L.Proxy)
      requires Shows(s)
      modifies this`queueDepth
      ensures Shows(s.(queueDepth := Bump(s.queueDepth, c.req.model, -1)))
    {
      queueDepth := Bump(queueDepth, c.req.model, -1);
    }

    /** Puts a new call into the registry. */
    method Register(c: Call, ghost s: L.Proxy)
      requires Shows(s) && c.req !in calls && (c.waiter != null ==> c.waiter.req == c.req)
      modifies this`calls
      ensures Shows(SetJob(s, c.req, c.Snap())) && calls == old(calls)[c.req := c]
    {
      OneMoreCall(sched, calls, s.w.st, s.jobs, c);
      hide Agrees, Linked, SchedulerImpl.Scheduler.Valid, SchedulerImpl.Scheduler.State;
      calls := calls[c.req := c];
    }

    /** Turns a request away before dispatch. */
    method TurnAway(r: Request, status: int, outcome: Outcome, now: real, ghost s: L.Proxy)
      requires Shows(s) && r !in calls
      modifies this`calls, this`events
      ensures Shows(L.Emit(s, r, Job(Ended, Unqueued, false, None, false, true), status, outcome, now))
    {
      hide Represents;
      var c := NewlyEnded(r, s);
      Log(Record(r, None, now, status, outcome), s);
      Register(c, s.(events := events));
    }

    method NewlyEnded(r: Request, ghost s: L.Proxy) returns (c: Call)
      requires Shows(s)
      ensures Shows(s) && fresh(c) && c.req == r && c.waiter == null
      ensures c.Snap() == Job(Ended, Unqueued, false, None, false, true)
    {
      c := new Call(r, null, Ended);
      c.Become(Job(Ended, Unqueued, false, None, false, true));
    }

    /** The coroutine and the waiter of an accepted request. */
    method NewCall(r: Request, ghost s: L.Proxy) returns (c: Call)
      requires Shows(s)
      ensures Shows(s) && fresh(c) && c.req == r && c.waiter != null && fresh(c.waiter) && c.waiter.req == r
      ensures c.waiter.fut.None? && c.waiter.Mark() == Fresh(r)
      ensures c.Snap() == Job(Parked, Pending, false, None, false, false)
    {
      var w := new Waiter(r);
      c := new Call(r, w, Parked);
    }

    /** Registers an accepted request and hands it to the scheduler. */
    method Admit(r: Request, now: real, ghost s: L.Proxy)
      requires Shows(s) && r !in calls && Good(sched.cfg, s.w) && Enabled(s.w, Arrive(r, now))
      modifies this`calls, this`queueDepth, sched, sched.waiters
      ensures Shows(L.ArriveStep(sched.cfg, s, r, Accepted, now))
    {
      hide Represents, Good, Enabled, Schedule, CostFitsPool, Bump;
      var c := NewCall(r, s);
      Register(c, s);
      CountQueued(r.model, s.w.st, s.jobs[r := c.Snap()]);
      ghost var s1 := SetJob(s, r,
                        Job(Parked, if CostFitsPool(sched.cfg, r) then Pending else Refused, false, None, false, false))
                        .(queueDepth := Bump(s.queueDepth, r.model, 1));
      ScheduleKeeps(sched.cfg, s1, Arrive(r, now));
      EnqueueRun(c, now, s1, s.jobs[r := c.Snap()], Schedule(sched.cfg, s1, Arrive(r, now)));
    }

    /** The meter of a request that joins the queue. */
    method CountQueued(model: string, ghost st: State, ghost jobs: map<Request, Job>)
      requires Represents(sched, calls, st, jobs)
      modifies this`queueDepth
      ensures Represents(sched, calls, st, jobs) && queueDepth == Bump(old(queueDepth), model, 1)
    {
      queueDepth := Bump(queueDepth, model, 1);
    }

    /** A request arrives, with what the size ceiling and the breaker say about it. */
    method ArriveCall(r: Request, gate: Gate, now: real)
      requires Valid() && Possible(v, Arrives(r, gate, now))
      modifies this, sched, sched.waiters
      ensures Valid() && v == Next(sched.cfg, old(v), Arrives(r, gate, now))
    {
      ghost var s, step := v, Arrives(r, gate, now);
      StepInv(sched.cfg, s, step);
      KnownCalls(r);
      ArrivalEnabled(sched.cfg, s, r, now);
      hide Represents, Inv, Good, Enabled, ArriveStep;
      match gate {
        case Oversized => TurnAway(r, 413, RejectedOversized, now, s);
        case Unhealthy => TurnAway(r, 503, RejectedUnhealthy, now, s);
        case Accepted => Admit(r, now, s);
      }
      Commit(Next(sched.cfg, s, step));
    }

    /** The event goes to the writer. */
    method Log(e: Record, ghost s: L.Proxy)
      requires Shows(s)
      modifies this`events
      ensures Shows(s.(events := s.events + [e])) && events == s.events + [e]
    {
      events := events + [e];
    }
  }

  lemma ArrivalEnabled(cfg: Config, s: L.Proxy, r: Request, now: real)
    requires Inv(cfg, s) && Possible(s, Arrives(r, Accepted, now))
    ensures Good(cfg, s.w) && Enabled(s.w, Arrive(r, now))
  {
    InnerEnabled(cfg, s, Arrives(r, Accepted, now));
  }

  lemma OneMoreCall(sched: Scheduler, calls: map<Request, Call>, st: State, jobs: map<Request, Job>, c: Call)
    requires Represents(sched, calls, st, jobs) && c.req !in calls && (c.waiter != null ==> c.waiter.req == c.req)
    ensures Represents(sched, calls[c.req := c], st, jobs[c.req := c.Snap()])
  {}

  /** A wake-up's scheduler operation is allowed, and leaves the request's own job alone. */
  lemma WakeKeepsOwn(cfg: Config, s: L.Proxy, r: Request, now: real)
    requires Inv(cfg, s) && Possible(s, Wakes(r, now))
    ensures var s1 := s.(queueDepth := Bump(s.queueDepth, r.model, -1));
            && (s.jobs[r].fut.Pending? ==>
                  Good(cfg, s1.w) && Enabled(s1.w, Cancel(r, now)) && r in Schedule(cfg, s1, Cancel(r, now)).jobs
                  && Schedule(cfg, s1, Cancel(r, now)).jobs[r] == s.jobs[r]
                  && Schedule(cfg, s1, Cancel(r, now)) ==
                     s1.(w := Schedule(cfg, s1, Cancel(r, now)).w, jobs := Schedule(cfg, s1, Cancel(r, now)).jobs))
            && (s.jobs[r].fut.Granted? && s.jobs[r].cancelled ==>
                  Good(cfg, s1.w) && Enabled(s1.w, Finish(r, now)) && r in GiveBack(cfg, s1, r, now).jobs
                  && GiveBack(cfg, s1, r, now).jobs[r] == s.jobs[r])
  {
    InnerEnabled(cfg, s, Wakes(r, now));
    var s1 := s.(queueDepth := Bump(s.queueDepth, r.model, -1));
    if s.jobs[r].fut.Pending? {
      Moves(cfg, s1.w, Cancel(r, now), r);
    } else if s.jobs[r].fut.Granted? && s.jobs[r].cancelled {
      Moves(cfg, s1.w, Finish(r, now), r);
      assert InStep(s.w, s.jobs, r);
      assert Tidy(cfg, s.w.st, s.w.running, s.w.clock);
    }
    hide Good, Enabled, Inv, Tidy;
  }

  lemma EndsItsRun(cfg: Config, s: L.Proxy, step: Move)
    requires Inv(cfg, s) && Possible(s, step) && (step.SendFails? || step.StreamEnds?)
    ensures Good(cfg, s.w) && Enabled(s.w, Finish(step.r, step.now)) && step.r in s.jobs
  {
    InnerEnabled(cfg, s, step);
    assert Flagged(s.jobs[step.r], s.clock);
  }

  lemma ScheduleKeeps(cfg: Config, s: L.Proxy, e: Event)
    ensures Schedule(cfg, s, e) == s.(w := Schedule(cfg, s, e).w, jobs := Schedule(cfg, s, e).jobs)
  {}

  lemma GiveBackKeeps(cfg: Config, s: L.Proxy, r: Request, now: real)
    ensures var s' := GiveBack(cfg, s, r, now);
            && s'.inFlight == s.inFlight && s'.queueDepth == s.queueDepth && s'.served == s.served
            && s'.errored == s.errored
            && s'.events == s.events
  {}

  lemma EnqueueStep(cfg: Config, s: L.Proxy, r: Request, now: real)
    ensures var e := Arrive(r, now);
            var (st, adm) := Enqueue(cfg, s.w.st, r, now);
            && Step(cfg, s.w, e).0.st == st && Step(cfg, s.w, e).1 == adm
            && Schedule(cfg, s, e).w.st == st && Schedule(cfg, s, e).jobs == GrantAll(s.jobs, adm)
            && (!CostFitsPool(cfg, r) ==> st == s.w.st && GrantAll(s.jobs, adm) == s.jobs)
  {}

  lemma ArriveAdmits(cfg: Config, w: World, e: Event, adm: seq<Admission>)
    requires e.Arrive? && forall x :: x in Admitted(adm) ==> WaitsFor(cfg, w, e, x)
    ensures forall x :: x in Admitted(adm) ==> x in w.st.Waiting() || x == e.r
  {}

  lemma WithdrawStep(cfg: Config, s: L.Proxy, r: Request, now: real)
    ensures var e := Cancel(r, now);
            var (st, adm) := Withdraw(cfg, s.w.st, r, now);
            && Step(cfg, s.w, e).0.st == st && Step(cfg, s.w, e).1 == adm
            && Schedule(cfg, s, e).w.st == st && Schedule(cfg, s, e).jobs == GrantAll(s.jobs, adm)
  {}

  lemma FinishAdmits(cfg: Config, w: World, e: Event, adm: seq<Admission>)
    requires e.Finish? && forall x :: x in Admitted(adm) ==> WaitsFor(cfg, w, e, x)
    ensures forall x :: x in Admitted(adm) ==> x in w.st.Waiting()
  {}

  lemma CancelAdmits(cfg: Config, w: World, e: Event, adm: seq<Admission>)
    requires e.Cancel? && forall x :: x in Admitted(adm) ==> WaitsFor(cfg, w, e, x)
    ensures forall x :: x in Admitted(adm) ==> x in w.st.Waiting() && x != e.r
  {}

  lemma ReleaseStep(cfg: Config, s: L.Proxy, r: Request, now: real)
    ensures var e := Finish(r, now);
            var (st, adm) := Release(cfg, s.w.st, r.model, Some(r.cost), now);
            && Step(cfg, s.w, e) == (World(st, StillRunning(s.w, e) + Admitted(adm), now), adm)
            && GiveBack(cfg, s, r, now) ==
                 s.(w := World(st, StillRunning(s.w, e) + Admitted(adm), now), jobs := GrantAll(s.jobs, adm),
                    refunds := s.refunds + [Refund(r, r.cost)])
  {}

  /** The requests that an operation admits are those that wait when it pumps and no longer. */
  lemma AdmittedWaiters(cfg: Config, w: World, e: Event, adm: seq<Admission>)
    requires Good(cfg, w) && Enabled(w, e) && adm == Step(cfg, w, e).1
    ensures forall x :: x in Admitted(adm) ==> x !in Step(cfg, w, e).0.st.Waiting() && WaitsFor(cfg, w, e, x)
  {
    forall x | x in Admitted(adm) ensures x !in Step(cfg, w, e).0.st.Waiting() && WaitsFor(cfg, w, e, x) {
      Moves(cfg, w, e, x);
    }
  }
}
