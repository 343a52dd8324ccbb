/** What every interleaving of the proxy's steps keeps: the scheduler's books agree with the
    requests' phases, every grant is given back once, every request emits one event. */
module LifecycleProofs {
  import opened Options
  import opened StableSort
  import opened SchedulerModel
  import opened SchedulerPump
  import opened SchedulerOrder
  import opened SchedulerRuns
  import opened SchedulerProgress
  import opened Lifecycle
  import C = Concurrency

  // ---- what one scheduler operation does to who waits and who runs ----

  /** Whether `x` waits when operation `e` starts to pump. */
  predicate WaitsFor(cfg: Config, w: World, e: Event, x: Request) {
    match e
    case Arrive(r, _) => x in w.st.Waiting() || (x == r && CostFitsPool(cfg, r))
    case Cancel(r, _) => x in w.st.Waiting() && x != r
    case Finish(_, _) => x in w.st.Waiting()
  }

  predicate RunsOn(w: World, e: Event, x: Request) {
    x in w.running && !(e.Finish? && x == e.r)
  }

  lemma PreparedWaits(cfg: Config, w: World, e: Event, x: Request)
    requires Good(cfg, w) && Enabled(w, e) && Prepare(cfg, w, e).Some?
    ensures x in Prepare(cfg, w, e).value.Waiting() <==> WaitsFor(cfg, w, e, x)
  {
    match e
    case Arrive(r, _) => ReqsAppend(w.st.queue, Fresh(r));
    case Cancel(r, _) =>
      WithoutReqs(w.st.queue, r);
      FilterMembers(w.st.Waiting(), Except(r));
    case Finish(_, _) =>
  }

  lemma Moves(cfg: Config, w: World, e: Event, x: Request)
    requires Good(cfg, w) && Enabled(w, e)
    ensures var (w', adm) := Step(cfg, w, e);
            && (WaitsFor(cfg, w, e, x) <==> x in w'.st.Waiting() || x in Admitted(adm))
            && (x in Admitted(adm) ==> x !in w'.st.Waiting())
            && (x in w'.running <==> RunsOn(w, e, x) || x in Admitted(adm))
  {
    StepIsPump(cfg, w, e);
    StepGood(cfg, w, e);
    FilterMembers(w.running, Except(e.r));
    var (w', adm) := Step(cfg, w, e);
    assert w'.running == StillRunning(w, e) + Admitted(adm);
    match Prepare(cfg, w, e)
    case Some(st) =>
      PreparedWaits(cfg, w, e, x);
      PrepareSafe(cfg, w, e);
      PumpMoves(cfg, st, e.now, x);
    case None =>
      assert Admitted([]) == [];
  }

  // ---- the scheduler's lists against the requests' phases ----

  ghost predicate InStep(w: World, jobs: map<Request, Job>, x: Request) {
    && (x in w.st.Waiting() <==> x in jobs && jobs[x].phase.Parked? && jobs[x].fut.Pending?)
    && (x in w.running <==> x in jobs && jobs[x].Live())
  }

  /** The scheduler is good, exactly the parked unresolved requests wait in it, and exactly the
      granted, unfinished ones run in it. */
  ghost predicate Synced(cfg: Config, s: Proxy) {
    && Good(cfg, s.w) && s.w.clock <= s.clock
    && forall x :: InStep(s.w, s.jobs, x)
  }

  /** The jobs after operation `e` on behalf of `e.r`, whose own job becomes `j`. */
  function JobsAfter(jobs: map<Request, Job>, adm: seq<Admission>, e: Event, j: Job): map<Request, Job> {
    if e.Arrive? then GrantAll(jobs[e.r := j], adm) else GrantAll(jobs, adm)[e.r := j]
  }

  /** What the caller of operation `e` makes of its own job. */
  predicate Suits(cfg: Config, jobs: map<Request, Job>, e: Event, j: Job) {
    match e
    case Arrive(r, _) => r !in jobs && j.phase.Parked? && j.fut == if CostFitsPool(cfg, r) then Pending else Refused
    case Cancel(r, _) => r in jobs && jobs[r].fut.Pending? && j.phase.Ended?
    case Finish(_, _) => j.phase.Ended?
  }

  lemma PointInStep(
    cfg: Config, w: World, w': World, jobs: map<Request, Job>, adm: seq<Admission>, e: Event, j: Job, x: Request)
    requires InStep(w, jobs, x) && Suits(cfg, jobs, e, j) && (e.Finish? ==> e.r in w.running)
    requires x in w.st.Waiting() ==> x !in w.running
    requires WaitsFor(cfg, w, e, x) <==> x in w'.st.Waiting() || x in Admitted(adm)
    requires x in Admitted(adm) ==> x !in w'.st.Waiting()
    requires x in w'.running <==> RunsOn(w, e, x) || x in Admitted(adm)
    ensures InStep(w', JobsAfter(jobs, adm, e, j), x)
  {}

  /** One scheduler operation on behalf of a request, whose own job then becomes `j`, stays in step. */
  lemma StaysInStep(cfg: Config, s: Proxy, e: Event, j: Job)
    requires Synced(cfg, s) && Enabled(s.w, e) && Suits(cfg, s.jobs, e, j)
    ensures var (w, adm) := Step(cfg, s.w, e);
            && Good(cfg, w) && w.clock == e.now
            && forall x :: InStep(w, JobsAfter(s.jobs, adm, e, j), x)
  {
    StepGood(cfg, s.w, e);
    var (w, adm) := Step(cfg, s.w, e);
    forall x ensures InStep(w, JobsAfter(s.jobs, adm, e, j), x) {
      Moves(cfg, s.w, e, x);
      assert InStep(s.w, s.jobs, x);
      assert x in s.w.st.Waiting() ==> x !in s.w.running by {
        assert Tidy(cfg, s.w.st, s.w.running, s.w.clock);
      }
      hide InStep, Good, Suits, JobsAfter, WaitsFor, RunsOn;
      PointInStep(cfg, s.w, w, s.jobs, adm, e, j, x);
    }
  }

  // ---- a step, component by component ----

  /** What a step makes of its own request's job. */
  function OwnJob(cfg: Config, s: Proxy, step: Move): Job
    requires Possible(s, step) && (step.CancelAsked? ==> step.r in s.jobs)
  {
    match step
    case Arrives(r, gate, _) =>
      if gate.Accepted? then Job(Parked, if CostFitsPool(cfg, r) then Pending else Refused, false, None, false, false)
      else Job(Ended, Unqueued, false, None, false, true)
    case CancelAsked(r, _) => if s.jobs[r].phase.Parked? then s.jobs[r].(cancelled := true) else s.jobs[r]
    case Wakes(r, now) =>
      if s.jobs[r].fut.Granted? && !s.jobs[r].cancelled then s.jobs[r].(phase := Sending, tAcquire := Some(now))
      else s.jobs[r].(phase := Ended, emitted := true)
    case HeadersIn(r, status, _) => s.jobs[r].(phase := Streaming(status))
    case _ => s.jobs[step.r].(phase := Ended, released := true, emitted := true)
  }

  /** The event a step emits, if any. */
  function Emitted(s: Proxy, step: Move): seq<Record>
    requires Possible(s, step)
  {
    match step
    case Arrives(r, Oversized, now) => [Record(r, None, now, 413, RejectedOversized)]
    case Arrives(r, Unhealthy, now) => [Record(r, None, now, 503, RejectedUnhealthy)]
    case Wakes(r, now) =>
      if s.jobs[r].fut.Granted? && !s.jobs[r].cancelled then []
      else if s.jobs[r].fut.Refused? then [Record(r, s.jobs[r].tAcquire, now, 503, RejectedUnadmittable)]
      else [Record(r, s.jobs[r].tAcquire, now, 499, CancelledQueued)]
    case SendFails(r, now) => [Record(r, s.jobs[r].tAcquire, now, 599, UpstreamError)]
    case StreamEnds(r, natural, now) =>
      var status := s.jobs[r].phase.status;
      [Record(r, s.jobs[r].tAcquire, now, status, FinalOutcome(status, natural))]
    case _ => []
  }

  /** The refund a step makes: exactly the steps that finish a run in the scheduler. */
  function Repayment(s: Proxy, step: Move): seq<Refund>
    requires Possible(s, step)
  {
    match Inner(s, step)
    case Some(Finish(r, _)) => [Refund(r, r.cost)]
    case _ => []
  }

  /** The flags a job may show in each phase. */
  predicate Flagged(j: Job, clock: real) {
    && (j.phase.Parked? ==> !j.released && !j.emitted && j.tAcquire.None? && !j.fut.Unqueued?)
    && (j.InService() ==> j.fut.Granted? && !j.released && !j.emitted && j.tAcquire.Some? && j.tAcquire.value <= clock)
    && (j.phase.Ended? ==> j.emitted)
  }

  predicate AllFlagged(s: Proxy) {
    forall x :: x in s.jobs ==> Flagged(s.jobs[x], s.clock)
  }

  lemma GrantOthers(jobs: map<Request, Job>, adm: seq<Admission>, r: Request, a: Job, b: Job)
    ensures GrantAll(jobs[r := a], adm)[r := b] == GrantAll(jobs, adm)[r := b]
  {}

  /** The scheduler and the jobs after a step. */
  function WorldAfter(cfg: Config, s: Proxy, step: Move): World
    requires Possible(s, step)
  {
    match Inner(s, step) case None => s.w case Some(e) => Step(cfg, s.w, e).0
  }

  function JobsNext(cfg: Config, s: Proxy, step: Move): map<Request, Job>
    requires Possible(s, step)
  {
    if step.CancelAsked? && step.r !in s.jobs then s.jobs
    else match Inner(s, step)
         case None => s.jobs[step.r := OwnJob(cfg, s, step)]
         case Some(e) => JobsAfter(s.jobs, Step(cfg, s.w, e).1, e, OwnJob(cfg, s, step))
  }

  lemma CloseJobs(cfg: Config, s: Proxy, r: Request, status: int, outcome: Outcome, now: real)
    requires r in s.jobs && Flagged(s.jobs[r], s.clock) && s.jobs[r].InService()
    ensures var (w, adm) := Step(cfg, s.w, Finish(r, now));
            var j := s.jobs[r].(phase := Ended, released := true, emitted := true);
            Closed(cfg, s, r, status, outcome, now) ==
              s.(w := w, jobs := JobsAfter(s.jobs, adm, Finish(r, now), j),
                 inFlight := Bump(s.inFlight, r.model, -1),
                 served := if GoodStatus(status) then Bump(s.served, r.model, 1) else s.served,
                 errored := if GoodStatus(status) then s.errored else Bump(s.errored, r.model, 1),
                 events := s.events + [Record(r, s.jobs[r].tAcquire, now, status, outcome)],
                 refunds := s.refunds + [Refund(r, r.cost)])
  {
    var (w, adm) := Step(cfg, s.w, Finish(r, now));
    hide SchedulerRuns.Step, GoodStatus, Bump, Admitted;
    GrantOthers(s.jobs, adm, r, s.jobs[r].(released := true),
                s.jobs[r].(phase := Ended, released := true, emitted := true));
  }

  lemma WakeJobs(cfg: Config, s: Proxy, r: Request, now: real)
    requires Possible(s, Wakes(r, now)) && Flagged(s.jobs[r], s.clock)
    ensures var step := Wakes(r, now);
            WakeStep(cfg, s, r, now) ==
              s.(w := WorldAfter(cfg, s, step), jobs := JobsNext(cfg, s, step),
                 queueDepth := Bump(s.queueDepth, r.model, -1),
                 inFlight := if OwnJob(cfg, s, step).InService() then Bump(s.inFlight, r.model, 1) else s.inFlight,
                 events := s.events + Emitted(s, step),
                 refunds := s.refunds + Repayment(s, step))
  {
    hide SchedulerRuns.Step, Bump, GrantAll;
    assert s.events + [] == s.events && s.refunds + [] == s.refunds;
  }

  lemma ArriveJobs(cfg: Config, s: Proxy, r: Request, gate: Gate, now: real)
    requires Possible(s, Arrives(r, gate, now))
    ensures var step := Arrives(r, gate, now);
            ArriveStep(cfg, s, r, gate, now) ==
              s.(w := WorldAfter(cfg, s, step), jobs := JobsNext(cfg, s, step),
                 queueDepth := if gate.Accepted? then Bump(s.queueDepth, r.model, 1) else s.queueDepth,
                 events := s.events + Emitted(s, step),
                 refunds := s.refunds + Repayment(s, step))
  {
    hide SchedulerRuns.Step, Bump, GrantAll, CostFitsPool;
    assert s.events + [] == s.events && s.refunds + [] == s.refunds;
  }

  /** Every step, component by component. */
  lemma StepParts(cfg: Config, s: Proxy, step: Move)
    requires Possible(s, step) && AllFlagged(s)
    ensures var s' := Next(cfg, s, step);
            && s'.w == WorldAfter(cfg, s, step) && s'.jobs == JobsNext(cfg, s, step) && s'.clock == step.now
            && s'.events == s.events + Emitted(s, step)
            && s'.refunds == s.refunds + Repayment(s, step)
  {
    assert s.events + [] == s.events && s.refunds + [] == s.refunds;
    match step
    case Arrives(r, gate, now) =>
      ArriveJobs(cfg, s, r, gate, now);
    case Wakes(r, now) =>
      WakeJobs(cfg, s, r, now);
    case SendFails(r, now) =>
      assert Flagged(s.jobs[r], s.clock);
      CloseJobs(cfg, s, r, 599, UpstreamError, now);
    case StreamEnds(r, natural, now) =>
      assert Flagged(s.jobs[r], s.clock);
      CloseJobs(cfg, s, r, s.jobs[r].phase.status, FinalOutcome(s.jobs[r].phase.status, natural), now);
    case _ =>
  }

  // ---- scheduler and phases stay in step ----

  /** Every operation a step asks of the scheduler is one the scheduler allows. */
  lemma InnerEnabled(cfg: Config, s: Proxy, step: Move)
    requires Synced(cfg, s) && AllFlagged(s) && Possible(s, step)
    ensures match Inner(s, step)
            case None => true
            case Some(e) =>
              e.r == step.r && e.now == step.now && Enabled(s.w, e) && Suits(cfg, s.jobs, e, OwnJob(cfg, s, step))
  {
    assert InStep(s.w, s.jobs, step.r);
    if step.r in s.jobs {
      assert Flagged(s.jobs[step.r], s.clock);
    }
    hide Good, CostFitsPool, State.Waiting;
  }

  /** A job keeps everything but its future, which can only become granted, while it is parked. */
  predicate Keeps(a: Job, b: Job) {
    b == a || (a.phase.Parked? && a.fut.Pending? && b == a.(fut := Granted))
  }

  /** The jobs other than `r`'s keep everything but their futures. */
  ghost predicate OthersKeep(a: map<Request, Job>, b: map<Request, Job>, r: Request) {
    forall x :: x != r ==> (x in a <==> x in b) && (x in a ==> Keeps(a[x], b[x]))
  }

  /** Only a waiter's future is granted. */
  lemma AdmittedWaits(cfg: Config, s: Proxy, e: Event, x: Request)
    requires Synced(cfg, s) && Enabled(s.w, e) && x in Admitted(Step(cfg, s.w, e).1)
    requires e.Arrive? ==> e.r !in s.jobs
    ensures WaitsFor(cfg, s.w, e, x) && (x in s.jobs ==> s.jobs[x].phase.Parked? && s.jobs[x].fut.Pending?)
    ensures x !in s.jobs ==> e.Arrive? && x == e.r && CostFitsPool(cfg, x)
  {
    hide SchedulerRuns.Step, Good, Enabled, Admitted, State.Waiting, CostFitsPool;
    assert InStep(s.w, s.jobs, x);
    Moves(cfg, s.w, e, x);
  }

  lemma Others(cfg: Config, s: Proxy, step: Move)
    requires Synced(cfg, s) && AllFlagged(s) && Possible(s, step)
    ensures OthersKeep(s.jobs, JobsNext(cfg, s, step), step.r)
  {
    InnerEnabled(cfg, s, step);
    hide SchedulerRuns.Step, Enabled, OwnJob, Admitted, Synced, AllFlagged, JobsAfter;
    match Inner(s, step)
    case None =>
    case Some(e) =>
      forall x | x in Admitted(Step(cfg, s.w, e).1) && x in s.jobs
        ensures s.jobs[x].phase.Parked? && s.jobs[x].fut.Pending?
      {
        AdmittedWaits(cfg, s, e, x);
      }
      OthersAfter(s.jobs, Step(cfg, s.w, e).1, e, OwnJob(cfg, s, step));
  }

  lemma OthersAfter(jobs: map<Request, Job>, adm: seq<Admission>, e: Event, j: Job)
    requires forall x :: x in Admitted(adm) && x in jobs ==> jobs[x].phase.Parked? && jobs[x].fut.Pending?
    ensures OthersKeep(jobs, JobsAfter(jobs, adm, e, j), e.r)
  {}

  lemma Own(cfg: Config, s: Proxy, step: Move)
    requires Synced(cfg, s) && AllFlagged(s) && Possible(s, step)
    ensures var jobs := JobsNext(cfg, s, step);
            && (step.r in jobs <==> !step.CancelAsked? || step.r in s.jobs)
            && (step.r in jobs ==> Keeps(OwnJob(cfg, s, step), jobs[step.r]))
  {
    InnerEnabled(cfg, s, step);
    match Inner(s, step)
    case None =>
    case Some(e) =>
      if e.Arrive? && e.r in Admitted(Step(cfg, s.w, e).1) {
        AdmittedWaits(cfg, s, e, e.r);
      }
      hide SchedulerRuns.Step, Enabled, Admitted, Synced, AllFlagged, Suits;
  }

  lemma StaysSynced(cfg: Config, s: Proxy, step: Move)
    requires Synced(cfg, s) && AllFlagged(s) && Possible(s, step)
    ensures Synced(cfg, Next(cfg, s, step))
  {
    StepParts(cfg, s, step);
    InnerEnabled(cfg, s, step);
    hide Next, Good, Enabled, SchedulerRuns.Step, Emitted, Repayment, Suits, InStep;
    match Inner(s, step)
    case Some(e) => StaysInStep(cfg, s, e, OwnJob(cfg, s, step));
    case None => QuietStaysInStep(cfg, s, step);
  }

  lemma QuietStaysInStep(cfg: Config, s: Proxy, step: Move)
    requires Synced(cfg, s) && AllFlagged(s) && Possible(s, step) && Inner(s, step).None?
    ensures forall x :: InStep(s.w, JobsNext(cfg, s, step), x)
  {
    forall x ensures InStep(s.w, JobsNext(cfg, s, step), x) {
      assert InStep(s.w, s.jobs, x);
      if x in s.jobs {
        assert Flagged(s.jobs[x], s.clock);
      }
    }
  }

  lemma OwnFlags(cfg: Config, s: Proxy, step: Move)
    requires AllFlagged(s) && Possible(s, step) && (step.CancelAsked? ==> step.r in s.jobs)
    ensures Flagged(OwnJob(cfg, s, step), step.now)
  {}

  /** The jobs after a step: the step's own job is `own`, up to being granted; the others keep
      everything but their futures. */
  ghost predicate Follows(jobs: map<Request, Job>, jobs': map<Request, Job>, r: Request, own: Job) {
    OthersKeep(jobs, jobs', r) && r in jobs' && Keeps(own, jobs'[r])
  }

  /** A step that changes nothing but the clock: a cancel for an unknown request. */
  predicate Misses(s: Proxy, step: Move) { step.CancelAsked? && step.r !in s.jobs }

  lemma JobsFollow(cfg: Config, s: Proxy, step: Move)
    requires Synced(cfg, s) && AllFlagged(s) && Possible(s, step) && !Misses(s, step)
    ensures Follows(s.jobs, JobsNext(cfg, s, step), step.r, OwnJob(cfg, s, step))
  {
    hide JobsNext, Synced, OwnJob, AllFlagged, OthersKeep, Keeps;
    Others(cfg, s, step);
    Own(cfg, s, step);
  }

  lemma StepFollows(cfg: Config, s: Proxy, step: Move)
    requires Synced(cfg, s) && AllFlagged(s) && Possible(s, step)
    ensures Misses(s, step) ==> Next(cfg, s, step) == s.(clock := step.now)
    ensures !Misses(s, step) ==> Follows(s.jobs, Next(cfg, s, step).jobs, step.r, OwnJob(cfg, s, step))
  {
    hide Synced, OwnJob, JobsNext, Follows;
    StepParts(cfg, s, step);
    if !Misses(s, step) {
      JobsFollow(cfg, s, step);
    }
  }

  lemma FlagsFollow(s: Proxy, s': Proxy, r: Request, own: Job)
    requires AllFlagged(s) && Follows(s.jobs, s'.jobs, r, own) && Flagged(own, s'.clock) && s.clock <= s'.clock
    ensures AllFlagged(s')
  {}

  lemma StaysFlagged(cfg: Config, s: Proxy, step: Move)
    requires Synced(cfg, s) && AllFlagged(s) && Possible(s, step)
    ensures AllFlagged(Next(cfg, s, step))
  {
    StepFollows(cfg, s, step);
    StepParts(cfg, s, step);
    if Misses(s, step) {
      FlagsLater(s, step.now);
    } else {
      OwnFlags(cfg, s, step);
      hide Next, OwnJob, Follows, Flagged, AllFlagged, Synced;
      FlagsFollow(s, Next(cfg, s, step), step.r, OwnJob(cfg, s, step));
    }
  }

  lemma FlagsLater(s: Proxy, now: real)
    requires AllFlagged(s) && s.clock <= now
    ensures AllFlagged(s.(clock := now))
  {}

  // ---- one event per request, one refund per grant ----

  function Reported(events: seq<Record>): seq<Request> {
    seq(|events|, i requires 0 <= i < |events| => events[i].req)
  }

  function Repaid(refunds: seq<Refund>): seq<Request> {
    seq(|refunds|, i requires 0 <= i < |refunds| => refunds[i].req)
  }

  predicate HasEnded(jobs: map<Request, Job>, x: Request) { x in jobs && jobs[x].phase.Ended? }

  predicate WasGranted(jobs: map<Request, Job>, x: Request) { x in jobs && jobs[x].fut.Granted? }

  /** Every ended request has emitted exactly one event, every ended granted request has been refunded
      exactly once, at its charged cost; nobody else has. */
  ghost predicate Booked(s: Proxy) {
    && NoDup(Reported(s.events)) && NoDup(Repaid(s.refunds))
    && (forall x :: x in Reported(s.events) <==> HasEnded(s.jobs, x))
    && (forall x :: x in Repaid(s.refunds) <==> HasEnded(s.jobs, x) && WasGranted(s.jobs, x))
    && (forall f :: f in s.refunds ==> f.cost == f.req.cost)
  }

  /** A step emits and refunds for its own request only, exactly when it ends it. */
  lemma EmitsAtTheEnd(cfg: Config, s: Proxy, step: Move)
    requires AllFlagged(s) && Possible(s, step) && (step.CancelAsked? ==> step.r in s.jobs)
    ensures var own := OwnJob(cfg, s, step);
            && (!HasEnded(s.jobs, step.r) && own.phase.Ended? ==>
                  && |Emitted(s, step)| == 1 && Emitted(s, step)[0].req == step.r
                  && (if own.fut.Granted? then Repayment(s, step) == [Refund(step.r, step.r.cost)]
                      else Repayment(s, step) == []))
            && (HasEnded(s.jobs, step.r) || !own.phase.Ended? ==> Emitted(s, step) == [] && Repayment(s, step) == [])
            && (HasEnded(s.jobs, step.r) ==> own == s.jobs[step.r])
  {}

  lemma {:induction false} NoDupAppend(xs: seq<Request>, x: Request)
    requires NoDup(xs) && x !in xs
    ensures NoDup(xs + [x])
  {}

  lemma ReportedMore(events: seq<Record>, more: seq<Record>, refunds: seq<Refund>, back: seq<Refund>)
    ensures Reported(events + more) == Reported(events) + Reported(more)
    ensures Repaid(refunds + back) == Repaid(refunds) + Repaid(back)
  {}

  /** What the step's own job, its event and its refund have to do with each other. */
  predicate Settles(s: Proxy, r: Request, own: Job, recs: seq<Record>, back: seq<Refund>) {
    && (!HasEnded(s.jobs, r) && own.phase.Ended? ==>
          |recs| == 1 && recs[0].req == r && back == if own.fut.Granted? then [Refund(r, r.cost)] else [])
    && (HasEnded(s.jobs, r) || !own.phase.Ended? ==> recs == [] && back == [])
    && (HasEnded(s.jobs, r) ==> own == s.jobs[r])
  }

  lemma BooksFollow(s: Proxy, s': Proxy, r: Request, own: Job, recs: seq<Record>, back: seq<Refund>)
    requires AllFlagged(s) && Booked(s) && Follows(s.jobs, s'.jobs, r, own) && Settles(s, r, own, recs, back)
    requires s'.events == s.events + recs && s'.refunds == s.refunds + back
    ensures Booked(s')
  {
    forall x | x != r
      ensures HasEnded(s'.jobs, x) == HasEnded(s.jobs, x)
      ensures HasEnded(s.jobs, x) ==> WasGranted(s'.jobs, x) == WasGranted(s.jobs, x)
    {
    }
    ReportedMore(s.events, recs, s.refunds, back);
    assert HasEnded(s'.jobs, r) == own.phase.Ended?;
    assert own.phase.Ended? ==> WasGranted(s'.jobs, r) == own.fut.Granted?;
    hide HasEnded, WasGranted, NoDup, Follows, AllFlagged;
    if own.phase.Ended? && recs != [] {
      assert Reported(recs) == [r];
      NoDupAppend(Reported(s.events), r);
      if own.fut.Granted? {
        assert Repaid(back) == [r];
        NoDupAppend(Repaid(s.refunds), r);
      }
    }
  }

  lemma StaysBooked(cfg: Config, s: Proxy, step: Move)
    requires Synced(cfg, s) && AllFlagged(s) && Booked(s) && Possible(s, step)
    ensures Booked(Next(cfg, s, step))
  {
    StepFollows(cfg, s, step);
    StepParts(cfg, s, step);
    if !Misses(s, step) {
      EmitsAtTheEnd(cfg, s, step);
      OwnFlags(cfg, s, step);
      hide Next, OwnJob, Follows, AllFlagged, Synced, Booked, HasEnded, Emitted, Repayment;
      BooksFollow(s, Next(cfg, s, step), step.r, OwnJob(cfg, s, step), Emitted(s, step), Repayment(s, step));
    }
  }

  // ---- the meters ----

  predicate IsParked(jobs: map<Request, Job>, x: Request) { x in jobs && jobs[x].phase.Parked? }

  predicate IsServed(jobs: map<Request, Job>, x: Request) { x in jobs && jobs[x].InService() }

  function ParkedOf(jobs: map<Request, Job>, m: string): set<Request> {
    set x | x in jobs && x.model == m && IsParked(jobs, x)
  }

  function ServedOf(jobs: map<Request, Job>, m: string): set<Request> {
    set x | x in jobs && x.model == m && IsServed(jobs, x)
  }

  /** `queue_depth` counts a model's parked requests, `in_flight` those in service. */
  ghost predicate Metered(s: Proxy) {
    forall m :: Get(s.queueDepth, m) == |ParkedOf(s.jobs, m)| && Get(s.inFlight, m) == |ServedOf(s.jobs, m)|
  }

  function One(b: bool): int { if b then 1 else 0 }

  /** The meters moved as `r` changed phase, for every model. */
  ghost predicate MetersMove(s: Proxy, s': Proxy, r: Request, own: Job) {
    forall m ::
      && Get(s'.queueDepth, m) ==
         Get(s.queueDepth, m) + (if m == r.model then One(own.phase.Parked?) - One(IsParked(s.jobs, r)) else 0)
      && Get(s'.inFlight, m) ==
         Get(s.inFlight, m) + (if m == r.model then One(own.InService()) - One(IsServed(s.jobs, r)) else 0)
  }

  lemma BumpMoves(meter: map<string, int>, k: string)
    ensures forall m, d :: Get(Bump(meter, k, d), m) == Get(meter, m) + if m == k then d else 0
  {}

  lemma CloseMeters(cfg: Config, s: Proxy, r: Request, status: int, outcome: Outcome, now: real, own: Job)
    requires r in s.jobs && Flagged(s.jobs[r], s.clock) && s.jobs[r].InService() && own.phase.Ended?
    ensures MetersMove(s, Closed(cfg, s, r, status, outcome, now), r, own)
  {
    CloseJobs(cfg, s, r, status, outcome, now);
    BumpMoves(s.inFlight, r.model);
    hide Get, Bump, Closed, GoodStatus, JobsAfter, SchedulerRuns.Step;
  }

  lemma WakeMeters(cfg: Config, s: Proxy, r: Request, now: real)
    requires Possible(s, Wakes(r, now)) && Flagged(s.jobs[r], s.clock)
    ensures MetersMove(s, WakeStep(cfg, s, r, now), r, OwnJob(cfg, s, Wakes(r, now)))
  {
    WakeJobs(cfg, s, r, now);
    BumpMoves(s.queueDepth, r.model);
    BumpMoves(s.inFlight, r.model);
    hide Get, Bump, WakeStep, WorldAfter, JobsNext, Emitted, Repayment;
  }

  lemma ArriveMeters(cfg: Config, s: Proxy, r: Request, gate: Gate, now: real)
    requires Possible(s, Arrives(r, gate, now))
    ensures MetersMove(s, ArriveStep(cfg, s, r, gate, now), r, OwnJob(cfg, s, Arrives(r, gate, now)))
  {
    ArriveJobs(cfg, s, r, gate, now);
    BumpMoves(s.queueDepth, r.model);
    hide Get, Bump, ArriveStep, WorldAfter, JobsNext, Emitted, Repayment, CostFitsPool;
  }

  lemma EndMeters(cfg: Config, s: Proxy, step: Move)
    requires Possible(s, step) && AllFlagged(s) && (step.SendFails? || step.StreamEnds?)
    ensures MetersMove(s, Next(cfg, s, step), step.r, OwnJob(cfg, s, step))
  {
    assert Flagged(s.jobs[step.r], s.clock);
    hide FinalOutcome, Get, Closed, WakeStep, ArriveStep;
    if step.SendFails? {
      CloseMeters(cfg, s, step.r, 599, UpstreamError, step.now, OwnJob(cfg, s, step));
    } else {
      var status := s.jobs[step.r].phase.status;
      CloseMeters(cfg, s, step.r, status, FinalOutcome(status, step.natural), step.now, OwnJob(cfg, s, step));
    }
  }

  lemma OtherMeters(cfg: Config, s: Proxy, step: Move)
    requires Possible(s, step) && AllFlagged(s) && !Misses(s, step) && !step.SendFails? && !step.StreamEnds?
    ensures MetersMove(s, Next(cfg, s, step), step.r, OwnJob(cfg, s, step))
  {
    hide FinalOutcome, Get, Closed, WakeStep, ArriveStep;
    match step
    case Arrives(r, gate, now) => ArriveMeters(cfg, s, r, gate, now);
    case Wakes(r, now) =>
      assert Flagged(s.jobs[r], s.clock);
      WakeMeters(cfg, s, r, now);
    case _ =>
  }

  lemma StepMeters(cfg: Config, s: Proxy, step: Move)
    requires Possible(s, step) && AllFlagged(s) && !Misses(s, step)
    ensures MetersMove(s, Next(cfg, s, step), step.r, OwnJob(cfg, s, step))
  {
    hide Possible, Next, OwnJob, MetersMove, AllFlagged, Misses;
    if step.SendFails? || step.StreamEnds? {
      EndMeters(cfg, s, step);
    } else {
      OtherMeters(cfg, s, step);
    }
  }

  lemma SetMoves(a: set<Request>, b: set<Request>, r: Request)
    requires forall x :: x != r ==> (x in a <==> x in b)
    ensures |b| == |a| + One(r in b) - One(r in a)
  {
    assert a - {r} == b - {r};
    assert |a| == |a - {r}| + One(r in a) && |b| == |b - {r}| + One(r in b);
  }

  lemma SetsFollow(jobs: map<Request, Job>, jobs': map<Request, Job>, r: Request, own: Job, m: string)
    requires Follows(jobs, jobs', r, own)
    ensures |ParkedOf(jobs', m)| ==
            |ParkedOf(jobs, m)| + if m == r.model then One(own.phase.Parked?) - One(IsParked(jobs, r)) else 0
    ensures |ServedOf(jobs', m)| ==
            |ServedOf(jobs, m)| + if m == r.model then One(own.InService()) - One(IsServed(jobs, r)) else 0
  {
    SetMoves(ParkedOf(jobs, m), ParkedOf(jobs', m), r);
    SetMoves(ServedOf(jobs, m), ServedOf(jobs', m), r);
  }

  lemma MetersFollow(s: Proxy, s': Proxy, r: Request, own: Job)
    requires Metered(s) && Follows(s.jobs, s'.jobs, r, own) && MetersMove(s, s', r, own)
    ensures Metered(s')
  {
    forall m ensures Get(s'.queueDepth, m) == |ParkedOf(s'.jobs, m)| && Get(s'.inFlight, m) == |ServedOf(s'.jobs, m)| {
      SetsFollow(s.jobs, s'.jobs, r, own, m);
    }
  }

  lemma StaysMetered(cfg: Config, s: Proxy, step: Move)
    requires Synced(cfg, s) && AllFlagged(s) && Metered(s) && Possible(s, step)
    ensures Metered(Next(cfg, s, step))
  {
    StepFollows(cfg, s, step);
    if !Misses(s, step) {
      StepMeters(cfg, s, step);
      hide Next, OwnJob, Follows, AllFlagged, Synced, MetersMove, Metered;
      MetersFollow(s, Next(cfg, s, step), step.r, OwnJob(cfg, s, step));
    }
  }

  // ---- the recorded active curve ----

  /** The service windows of a model's events. */
  function Windows(events: seq<Record>, m: string): seq<C.Span> {
    if |events| == 0 then []
    else
      var e := events[|events| - 1];
      Windows(events[..|events| - 1], m) +
      if e.req.model == m && e.tAcquire.Some? then [C.Span(e.tAcquire.value, e.tDone)] else []
  }

  /** The requests of `m` in service that had their slot at `t`. */
  function OpenAt(jobs: map<Request, Job>, m: string, t: real): set<Request> {
    set x | x in jobs && x.model == m && IsServed(jobs, x) && jobs[x].tAcquire.Some? && jobs[x].tAcquire.value <= t
  }

  /** Slots of `m` held at `t`: by recorded requests and by requests still in service. */
  function Held(s: Proxy, m: string, t: real): int {
    C.Active(Windows(s.events, m), t) + |OpenAt(s.jobs, m, t)|
  }

  predicate Past(events: seq<Record>, clock: real) {
    forall e :: e in events ==> e.tDone <= clock
  }

  ghost predicate UnderCap(s: Proxy, m: string, cap: int) {
    forall t: real :: Held(s, m, t) <= cap
  }

  lemma ActiveOneMore(events: seq<Record>, e: Record, m: string, t: real)
    ensures C.Active(Windows(events + [e], m), t) ==
            C.Active(Windows(events, m), t)
            + One(e.req.model == m && e.tAcquire.Some? && e.tAcquire.value <= t < e.tDone)
  {
    assert (events + [e])[..|events|] == events;
    var ivs := Windows(events, m);
    if e.req.model == m && e.tAcquire.Some? {
      assert (ivs + [C.Span(e.tAcquire.value, e.tDone)])[..|ivs|] == ivs;
    } else {
      assert ivs + [] == ivs;
    }
  }

  lemma {:induction false} NothingAfter(events: seq<Record>, m: string, t: real)
    requires Past(events, t)
    ensures C.Active(Windows(events, m), t) == 0
  {
    if |events| > 0 {
      var init, e := events[..|events| - 1], events[|events| - 1];
      assert e in events;
      NothingAfter(init, m, t);
      ActiveOneMore(init, e, m, t);
      assert events == init + [e];
    }
  }

  /** How the step's event and its own job carry the time at which the slot was taken. */
  predicate Traces(s: Proxy, r: Request, own: Job, recs: seq<Record>, now: real) {
    && (recs != [] ==> |recs| == 1 && recs[0].req == r && recs[0].tDone == now && !own.InService()
                       && recs[0].tAcquire == if IsServed(s.jobs, r) then s.jobs[r].tAcquire else None)
    && (own.InService() ==> own.tAcquire == if IsServed(s.jobs, r) then s.jobs[r].tAcquire else Some(now))
  }

  lemma StepTraces(cfg: Config, s: Proxy, step: Move)
    requires AllFlagged(s) && Possible(s, step) && !Misses(s, step)
    ensures Traces(s, step.r, OwnJob(cfg, s, step), Emitted(s, step), step.now)
  {}

  /** Before `now`, a step hands a slot over from the open ones to the recorded ones. */
  lemma HeldBefore(s: Proxy, s': Proxy, r: Request, own: Job, recs: seq<Record>, now: real, m: string, t: real)
    requires AllFlagged(s) && Follows(s.jobs, s'.jobs, r, own) && Traces(s, r, own, recs, now)
    requires s'.events == s.events + recs && t < now
    ensures Held(s', m, t) <= Held(s, m, t)
  {
    var a, b := OpenAt(s.jobs, m, t), OpenAt(s'.jobs, m, t);
    SetMoves(a, b, r);
    if recs == [] {
      assert s'.events == s.events;
    } else {
      ActiveOneMore(s.events, recs[0], m, t);
      assert recs == [recs[0]];
    }
  }

  lemma HeldAfter(s': Proxy, m: string, cap: int, t: real)
    requires Past(s'.events, t) && |ServedOf(s'.jobs, m)| <= cap
    ensures Held(s', m, t) <= cap
  {
    NothingAfter(s'.events, m, t);
    SubsetCard(OpenAt(s'.jobs, m, t), ServedOf(s'.jobs, m));
  }

  lemma {:induction false} SubsetCard(a: set<Request>, b: set<Request>)
    requires a <= b
    ensures |a| <= |b|
  {
    assert b == a + (b - a);
  }

  lemma {:induction false} ServedAtMostRunning(
    jobs: map<Request, Job>, rs: seq<Request>, m: string, served: set<Request>)
    requires forall x :: x in served ==> x in rs && x.model == m
    ensures |served| <= Count(rs, m)
  {
    if |rs| == 0 {
      assert served == {};
    } else {
      ServedAtMostRunning(jobs, rs[1..], m, served - {rs[0]});
      assert |served| <= |served - {rs[0]}| + One(rs[0] in served);
    }
  }

  /** No more of a model's requests are in service than its cap allows. */
  lemma ServedUnderCap(cfg: Config, s: Proxy, m: string)
    requires Synced(cfg, s) && AllFlagged(s) && m in cfg.caps && cfg.caps[m] >= 0
    ensures |ServedOf(s.jobs, m)| <= cfg.caps[m]
  {
    forall x | x in ServedOf(s.jobs, m) ensures x in s.w.running {
      assert InStep(s.w, s.jobs, x) && Flagged(s.jobs[x], s.clock);
    }
    ServedAtMostRunning(s.jobs, s.w.running, m, ServedOf(s.jobs, m));
    CountMembers(s.w.running, m);
    assert Safe(cfg, s.w.st, s.w.running, s.w.clock);
  }

  lemma PastFollows(events: seq<Record>, recs: seq<Record>, from: real, now: real)
    requires Past(events, from) && from <= now && forall e :: e in recs ==> e.tDone == now
    ensures Past(events + recs, now)
  {}

  lemma CurveFollows(s: Proxy, s': Proxy, r: Request, own: Job, recs: seq<Record>, now: real, m: string, cap: int)
    requires AllFlagged(s) && Follows(s.jobs, s'.jobs, r, own) && Traces(s, r, own, recs, now)
    requires s'.events == s.events + recs
    requires Past(s'.events, now) && |ServedOf(s'.jobs, m)| <= cap && UnderCap(s, m, cap)
    ensures UnderCap(s', m, cap)
  {
    hide AllFlagged, Follows, Traces, Held, ServedOf;
    forall t: real ensures Held(s', m, t) <= cap {
      if t < now {
        HeldBefore(s, s', r, own, recs, now, m, t);
      } else {
        HeldAfter(s', m, cap, t);
      }
    }
  }

  lemma StaysPast(cfg: Config, s: Proxy, step: Move)
    requires AllFlagged(s) && Past(s.events, s.clock) && Possible(s, step)
    ensures Past(Next(cfg, s, step).events, step.now)
  {
    StepParts(cfg, s, step);
    if Misses(s, step) {
      PastFollows(s.events, [], s.clock, step.now);
      assert s.events + [] == s.events;
    } else {
      StepTraces(cfg, s, step);
      PastFollows(s.events, Emitted(s, step), s.clock, step.now);
    }
    hide Next, Past, OwnJob, AllFlagged;
  }

  lemma StaysUnderCap(cfg: Config, s: Proxy, step: Move, m: string)
    requires Synced(cfg, s) && AllFlagged(s) && Past(s.events, s.clock) && Possible(s, step)
    requires m in cfg.caps && cfg.caps[m] >= 0 && UnderCap(s, m, cfg.caps[m])
    ensures UnderCap(Next(cfg, s, step), m, cfg.caps[m])
  {
    StepFollows(cfg, s, step);
    if Misses(s, step) {
      SameCurve(s, step.now, m, cfg.caps[m]);
    } else {
      StepParts(cfg, s, step);
      StaysSynced(cfg, s, step);
      StaysFlagged(cfg, s, step);
      StaysPast(cfg, s, step);
      StepTraces(cfg, s, step);
      hide Next, OwnJob, Follows, AllFlagged, Synced, ServedOf, Emitted, UnderCap, Past, WorldAfter, JobsNext, Traces;
      ServedUnderCap(cfg, Next(cfg, s, step), m);
      CurveFollows(s, Next(cfg, s, step), step.r, OwnJob(cfg, s, step), Emitted(s, step), step.now, m, cfg.caps[m]);
    }
  }

  lemma SameCurve(s: Proxy, now: real, m: string, cap: int)
    requires UnderCap(s, m, cap)
    ensures UnderCap(s.(clock := now), m, cap)
  {
    forall t: real ensures Held(s.(clock := now), m, t) <= cap {
      assert Held(s.(clock := now), m, t) == Held(s, m, t);
    }
  }

  // ---- every run ----

  ghost predicate CurvesUnderCaps(cfg: Config, s: Proxy) {
    forall m :: m in cfg.caps && cfg.caps[m] >= 0 ==> UnderCap(s, m, cfg.caps[m])
  }

  ghost predicate Inv(cfg: Config, s: Proxy) {
    Synced(cfg, s) && AllFlagged(s) && Booked(s) && Metered(s) && Past(s.events, s.clock) && CurvesUnderCaps(cfg, s)
  }

  lemma BootInv(cfg: Config, clock: real)
    ensures Inv(cfg, Boot(clock))
  {
    StartGood(cfg, clock);
    var s := Boot(clock);
    assert Reported(s.events) == [] && Repaid(s.refunds) == [];
    forall x ensures InStep(s.w, s.jobs, x) {
      assert s.w.st.Waiting() == [];
    }
    forall m ensures ParkedOf(s.jobs, m) == {} && ServedOf(s.jobs, m) == {} {}
    forall m, t: real ensures OpenAt(s.jobs, m, t) == {} {}
    hide Good;
  }

  lemma StepInv(cfg: Config, s: Proxy, step: Move)
    requires Inv(cfg, s) && Possible(s, step)
    ensures Inv(cfg, Next(cfg, s, step))
  {
    StaysSynced(cfg, s, step);
    StaysFlagged(cfg, s, step);
    StaysBooked(cfg, s, step);
    StaysMetered(cfg, s, step);
    StaysPast(cfg, s, step);
    StepParts(cfg, s, step);
    hide Next, Synced, AllFlagged, Booked, Metered, Past, UnderCap, WorldAfter, JobsNext, Emitted, Repayment;
    forall m | m in cfg.caps && cfg.caps[m] >= 0 ensures UnderCap(Next(cfg, s, step), m, cfg.caps[m]) {
      StaysUnderCap(cfg, s, step, m);
    }
  }

  /** Over every interleaving of arrivals, cancels, wake-ups, send failures and stream ends. */
  lemma {:induction false} EveryRunKeeps(cfg: Config, s: Proxy, steps: seq<Move>)
    requires Inv(cfg, s) && ValidRun(cfg, s, steps)
    ensures Inv(cfg, End(cfg, s, steps))
    decreases |steps|
  {
    hide Inv, Next, Possible;
    if |steps| > 0 {
      StepInv(cfg, s, steps[0]);
      EveryRunKeeps(cfg, Next(cfg, s, steps[0]), steps[1..]);
    }
  }

  /** Exactly once: after any run from boot, each ended request has emitted exactly one event, each
      ended request that was granted has been released exactly once and at its charged cost, and no
      other request has been reported or released. */
  lemma ExactlyOnce(cfg: Config, clock: real, steps: seq<Move>)
    requires ValidRun(cfg, Boot(clock), steps)
    ensures Booked(End(cfg, Boot(clock), steps))
  {
    BootInv(cfg, clock);
    EveryRunKeeps(cfg, Boot(clock), steps);
  }

  /** When every request has ended, every ledger, every in-flight count and every queue depth is zero. */
  lemma NothingLeaks(cfg: Config, clock: real, steps: seq<Move>)
    requires ValidRun(cfg, Boot(clock), steps)
    requires var s := End(cfg, Boot(clock), steps); forall x :: x in s.jobs ==> s.jobs[x].phase.Ended?
    ensures var s := End(cfg, Boot(clock), steps);
            && s.w.st.Waiting() == []
            && (forall p :: s.w.st.Used(p) == 0.0)
            && (forall m :: s.w.st.InFlight(m) == 0)
            && (forall m :: Get(s.inFlight, m) == 0 && Get(s.queueDepth, m) == 0)
  {
    BootInv(cfg, clock);
    EveryRunKeeps(cfg, Boot(clock), steps);
    var s := End(cfg, Boot(clock), steps);
    assert Ledger(cfg, s.w.st, s.w.running);
    AllEnded(s);
    hide Inv, Good, End, Synced;
    forall m ensures Get(s.inFlight, m) == 0 && Get(s.queueDepth, m) == 0 {
      assert ParkedOf(s.jobs, m) == {} && ServedOf(s.jobs, m) == {};
    }
  }

  lemma AllEnded(s: Proxy)
    requires (forall x :: InStep(s.w, s.jobs, x)) && forall x :: x in s.jobs ==> s.jobs[x].phase.Ended?
    ensures s.w.st.Waiting() == [] && s.w.running == []
  {
    forall x ensures x !in s.w.st.Waiting() && x !in s.w.running {
      assert InStep(s.w, s.jobs, x);
    }
    EmptyOrNot(s.w.st.Waiting());
    EmptyOrNot(s.w.running);
  }

  lemma EmptyOrNot(rs: seq<Request>)
    ensures rs == [] || exists x :: x in rs
  {
    if |rs| > 0 {
      assert rs[0] in rs;
    }
  }

  /** The recorded active curve never lies above the cap: at every instant, at most `cap` of the
      recorded service windows of a capped model are open, so no window's mean exceeds the cap. */
  lemma RecordedCurveUnderCap(cfg: Config, clock: real, steps: seq<Move>, m: string)
    requires ValidRun(cfg, Boot(clock), steps) && m in cfg.caps && cfg.caps[m] >= 0
    ensures var ivs := Windows(End(cfg, Boot(clock), steps).events, m);
            && (forall t: real :: C.Active(ivs, t) <= cfg.caps[m])
            && (forall a, b :: C.MeanOverlap(a, b, ivs) <= cfg.caps[m] as real)
  {
    BootInv(cfg, clock);
    EveryRunKeeps(cfg, Boot(clock), steps);
    var s := End(cfg, Boot(clock), steps);
    var ivs, cap := Windows(s.events, m), cfg.caps[m];
    assert UnderCap(s, m, cap);
    hide Inv, End, Windows, C.MeanOverlap;
    forall t: real ensures C.Active(ivs, t) <= cap {
      assert Held(s, m, t) <= cap;
    }
    forall a, b ensures C.MeanOverlap(a, b, ivs) <= cap as real {
      C.MeanAtMost(ivs, a, b, cap);
    }
  }

  /** And so the sweep-line integral built from those events reads at most the cap, in every window. */
  method RecordedIntegral(
    events: seq<Record>, m: string, ghost cfg: Config, ghost clock: real, ghost steps: seq<Move>)
    returns (curve: C.ConcIntegral)
    requires ValidRun(cfg, Boot(clock), steps) && events == End(cfg, Boot(clock), steps).events
    requires m in cfg.caps && cfg.caps[m] >= 0
    ensures curve.Valid() && curve.intervals == Windows(events, m)
    ensures forall a, b :: curve.Mean(a, b) <= cfg.caps[m] as real
  {
    curve := new C.ConcIntegral(Windows(events, m));
    RecordedCurveUnderCap(cfg, clock, steps, m);
  }

  // ---- every proxy run is a scheduler run ----

  /** The scheduler operations of a run. */
  function Operations(cfg: Config, s: Proxy, steps: seq<Move>): seq<Event>
    requires ValidRun(cfg, s, steps)
    decreases |steps|
  {
    if |steps| == 0 then []
    else
      (match Inner(s, steps[0]) case None => [] case Some(e) => [e])
      + Operations(cfg, Next(cfg, s, steps[0]), steps[1..])
  }

  /** Whatever the proxy does, its scheduler goes through a run that callers may make: so every
      scheduler theorem holds of the proxy's scheduler. */
  lemma {:induction false} ProxyRunsTheScheduler(cfg: Config, s: Proxy, steps: seq<Move>)
    requires Inv(cfg, s) && ValidRun(cfg, s, steps)
    ensures Valid(cfg, s.w, Operations(cfg, s, steps))
    ensures After(cfg, s.w, Operations(cfg, s, steps)) == End(cfg, s, steps).w
    decreases |steps|
  {
    if |steps| > 0 {
      var step := steps[0];
      StepInv(cfg, s, step);
      StepParts(cfg, s, step);
      InnerEnabled(cfg, s, step);
      var rest := Operations(cfg, Next(cfg, s, step), steps[1..]);
      hide Inv, Next, Possible, SchedulerRuns.Step, Enabled, Inner;
      ProxyRunsTheScheduler(cfg, Next(cfg, s, step), steps[1..]);
      match Inner(s, step)
      case None => assert [] + rest == rest;
      case Some(e) => assert ([e] + rest)[1..] == rest;
    }
  }

  /** No request is parked for ever behind nothing: while one waits, another request of its pool has
      been granted and has not ended. */
  lemma WaitsBehindWork(cfg: Config, s: Proxy, r: Request)
    requires Inv(cfg, s) && CapsPositive(cfg) && r in s.jobs && s.jobs[r].phase.Parked? && s.jobs[r].fut.Pending?
    ensures exists x :: x in s.jobs && s.jobs[x].Live() && cfg.Pool(x.model) == cfg.Pool(r.model)
  {
    assert InStep(s.w, s.jobs, r);
    NoDeadlock(cfg, s.w, r);
    var x :| x in s.w.running && cfg.Pool(x.model) == cfg.Pool(r.model);
    assert InStep(s.w, s.jobs, x);
  }
}
