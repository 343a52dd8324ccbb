/** The life of a request through the proxy with the scheduler on, as interleaved steps: arrival,
    operator cancel, wake-up of the request's coroutine, send failure, response headers, end of the
    stream. The steps share the scheduler, the per-model metrics and the event log. */
module Lifecycle {
  import opened Options
  import opened SchedulerModel
  import opened SchedulerRuns

  /** A request's admission future; `Unqueued` for one turned away before dispatch. */
  datatype Fut = Unqueued | Pending | Granted | Refused

  /** `Parked` from registration until the coroutine resumes; in service while `Sending` or `Streaming`. */
  datatype Phase = Parked | Sending | Streaming(status: int) | Ended

  datatype Job = Job(phase: Phase, fut: Fut, cancelled: bool, tAcquire: Option<real>, released: bool, emitted: bool) {
    predicate InService() { phase.Sending? || phase.Streaming? }

    /** Holds a budget reservation. */
    predicate Live() { fut.Granted? && !phase.Ended? }
  }

  datatype Outcome =
    | CancelledQueued | RejectedUnadmittable | RejectedOversized | RejectedUnhealthy
    | Completed | UpstreamError | ClientAbandoned

  /** One emitted lifecycle event. */
  datatype Record = Record(req: Request, tAcquire: Option<real>, tDone: real, status: int, outcome: Outcome)

  /** One call of the scheduler's `release`. */
  datatype Refund = Refund(req: Request, cost: real)

  datatype Proxy = Proxy(w: World, jobs: map<Request, Job>,
                         inFlight: map<string, int>, queueDepth: map<string, int>,
                         served: map<string, int>, errored: map<string, int>,
                         events: seq<Record>, refunds: seq<Refund>, clock: real)

  /** What the size ceiling and the breaker decide before dispatch. */
  datatype Gate = Accepted | Oversized | Unhealthy

  datatype Move =
    | Arrives(r: Request, gate: Gate, now: real)
    | CancelAsked(r: Request, now: real)
    | Wakes(r: Request, now: real)
    | SendFails(r: Request, now: real)
    | HeadersIn(r: Request, status: int, now: real)
    | StreamEnds(r: Request, natural: bool, now: real)

  function Get(m: map<string, int>, k: string): int { if k in m then m[k] else 0 }

  function Bump(m: map<string, int>, k: string, d: int): map<string, int> { m[k := Get(m, k) + d] }

  /** Resolves the futures of the admitted waiters. */
  function GrantAll(jobs: map<Request, Job>, adm: seq<Admission>): map<Request, Job> {
    map r | r in jobs :: if r in Admitted(adm) then jobs[r].(fut := Granted) else jobs[r]
  }

  /** Lets the scheduler run one operation. */
  function Schedule(cfg: Config, s: Proxy, e: Event): Proxy {
    var (w, adm) := Step(cfg, s.w, e);
    s.(w := w, jobs := GrantAll(s.jobs, adm))
  }

  function SetJob(s: Proxy, r: Request, j: Job): Proxy {
    s.(jobs := s.jobs[r := j])
  }

  /** Emits `r`'s event and ends the request. */
  function Emit(s: Proxy, r: Request, j: Job, status: int, outcome: Outcome, now: real): Proxy {
    SetJob(s, r, j.(phase := Ended, emitted := true))
      .(events := s.events + [Record(r, j.tAcquire, now, status, outcome)])
  }

  /** Gives `r`'s charged cost back to the scheduler. */
  function GiveBack(cfg: Config, s: Proxy, r: Request, now: real): Proxy {
    Schedule(cfg, s, Finish(r, now)).(refunds := s.refunds + [Refund(r, r.cost)])
  }

  predicate GoodStatus(status: int) { 200 <= status < 400 }

  /** The `release` closure: once per request, by its flag. */
  function ReleaseSlot(cfg: Config, s: Proxy, r: Request, status: int, now: real): Proxy
    requires r in s.jobs
  {
    if s.jobs[r].released then s
    else
      var s1 := GiveBack(cfg, SetJob(s, r, s.jobs[r].(released := true)), r, now);
      s1.(inFlight := Bump(s1.inFlight, r.model, -1),
          served := if GoodStatus(status) then Bump(s1.served, r.model, 1) else s1.served,
          errored := if GoodStatus(status) then s1.errored else Bump(s1.errored, r.model, 1))
  }

  /** The `finish` closure: once per request, by its flag. */
  function FinishJob(s: Proxy, r: Request, status: int, outcome: Outcome, now: real): Proxy
    requires r in s.jobs
  {
    if s.jobs[r].emitted then s else Emit(s, r, s.jobs[r], status, outcome, now)
  }

  function FinalOutcome(status: int, natural: bool): Outcome {
    if status >= 400 then UpstreamError else if natural then Completed else ClientAbandoned
  }

  function Closed(cfg: Config, s: Proxy, r: Request, status: int, outcome: Outcome, now: real): Proxy
    requires r in s.jobs
  {
    FinishJob(ReleaseSlot(cfg, s, r, status, now), r, status, outcome, now)
  }

  function ArriveStep(cfg: Config, s: Proxy, r: Request, gate: Gate, now: real): Proxy {
    match gate
    case Oversized => Emit(s, r, Job(Ended, Unqueued, false, None, false, true), 413, RejectedOversized, now)
    case Unhealthy => Emit(s, r, Job(Ended, Unqueued, false, None, false, true), 503, RejectedUnhealthy, now)
    case Accepted =>
      var fut := if CostFitsPool(cfg, r) then Pending else Refused;
      var s1 := SetJob(s, r, Job(Parked, fut, false, None, false, false))
                .(queueDepth := Bump(s.queueDepth, r.model, 1));
      Schedule(cfg, s1, Arrive(r, now))
  }

  /** The coroutine resumes: it leaves the queue registry and takes the branch its futures ask for. */
  function WakeStep(cfg: Config, s: Proxy, r: Request, now: real): Proxy
    requires r in s.jobs
  {
    var s1 := s.(queueDepth := Bump(s.queueDepth, r.model, -1));
    var j := s.jobs[r];
    if j.fut.Pending? then
      Emit(Schedule(cfg, s1, Cancel(r, now)), r, j, 499, CancelledQueued, now)
    else if j.fut.Refused? then
      Emit(s1, r, j, 503, RejectedUnadmittable, now)
    else if j.cancelled then
      Emit(GiveBack(cfg, s1, r, now), r, j, 499, CancelledQueued, now)
    else
      SetJob(s1, r, j.(phase := Sending, tAcquire := Some(now))).(inFlight := Bump(s1.inFlight, r.model, 1))
  }

  function Next(cfg: Config, s: Proxy, step: Move): Proxy
    requires Possible(s, step)
  {
    var s' :=
      match step
      case Arrives(r, gate, now) => ArriveStep(cfg, s, r, gate, now)
      case CancelAsked(r, now) =>
        if r in s.jobs && s.jobs[r].phase.Parked? then SetJob(s, r, s.jobs[r].(cancelled := true)) else s
      case Wakes(r, now) => WakeStep(cfg, s, r, now)
      case SendFails(r, now) => Closed(cfg, s, r, 599, UpstreamError, now)
      case HeadersIn(r, status, now) => SetJob(s, r, s.jobs[r].(phase := Streaming(status)))
      case StreamEnds(r, natural, now) =>
        var status := s.jobs[r].phase.status;
        Closed(cfg, s, r, status, FinalOutcome(status, natural), now);
    s'.(clock := step.now)
  }

  /** What the event loop guarantees: a nondecreasing clock, a new identity per request, a wake-up
      only when one of the two futures is done, and each continuation only in its phase. */
  predicate Possible(s: Proxy, step: Move) {
    && s.clock <= step.now
    && match step
       case Arrives(r, _, now) => r !in s.jobs && r.cost > 0.0 && s.clock <= r.enqueuedAt <= now
       case CancelAsked(_, _) => true
       case Wakes(r, _) => r in s.jobs && s.jobs[r].phase.Parked? && (!s.jobs[r].fut.Pending? || s.jobs[r].cancelled)
       case SendFails(r, _) => r in s.jobs && s.jobs[r].phase.Sending?
       case HeadersIn(r, _, _) => r in s.jobs && s.jobs[r].phase.Sending?
       case StreamEnds(r, _, _) => r in s.jobs && s.jobs[r].phase.Streaming?
  }

  predicate ValidRun(cfg: Config, s: Proxy, steps: seq<Move>)
    decreases |steps|
  {
    |steps| == 0 || (Possible(s, steps[0]) && ValidRun(cfg, Next(cfg, s, steps[0]), steps[1..]))
  }

  function End(cfg: Config, s: Proxy, steps: seq<Move>): Proxy
    requires ValidRun(cfg, s, steps)
    decreases |steps|
  {
    if |steps| == 0 then s else End(cfg, Next(cfg, s, steps[0]), steps[1..])
  }

  function Boot(clock: real): Proxy {
    Proxy(Start(clock), map[], map[], map[], map[], map[], [], [], clock)
  }

  /** The scheduler operation inside a step, if there is one. */
  function Inner(s: Proxy, step: Move): Option<Event>
    requires Possible(s, step)
  {
    match step
    case Arrives(r, gate, now) => if gate.Accepted? then Some(Arrive(r, now)) else None
    case Wakes(r, now) =>
      var j := s.jobs[r];
      if j.fut.Pending? then Some(Cancel(r, now))
      else if j.fut.Granted? && j.cancelled then Some(Finish(r, now))
      else None
    case SendFails(r, now) => if s.jobs[r].released then None else Some(Finish(r, now))
    case StreamEnds(r, _, now) => if s.jobs[r].released then None else Some(Finish(r, now))
    case _ => None
  }
}
