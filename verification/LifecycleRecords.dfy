/** What the event log says: the counters agree with it, every record is true of its request, and the
    curves drawn from it are ordered. */
module LifecycleRecords {
  import opened Options
  import opened SchedulerModel
  import opened SchedulerRuns
  import opened Lifecycle
  import opened LifecycleProofs
  import C = Concurrency
  import B = Buckets

  // ---- counters ----

  predicate Counted(e: Record, m: string, good: bool) {
    e.req.model == m && e.tAcquire.Some? && (200 <= e.status < 400) == good
  }

  /** The recorded runs of `m` that ended with a good status, or with another one. */
  function Tally(events: seq<Record>, m: string, good: bool): nat {
    if |events| == 0 then 0
    else Tally(events[..|events| - 1], m, good) + if Counted(events[|events| - 1], m, good) then 1 else 0
  }

  /** `total_served` and `total_errored` count the recorded runs by their status. */
  ghost predicate Tallied(s: Proxy) {
    forall m :: Get(s.served, m) == Tally(s.events, m, true) && Get(s.errored, m) == Tally(s.events, m, false)
  }

  lemma TallyMore(events: seq<Record>, recs: seq<Record>, m: string, good: bool)
    requires |recs| <= 1
    ensures Tally(events + recs, m, good) == Tally(events, m, good) + Tally(recs, m, good)
  {
    if |recs| == 1 {
      assert (events + recs)[..|events|] == events;
      assert recs[..0] == [];
    } else {
      assert events + recs == events;
    }
  }

  lemma TallyOne(e: Record, m: string, good: bool)
    ensures Tally([e], m, good) == if Counted(e, m, good) then 1 else 0
  {
    assert [e][..0] == [];
  }

  lemma CloseTallies(cfg: Config, s: Proxy, r: Request, status: int, outcome: Outcome, now: real, m: string)
    requires r in s.jobs && Flagged(s.jobs[r], s.clock) && s.jobs[r].InService()
    ensures var s' := Closed(cfg, s, r, status, outcome, now);
            var recs := [Record(r, s.jobs[r].tAcquire, now, status, outcome)];
            && Get(s'.served, m) == Get(s.served, m) + Tally(recs, m, true)
            && Get(s'.errored, m) == Get(s.errored, m) + Tally(recs, m, false)
  {
    CloseJobs(cfg, s, r, status, outcome, now);
    var e := Record(r, s.jobs[r].tAcquire, now, status, outcome);
    TallyOne(e, m, true);
    TallyOne(e, m, false);
    hide Closed, SchedulerRuns.Step, Tally, JobsAfter;
  }

  lemma StepTallies(cfg: Config, s: Proxy, step: Move, m: string)
    requires Possible(s, step) && AllFlagged(s)
    ensures var s' := Next(cfg, s, step);
            && |Emitted(s, step)| <= 1
            && Get(s'.served, m) == Get(s.served, m) + Tally(Emitted(s, step), m, true)
            && Get(s'.errored, m) == Get(s.errored, m) + Tally(Emitted(s, step), m, false)
  {
    if step.r in s.jobs {
      assert Flagged(s.jobs[step.r], s.clock);
    }
    if |Emitted(s, step)| == 1 {
      TallyOne(Emitted(s, step)[0], m, true);
      TallyOne(Emitted(s, step)[0], m, false);
      assert Emitted(s, step) == [Emitted(s, step)[0]];
    }
    hide FinalOutcome, Get, Closed, WakeStep, ArriveStep, Tally, GoodStatus, CostFitsPool;
    match step
    case Arrives(r, gate, now) => ArriveJobs(cfg, s, r, gate, now);
    case Wakes(r, now) => WakeJobs(cfg, s, r, now);
    case SendFails(r, now) => CloseTallies(cfg, s, r, 599, UpstreamError, now, m);
    case StreamEnds(r, natural, now) =>
      CloseTallies(cfg, s, r, s.jobs[r].phase.status, FinalOutcome(s.jobs[r].phase.status, natural), now, m);
    case _ =>
  }

  lemma StaysTallied(cfg: Config, s: Proxy, step: Move)
    requires Possible(s, step) && AllFlagged(s) && Tallied(s)
    ensures Tallied(Next(cfg, s, step))
  {
    StepParts(cfg, s, step);
    hide Next, Emitted, Tally, AllFlagged;
    forall m
      ensures Get(Next(cfg, s, step).served, m) == Tally(Next(cfg, s, step).events, m, true)
      ensures Get(Next(cfg, s, step).errored, m) == Tally(Next(cfg, s, step).events, m, false)
    {
      StepTallies(cfg, s, step, m);
      TallyMore(s.events, Emitted(s, step), m, true);
      TallyMore(s.events, Emitted(s, step), m, false);
    }
  }

  // ---- records ----

  /** What a job's future and times say about its request. */
  predicate Fitted(cfg: Config, r: Request, j: Job, clock: real) {
    && r.enqueuedAt <= clock
    && (j.fut.Pending? || j.fut.Granted? ==> CostFitsPool(cfg, r))
    && (j.fut.Refused? ==> !CostFitsPool(cfg, r))
    && (j.tAcquire.Some? ==> r.enqueuedAt <= j.tAcquire.value <= clock)
  }

  /** A record is true: turned away or cancelled requests never had a slot, a rejected one can never
      fit its pool, a run took its slot after it arrived and before it ended, and its outcome fits its
      status. */
  predicate RecordTrue(cfg: Config, e: Record) {
    && e.req.enqueuedAt <= e.tDone
    && (e.tAcquire.Some? <==> e.outcome.Completed? || e.outcome.UpstreamError? || e.outcome.ClientAbandoned?)
    && (e.tAcquire.Some? ==> e.req.enqueuedAt <= e.tAcquire.value <= e.tDone && CostFitsPool(cfg, e.req))
    && (e.outcome.RejectedUnadmittable? ==> !CostFitsPool(cfg, e.req) && e.status == 503)
    && (e.outcome.CancelledQueued? ==> CostFitsPool(cfg, e.req) && e.status == 499)
    && (e.outcome.RejectedOversized? ==> e.status == 413) && (e.outcome.RejectedUnhealthy? ==> e.status == 503)
    && (e.tAcquire.Some? ==> (e.outcome.UpstreamError? <==> e.status >= 400))
  }

  ghost predicate Recorded(cfg: Config, s: Proxy) {
    && (forall r :: r in s.jobs ==> Fitted(cfg, r, s.jobs[r], s.clock))
    && (forall e :: e in s.events ==> RecordTrue(cfg, e))
  }

  lemma OwnFitted(cfg: Config, s: Proxy, step: Move)
    requires AllFlagged(s) && Recorded(cfg, s) && Possible(s, step) && !Misses(s, step)
    ensures Fitted(cfg, step.r, OwnJob(cfg, s, step), step.now)
    ensures forall e :: e in Emitted(s, step) ==> RecordTrue(cfg, e)
  {
    if step.r in s.jobs {
      assert Flagged(s.jobs[step.r], s.clock) && Fitted(cfg, step.r, s.jobs[step.r], s.clock);
    }
    hide CostFitsPool, Recorded, AllFlagged;
  }

  lemma FitsFollow(cfg: Config, s: Proxy, s': Proxy, r: Request, own: Job, recs: seq<Record>)
    requires Recorded(cfg, s) && Follows(s.jobs, s'.jobs, r, own) && s'.events == s.events + recs && s.clock <= s'.clock
    requires Fitted(cfg, r, own, s'.clock) && forall e :: e in recs ==> RecordTrue(cfg, e)
    ensures Recorded(cfg, s')
  {
    forall x | x in s'.jobs ensures Fitted(cfg, x, s'.jobs[x], s'.clock) {
      if x != r {
        assert Fitted(cfg, x, s.jobs[x], s.clock);
      }
    }
    hide Fitted, RecordTrue;
  }

  lemma StaysRecorded(cfg: Config, s: Proxy, step: Move)
    requires Inv(cfg, s) && Recorded(cfg, s) && Possible(s, step)
    ensures Recorded(cfg, Next(cfg, s, step))
  {
    StepFollows(cfg, s, step);
    StepParts(cfg, s, step);
    if Misses(s, step) {
      forall x | x in s.jobs ensures Fitted(cfg, x, s.jobs[x], step.now) {
        assert Fitted(cfg, x, s.jobs[x], s.clock);
      }
    } else {
      OwnFitted(cfg, s, step);
      hide Next, OwnJob, Follows, Inv, Recorded, Emitted, RecordTrue, Fitted;
      FitsFollow(cfg, s, Next(cfg, s, step), step.r, OwnJob(cfg, s, step), Emitted(s, step));
    }
  }

  lemma {:induction false} RunRecords(cfg: Config, s: Proxy, steps: seq<Move>)
    requires Inv(cfg, s) && Tallied(s) && Recorded(cfg, s) && ValidRun(cfg, s, steps)
    ensures Tallied(End(cfg, s, steps)) && Recorded(cfg, End(cfg, s, steps))
    decreases |steps|
  {
    if |steps| > 0 {
      StepInv(cfg, s, steps[0]);
      StaysTallied(cfg, s, steps[0]);
      StaysRecorded(cfg, s, steps[0]);
      hide Inv, Tallied, Recorded, Next, Possible;
      RunRecords(cfg, Next(cfg, s, steps[0]), steps[1..]);
    }
  }

  /** Over every run from boot the served and errored counters are what the event log counts, and
      every record in the log is true. */
  lemma EveryRecordIsTrue(cfg: Config, clock: real, steps: seq<Move>)
    requires ValidRun(cfg, Boot(clock), steps)
    ensures Tallied(End(cfg, Boot(clock), steps))
    ensures forall e :: e in End(cfg, Boot(clock), steps).events ==> RecordTrue(cfg, e)
  {
    BootInv(cfg, clock);
    RunRecords(cfg, Boot(clock), steps);
  }

  // ---- what every step logs ----

  /** The event of each step: a request that is turned away logs why, one that leaves the queue without
      service a cancel or a rejection, a failed send 599 and an upstream error; the end of a stream logs
      its status, and an upstream error from 400 up, else a completion if it came to its natural end,
      else an abandonment. Nothing else logs anything. */
  predicate LogsRightly(s: Proxy, step: Move, log: seq<Record>)
    requires Possible(s, step)
  {
    var r, now := step.r, step.now;
    match step
    case Arrives(_, Oversized, _) => log == s.events + [Record(r, None, now, 413, RejectedOversized)]
    case Arrives(_, Unhealthy, _) => log == s.events + [Record(r, None, now, 503, RejectedUnhealthy)]
    case Wakes(_, _) =>
      if s.jobs[r].fut.Refused? then log == s.events + [Record(r, None, now, 503, RejectedUnadmittable)]
      else if s.jobs[r].cancelled then log == s.events + [Record(r, None, now, 499, CancelledQueued)]
      else log == s.events
    case SendFails(_, _) => log == s.events + [Record(r, s.jobs[r].tAcquire, now, 599, UpstreamError)]
    case StreamEnds(_, natural, _) =>
      var status, start := s.jobs[r].phase.status, s.jobs[r].tAcquire;
      && (status >= 400 ==> log == s.events + [Record(r, start, now, status, UpstreamError)])
      && (status < 400 && natural ==> log == s.events + [Record(r, start, now, status, Completed)])
      && (status < 400 && !natural ==> log == s.events + [Record(r, start, now, status, ClientAbandoned)])
    case _ => log == s.events
  }

  lemma EmitsRightly(s: Proxy, step: Move)
    requires AllFlagged(s) && Possible(s, step)
    ensures LogsRightly(s, step, s.events + Emitted(s, step))
  {
    if step.r in s.jobs {
      assert Flagged(s.jobs[step.r], s.clock);
    }
    assert s.events + [] == s.events;
  }

  /** After any run, every step logs what it should. */
  lemma StepsLogRightly(cfg: Config, clock: real, steps: seq<Move>, step: Move)
    requires ValidRun(cfg, Boot(clock), steps) && Possible(End(cfg, Boot(clock), steps), step)
    ensures LogsRightly(End(cfg, Boot(clock), steps), step, Next(cfg, End(cfg, Boot(clock), steps), step).events)
  {
    BootInv(cfg, clock);
    EveryRunKeeps(cfg, Boot(clock), steps);
    var s := End(cfg, Boot(clock), steps);
    StepParts(cfg, s, step);
    EmitsRightly(s, step);
    hide LogsRightly, End, ValidRun, Next, Emitted, WorldAfter, JobsNext, Repayment;
  }

  // ---- cancels ----

  /** The requests whose cancellation the steps ask for. */
  function Asked(steps: seq<Move>): set<Request> {
    set i | 0 <= i < |steps| && steps[i].CancelAsked? :: steps[i].r
  }

  /** Only requests in `asked` are flagged as cancelled, or logged so. */
  ghost predicate CancelsIn(s: Proxy, asked: set<Request>) {
    && (forall x :: x in s.jobs && s.jobs[x].cancelled ==> x in asked)
    && (forall e :: e in s.events && e.outcome.CancelledQueued? ==> e.req in asked)
  }

  lemma OwnCancels(cfg: Config, s: Proxy, step: Move, asked: set<Request>)
    requires AllFlagged(s) && Possible(s, step) && CancelsIn(s, asked) && !Misses(s, step)
    ensures OwnJob(cfg, s, step).cancelled ==> step.r in asked + Asked([step])
    ensures forall e :: e in Emitted(s, step) && e.outcome.CancelledQueued? ==> e.req in asked
  {
    if step.CancelAsked? {
      assert [step][0].CancelAsked? && step.r in Asked([step]);
    }
    if step.r in s.jobs {
      assert Flagged(s.jobs[step.r], s.clock);
    }
  }

  lemma CancelsFollow(
    s: Proxy, s': Proxy, r: Request, own: Job, recs: seq<Record>, asked: set<Request>, more: set<Request>)
    requires CancelsIn(s, asked) && Follows(s.jobs, s'.jobs, r, own) && s'.events == s.events + recs && asked <= more
    requires own.cancelled ==> r in more
    requires forall e :: e in recs && e.outcome.CancelledQueued? ==> e.req in asked
    ensures CancelsIn(s', more)
  {}

  lemma StepCancels(cfg: Config, s: Proxy, step: Move, asked: set<Request>)
    requires Inv(cfg, s) && Possible(s, step) && CancelsIn(s, asked)
    ensures CancelsIn(Next(cfg, s, step), asked + Asked([step]))
  {
    StepFollows(cfg, s, step);
    StepParts(cfg, s, step);
    if !Misses(s, step) {
      OwnCancels(cfg, s, step, asked);
      hide Next, Inv, WorldAfter, JobsNext, Repayment, CancelsIn, Follows, OwnJob, Emitted, Asked;
      CancelsFollow(s, Next(cfg, s, step), step.r, OwnJob(cfg, s, step), Emitted(s, step),
                    asked, asked + Asked([step]));
    }
  }

  /** Over every run, nobody is logged as cancelled whose cancellation was not asked for. */
  lemma {:induction false} CancelledWereAsked(cfg: Config, s: Proxy, steps: seq<Move>, asked: set<Request>)
    requires Inv(cfg, s) && ValidRun(cfg, s, steps) && CancelsIn(s, asked)
    ensures CancelsIn(End(cfg, s, steps), asked + Asked(steps))
    decreases |steps|
  {
    hide Inv, Next, Possible, CancelsIn;
    if |steps| > 0 {
      StepInv(cfg, s, steps[0]);
      StepCancels(cfg, s, steps[0], asked);
      CancelledWereAsked(cfg, Next(cfg, s, steps[0]), steps[1..], asked + Asked([steps[0]]));
      AskedCons(steps);
      assert asked + Asked([steps[0]]) + Asked(steps[1..]) == asked + Asked(steps);
    } else {
      assert asked + Asked(steps) == asked;
    }
  }

  lemma AskedCons(steps: seq<Move>)
    requires |steps| > 0
    ensures Asked(steps) == Asked([steps[0]]) + Asked(steps[1..])
  {
    forall x ensures x in Asked(steps) <==> x in Asked([steps[0]]) || x in Asked(steps[1..]) {
      if x in Asked(steps) {
        var i :| 0 <= i < |steps| && steps[i].CancelAsked? && steps[i].r == x;
        if i == 0 {
          assert [steps[0]][0].r == x;
        } else {
          assert steps[1..][i - 1].r == x;
        }
      }
      if x in Asked(steps[1..]) {
        var i :| 0 <= i < |steps[1..]| && steps[1..][i].CancelAsked? && steps[1..][i].r == x;
        assert steps[i + 1].r == x;
      }
    }
  }

  /** `r` is parked with its cancellation asked for. */
  predicate Cancelling(s: Proxy, r: Request) {
    r in s.jobs && s.jobs[r].phase.Parked? && s.jobs[r].cancelled
  }

  lemma OwnStaysCancelling(cfg: Config, s: Proxy, step: Move)
    requires Possible(s, step) && Cancelling(s, step.r) && !step.Wakes?
    ensures OwnJob(cfg, s, step) == s.jobs[step.r]
  {}

  lemma CancellingFollows(s: Proxy, s': Proxy, x: Request, own: Job, r: Request)
    requires Cancelling(s, r) && Follows(s.jobs, s'.jobs, x, own) && (x == r ==> own == s.jobs[r])
    ensures Cancelling(s', r) && (s'.jobs[r].fut.Refused? <==> s.jobs[r].fut.Refused?)
  {}

  lemma StaysCancelling(cfg: Config, s: Proxy, step: Move, r: Request)
    requires Inv(cfg, s) && Possible(s, step) && Cancelling(s, r) && !(step.Wakes? && step.r == r)
    ensures Cancelling(Next(cfg, s, step), r)
    ensures Next(cfg, s, step).jobs[r].fut.Refused? <==> s.jobs[r].fut.Refused?
  {
    hide Next, OwnJob, Possible, Follows, Synced, AllFlagged, Booked, Metered, Past, CurvesUnderCaps;
    StepFollows(cfg, s, step);
    if !Misses(s, step) {
      if step.r == r {
        OwnStaysCancelling(cfg, s, step);
      }
      CancellingFollows(s, Next(cfg, s, step), step.r, OwnJob(cfg, s, step), r);
    }
  }

  lemma {:induction false} CancelLasts(cfg: Config, s: Proxy, steps: seq<Move>, r: Request)
    requires Inv(cfg, s) && ValidRun(cfg, s, steps) && Cancelling(s, r)
    requires forall i :: 0 <= i < |steps| ==> !(steps[i].Wakes? && steps[i].r == r)
    ensures Inv(cfg, End(cfg, s, steps)) && Cancelling(End(cfg, s, steps), r)
    ensures End(cfg, s, steps).jobs[r].fut.Refused? <==> s.jobs[r].fut.Refused?
    decreases |steps|
  {
    hide Inv, Next, Possible, Cancelling;
    if |steps| > 0 {
      StepInv(cfg, s, steps[0]);
      StaysCancelling(cfg, s, steps[0], r);
      CancelLasts(cfg, Next(cfg, s, steps[0]), steps[1..], r);
    }
  }

  /** A cancel that reaches a parked request decides its end, whatever happens before it wakes up, its
      own admission included: it is logged as cancelled, unless it had been rejected on arrival. */
  lemma CancelWins(cfg: Config, s: Proxy, steps: seq<Move>, r: Request, at: real, now: real)
    requires Inv(cfg, s) && r in s.jobs && s.jobs[r].phase.Parked? && Possible(s, CancelAsked(r, at))
    requires var s1 := Next(cfg, s, CancelAsked(r, at));
             ValidRun(cfg, s1, steps) && Possible(End(cfg, s1, steps), Wakes(r, now))
    requires forall i :: 0 <= i < |steps| ==> !(steps[i].Wakes? && steps[i].r == r)
    ensures var s2 := End(cfg, Next(cfg, s, CancelAsked(r, at)), steps);
            Next(cfg, s2, Wakes(r, now)).events == s2.events +
            [if s.jobs[r].fut.Refused? then Record(r, None, now, 503, RejectedUnadmittable)
             else Record(r, None, now, 499, CancelledQueued)]
  {
    var s1 := Next(cfg, s, CancelAsked(r, at));
    StepInv(cfg, s, CancelAsked(r, at));
    assert Cancelling(s1, r) && s1.jobs[r].fut == s.jobs[r].fut;
    hide Inv, Next, ValidRun, End, Cancelling;
    CancelLasts(cfg, s1, steps, r);
    var s2 := End(cfg, s1, steps);
    WakesCancelled(cfg, s2, r, now);
  }

  lemma WakesCancelled(cfg: Config, s: Proxy, r: Request, now: real)
    requires Inv(cfg, s) && Cancelling(s, r) && Possible(s, Wakes(r, now))
    ensures Next(cfg, s, Wakes(r, now)).events == s.events +
            [if s.jobs[r].fut.Refused? then Record(r, None, now, 503, RejectedUnadmittable)
             else Record(r, None, now, 499, CancelledQueued)]
  {
    StepParts(cfg, s, Wakes(r, now));
    EmitsRightly(s, Wakes(r, now));
    hide Next, Inv, Emitted, WorldAfter, JobsNext, Repayment;
  }

  // ---- offered and active curves ----

  /** A model's events as the dashboard reads them. */
  function CallsOf(events: seq<Record>, m: string): seq<B.Call> {
    if |events| == 0 then []
    else
      var e := events[|events| - 1];
      CallsOf(events[..|events| - 1], m)
      + if e.req.model == m then [B.Call(e.req.enqueuedAt, e.tAcquire, e.tDone)] else []
  }

  lemma {:induction false} ActiveOfCalls(events: seq<Record>, m: string)
    ensures B.ActiveSpans(CallsOf(events, m)) == Windows(events, m)
  {
    if |events| > 0 {
      var e, init := events[|events| - 1], events[..|events| - 1];
      ActiveOfCalls(init, m);
      var cs := CallsOf(init, m);
      if e.req.model == m {
        var c := B.Call(e.req.enqueuedAt, e.tAcquire, e.tDone);
        assert (cs + [c])[..|cs|] == cs && (cs + [c])[|cs|] == c;
      } else {
        assert cs + [] == cs;
        assert Windows(init, m) + [] == Windows(init, m);
      }
    }
  }

  lemma {:induction false} CallsAreTrue(cfg: Config, events: seq<Record>, m: string)
    requires forall e :: e in events ==> RecordTrue(cfg, e)
    ensures forall c :: c in CallsOf(events, m) && c.acquired.Some? ==> c.enqueued <= c.acquired.value
  {
    if |events| > 0 {
      var e := events[|events| - 1];
      assert e in events && RecordTrue(cfg, e);
      CallsAreTrue(cfg, events[..|events| - 1], m);
      hide RecordTrue;
    }
  }

  lemma {:induction false} WindowsTallied(events: seq<Record>, m: string)
    ensures |Windows(events, m)| == Tally(events, m, true) + Tally(events, m, false)
  {
    if |events| > 0 {
      WindowsTallied(events[..|events| - 1], m);
    }
  }

  lemma {:induction false} WindowsInLog(events: seq<Record>, m: string, iv: C.Span)
    ensures iv in Windows(events, m) <==>
            exists e :: e in events && e.req.model == m && e.tAcquire == Some(iv.start) && e.tDone == iv.end
    ensures iv in B.Offered(CallsOf(events, m)) <==>
            exists e :: e in events && e.req.model == m && e.req.enqueuedAt == iv.start && e.tDone == iv.end
  {
    if |events| > 0 {
      var init, last := events[..|events| - 1], events[|events| - 1];
      WindowsInLog(init, m, iv);
      assert forall e :: e in events <==> e in init || e == last;
      OfferedMore(CallsOf(init, m), B.Call(last.req.enqueuedAt, last.tAcquire, last.tDone));
      assert CallsOf(init, m) + [] == CallsOf(init, m);
    }
  }

  lemma OfferedMore(cs: seq<B.Call>, c: B.Call)
    ensures B.Offered(cs + [c]) == B.Offered(cs) + [C.Span(c.enqueued, c.done)]
  {
    assert (cs + [c])[..|cs|] == cs;
  }

  /** After any run the curves are drawn from the whole log: the active one from the window from slot to
      end of every recorded run, as many as were counted as served or errored, the offered one from the
      window from arrival to end of every event. */
  lemma CurvesFromLog(cfg: Config, clock: real, steps: seq<Move>, m: string)
    requires ValidRun(cfg, Boot(clock), steps)
    ensures var s := End(cfg, Boot(clock), steps);
            && |Windows(s.events, m)| == Get(s.served, m) + Get(s.errored, m)
            && (forall iv :: iv in Windows(s.events, m) <==>
                  exists e :: e in s.events && e.req.model == m && e.tAcquire == Some(iv.start) && e.tDone == iv.end)
            && (forall iv :: iv in B.Offered(CallsOf(s.events, m)) <==>
                  exists e :: e in s.events && e.req.model == m && e.req.enqueuedAt == iv.start && e.tDone == iv.end)
  {
    EveryRecordIsTrue(cfg, clock, steps);
    var s := End(cfg, Boot(clock), steps);
    WindowsTallied(s.events, m);
    hide ValidRun, End, RecordTrue, B.Offered, CallsOf, Windows;
    forall iv ensures iv in Windows(s.events, m) <==>
                  exists e :: e in s.events && e.req.model == m && e.tAcquire == Some(iv.start) && e.tDone == iv.end
              ensures iv in B.Offered(CallsOf(s.events, m)) <==>
                  exists e :: e in s.events && e.req.model == m && e.req.enqueuedAt == iv.start && e.tDone == iv.end
    {
      WindowsInLog(s.events, m, iv);
    }
  }

  /** In every window, a model's recorded active curve stays below its recorded offered curve. */
  lemma RecordedActiveBelowOffered(cfg: Config, clock: real, steps: seq<Move>, m: string, a: real, b: real)
    requires ValidRun(cfg, Boot(clock), steps) && a <= b
    ensures var events := End(cfg, Boot(clock), steps).events;
            C.TotalOverlap(a, b, Windows(events, m)) <= C.TotalOverlap(a, b, B.Offered(CallsOf(events, m)))
  {
    EveryRecordIsTrue(cfg, clock, steps);
    var events := End(cfg, Boot(clock), steps).events;
    CallsAreTrue(cfg, events, m);
    ActiveOfCalls(events, m);
    B.ActiveBelowOffered(CallsOf(events, m), a, b);
  }
}
