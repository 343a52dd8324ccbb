/** The health breaker in the life of the requests: what a run of the proxy asks it and reports to it,
    when it trips, and what it keeps away from the backend. */
module LifecycleBreaker {
  import opened Options
  import opened SchedulerModel
  import opened SchedulerRuns
  import opened SchedulerProgress
  import opened Lifecycle
  import opened LifecycleProofs
  import opened LifecycleRecords
  import K = BreakerModel

  // ---- what the breaker is asked and told ----

  /** The name under which an outcome is reported. */
  function Label(o: Outcome): string {
    match o
    case Completed => K.COMPLETED
    case UpstreamError => K.UPSTREAM_ERROR
    case ClientAbandoned => "client_abandoned"
    case CancelledQueued => "cancelled_queued"
    case RejectedUnadmittable => "rejected_unadmittable"
    case RejectedOversized => "rejected_oversized"
    case RejectedUnhealthy => "rejected_unhealthy"
  }

  /** An attempt of `m`: its request reached the upstream. */
  predicate Attempt(e: Record, m: string) { e.req.model == m && e.tAcquire.Some? }

  /** What a step asks or tells the breaker of model `m`: it asks for every arrival that is not
      oversized, and reports every attempt that ends. */
  function Feeds(s: Proxy, step: Move, m: string): seq<K.Event>
    requires Possible(s, step)
  {
    if step.Arrives? then if step.r.model == m && !step.gate.Oversized? then [K.Ask(step.now)] else []
    else
      var recs := Emitted(s, step);
      if |recs| > 0 && Attempt(recs[0], m) then [K.Report(Label(recs[0].outcome), recs[0].tDone)] else []
  }

  function Trace(cfg: Config, s: Proxy, steps: seq<Move>, m: string): seq<K.Event>
    requires ValidRun(cfg, s, steps)
    decreases |steps|
  {
    if |steps| == 0 then []
    else Feeds(s, steps[0], m) + Trace(cfg, Next(cfg, s, steps[0]), steps[1..], m)
  }

  /** The outcomes of the attempts of `m` in the event log, in order. */
  function Attempts(events: seq<Record>, m: string): seq<string> {
    if |events| == 0 then []
    else
      var e := events[|events| - 1];
      Attempts(events[..|events| - 1], m) + if Attempt(e, m) then [Label(e.outcome)] else []
  }

  lemma AttemptsMore(events: seq<Record>, e: Record, m: string)
    ensures Attempts(events + [e], m) == Attempts(events, m) + if Attempt(e, m) then [Label(e.outcome)] else []
  {
    assert (events + [e])[..|events|] == events;
  }

  lemma {:induction false} OutcomesCons(e: K.Event, rest: seq<K.Event>)
    ensures K.Outcomes([e] + rest) == (if e.Report? then [e.outcome] else []) + K.Outcomes(rest)
  {
    if |rest| == 0 {
      assert [e] + rest == [e] && [e][..0] == [];
    } else {
      var init := rest[..|rest| - 1];
      OutcomesCons(e, init);
      assert ([e] + rest)[..|rest|] == [e] + init;
    }
  }

  lemma FeedShape(s: Proxy, step: Move, m: string)
    requires Possible(s, step)
    ensures |Emitted(s, step)| <= 1
    ensures step.Arrives? && Emitted(s, step) != [] ==> Emitted(s, step)[0].tAcquire.None?
    ensures |Feeds(s, step, m)| <= 1 && forall e :: e in Feeds(s, step, m) ==> e.at == step.now
  {
    hide FinalOutcome, Label;
  }

  lemma FeedsAreAttempts(events: seq<Record>, s: Proxy, step: Move, m: string)
    requires Possible(s, step)
    ensures Attempts(events + Emitted(s, step), m) == Attempts(events, m) + K.Outcomes(Feeds(s, step, m))
  {
    FeedShape(s, step, m);
    var recs := Emitted(s, step);
    hide Emitted, Label, Possible, Attempts;
    if recs == [] {
      assert events + recs == events;
    } else {
      assert recs == [recs[0]];
      AttemptsMore(events, recs[0], m);
    }
    if Feeds(s, step, m) != [] {
      assert Feeds(s, step, m) == [Feeds(s, step, m)[0]];
      OutcomesOne(Feeds(s, step, m)[0]);
    }
  }

  /** Over any run, the outcomes that the breaker of `m` is told are exactly those of the attempts of
      `m` in the event log, in order, each at the time its event says. */
  lemma {:induction false} ToldTheAttempts(cfg: Config, s: Proxy, steps: seq<Move>, m: string)
    requires Inv(cfg, s) && ValidRun(cfg, s, steps)
    ensures var trace := Trace(cfg, s, steps, m);
            && Attempts(End(cfg, s, steps).events, m) == Attempts(s.events, m) + K.Outcomes(trace)
            && K.Clocked(s.clock, trace)
    decreases |steps|
  {
    hide Inv, Next, Feeds, Attempts, Possible;
    if |steps| > 0 {
      var s' := Next(cfg, s, steps[0]);
      StepTold(cfg, s, steps[0], m);
      ToldTheAttempts(cfg, s', steps[1..], m);
      FeedFirst(Feeds(s, steps[0], m), Trace(cfg, s', steps[1..], m), s.clock, s'.clock);
    }
  }

  lemma StepTold(cfg: Config, s: Proxy, step: Move, m: string)
    requires Inv(cfg, s) && Possible(s, step)
    ensures var s', feed := Next(cfg, s, step), Feeds(s, step, m);
            && Inv(cfg, s') && s.clock <= s'.clock
            && Attempts(s'.events, m) == Attempts(s.events, m) + K.Outcomes(feed)
            && |feed| <= 1 && forall e :: e in feed ==> e.at == s'.clock
  {
    StepInv(cfg, s, step);
    StepParts(cfg, s, step);
    FeedShape(s, step, m);
    FeedsAreAttempts(s.events, s, step, m);
    hide Next, Feeds, Attempts, Emitted, WorldAfter, JobsNext, Repayment;
  }

  lemma FeedFirst(feed: seq<K.Event>, rest: seq<K.Event>, from: real, now: real)
    requires |feed| <= 1 && (forall e :: e in feed ==> e.at == now) && from <= now && K.Clocked(now, rest)
    ensures K.Clocked(from, feed + rest) && K.Outcomes(feed + rest) == K.Outcomes(feed) + K.Outcomes(rest)
  {
    if feed == [] {
      assert feed + rest == rest;
    } else {
      var e := feed[0];
      assert feed == [e] && e in feed;
      assert ([e] + rest)[1..] == rest;
      hide K.Outcomes;
      OutcomesCons(e, rest);
      OutcomesOne(e);
    }
  }

  lemma OutcomesOne(e: K.Event)
    ensures K.Outcomes([e]) == if e.Report? then [e.outcome] else []
  {
    assert [e][..0] == [];
  }

  lemma {:induction false} FedBefore(cfg: Config, s: Proxy, steps: seq<Move>, m: string)
    requires ValidRun(cfg, s, steps)
    ensures s.clock <= End(cfg, s, steps).clock
    ensures forall e :: e in Trace(cfg, s, steps, m) ==> e.at <= End(cfg, s, steps).clock
    decreases |steps|
  {
    if |steps| > 0 {
      FeedShape(s, steps[0], m);
      var s' := Next(cfg, s, steps[0]);
      assert s'.clock == steps[0].now >= s.clock by {
        hide ArriveStep, WakeStep, Closed;
      }
      hide Next, Feeds, Possible, Emitted;
      FedBefore(cfg, s', steps[1..], m);
    }
  }

  // ---- when it trips ----

  /** The attempts of `m` that ended with an error status since the last completed one. A stream that
      broke off after a good status does not count, and does not interrupt. */
  function Streak(events: seq<Record>, m: string): nat {
    if |events| == 0 then 0
    else
      var e, before := events[|events| - 1], events[..|events| - 1];
      if !Attempt(e, m) then Streak(before, m)
      else if e.status >= 400 then Streak(before, m) + 1
      else if e.outcome.Completed? then 0
      else Streak(before, m)
  }

  lemma {:induction false} StreakIsTrailing(cfg: Config, events: seq<Record>, m: string)
    requires forall e :: e in events ==> RecordTrue(cfg, e)
    ensures K.TrailingErrors(Attempts(events, m)) == Streak(events, m)
  {
    if |events| > 0 {
      var e, before := events[|events| - 1], events[..|events| - 1];
      assert e in events && RecordTrue(cfg, e);
      StreakIsTrailing(cfg, before, m);
      var told := Attempts(before, m);
      if Attempt(e, m) {
        assert (told + [Label(e.outcome)])[..|told|] == told;
      } else {
        assert told + [] == told;
      }
    }
  }

  /** The breaker of `m` after a run. */
  function BreakerAfter(cfg: Config, g: K.Gate, clock: real, steps: seq<Move>, m: string): K.Snapshot
    requires ValidRun(cfg, Boot(clock), steps)
  {
    K.Run(g, K.FRESH, Trace(cfg, Boot(clock), steps, m))
  }

  /** What the breaker of `m` has been told by the end of a run is what the event log counts. */
  lemma ToldTheStreak(cfg: Config, clock: real, steps: seq<Move>, m: string)
    requires ValidRun(cfg, Boot(clock), steps)
    ensures var s, trace := End(cfg, Boot(clock), steps), Trace(cfg, Boot(clock), steps, m);
            && K.TrailingErrors(K.Outcomes(trace)) == Streak(s.events, m)
            && K.Clocked(clock, trace) && K.LastTime(clock, trace) <= s.clock
  {
    var s0, s, trace := Boot(clock), End(cfg, Boot(clock), steps), Trace(cfg, Boot(clock), steps, m);
    BootInv(cfg, clock);
    ToldTheAttempts(cfg, s0, steps, m);
    FedBefore(cfg, s0, steps, m);
    EveryRecordIsTrue(cfg, clock, steps);
    StreakIsTrailing(cfg, s.events, m);
    NoAttempts(m);
    hide Inv, Tallied, RecordTrue, Trace, End, ValidRun, Attempts, Streak;
    assert [] + K.Outcomes(trace) == K.Outcomes(trace);
  }

  /** Over every run the breaker is where the event log says: in particular, while closed it counts the
      streak of attempts with an error status, which is below the limit. */
  lemma BreakerFollowsLog(cfg: Config, g: K.Gate, clock: real, steps: seq<Move>, m: string)
    requires g.Sound() && ValidRun(cfg, Boot(clock), steps)
    ensures var s := End(cfg, Boot(clock), steps);
            K.Reachable(g, BreakerAfter(cfg, g, clock, steps, m), s.clock, Streak(s.events, m))
  {
    hide Trace, End, ValidRun, Streak;
    ToldTheStreak(cfg, clock, steps, m);
    K.StateFollowsHistory(g, Trace(cfg, Boot(clock), steps, m), clock);
  }

  lemma NoAttempts(m: string)
    ensures Attempts([], m) == []
  {}

  lemma {:induction false} OneMoreStep(cfg: Config, s: Proxy, steps: seq<Move>, step: Move, m: string)
    requires ValidRun(cfg, s, steps) && Possible(End(cfg, s, steps), step)
    ensures ValidRun(cfg, s, steps + [step])
    ensures End(cfg, s, steps + [step]) == Next(cfg, End(cfg, s, steps), step)
    ensures Trace(cfg, s, steps + [step], m) == Trace(cfg, s, steps, m) + Feeds(End(cfg, s, steps), step, m)
    decreases |steps|
  {
    hide Next, Feeds, Possible;
    if |steps| == 0 {
      assert steps + [step] == [step] && [step][1..] == [];
      assert Trace(cfg, Next(cfg, s, step), [], m) == [];
    } else {
      OneMoreStep(cfg, Next(cfg, s, steps[0]), steps[1..], step, m);
      assert (steps + [step])[1..] == steps[1..] + [step];
    }
  }

  /** A closed breaker trips on exactly the step whose event completes a streak of `fails` attempts with
      an error status. */
  lemma TripsOnErrorStreak(cfg: Config, g: K.Gate, clock: real, steps: seq<Move>, step: Move, m: string)
    requires g.Sound() && ValidRun(cfg, Boot(clock), steps) && Possible(End(cfg, Boot(clock), steps), step)
    requires BreakerAfter(cfg, g, clock, steps, m).phase.Closed?
    ensures ValidRun(cfg, Boot(clock), steps + [step])
    ensures BreakerAfter(cfg, g, clock, steps + [step], m).phase.Open? <==>
            Streak(End(cfg, Boot(clock), steps + [step]).events, m) == g.fails
    ensures !BreakerAfter(cfg, g, clock, steps + [step], m).phase.HalfOpen?
  {
    var trace, feed := Trace(cfg, Boot(clock), steps, m), Feeds(End(cfg, Boot(clock), steps), step, m);
    FeedShape(End(cfg, Boot(clock), steps), step, m);
    OneMoreStep(cfg, Boot(clock), steps, step, m);
    hide Next, Feeds, Possible, ValidRun, End, Trace, Streak, Emitted;
    ToldTheStreak(cfg, clock, steps, m);
    ToldTheStreak(cfg, clock, steps + [step], m);
    if feed == [] {
      assert trace + feed == trace;
      K.StateFollowsHistory(g, trace, clock);
    } else {
      assert feed == [feed[0]];
      K.TripsExactly(g, trace, clock, feed[0]);
    }
  }

  // ---- which timeouts count ----

  /** The attempt breaks off: the request fails before the response headers, or its stream does not
      come to its natural end. A read-timeout shows as one or the other. */
  predicate BreaksOff(step: Move) { step.SendFails? || (step.StreamEnds? && !step.natural) }

  /** An attempt that breaks off counts against the breaker if and only if it did so before the headers,
      or after an error status; otherwise the breaker is told of an abandonment, which changes nothing. */
  lemma TimeoutCounts(cfg: Config, clock: real, steps: seq<Move>, step: Move)
    requires ValidRun(cfg, Boot(clock), steps) && Possible(End(cfg, Boot(clock), steps), step) && BreaksOff(step)
    ensures var s := End(cfg, Boot(clock), steps);
            var outcome := if step.SendFails? || s.jobs[step.r].phase.status >= 400 then "upstream_error"
                           else "client_abandoned";
            && Feeds(s, step, step.r.model) == [K.Report(outcome, step.now)]
            && (K.Counts(outcome) <==> step.SendFails? || s.jobs[step.r].phase.status >= 400)
  {
    BootInv(cfg, clock);
    EveryRunKeeps(cfg, Boot(clock), steps);
    BreakOffFeeds(End(cfg, Boot(clock), steps), step);
    hide Feeds, End, ValidRun, Next, BreaksOff;
  }

  lemma BreakOffFeeds(s: Proxy, step: Move)
    requires AllFlagged(s) && Possible(s, step) && BreaksOff(step)
    ensures Feeds(s, step, step.r.model) ==
            [K.Report(if step.SendFails? || s.jobs[step.r].phase.status >= 400 then K.UPSTREAM_ERROR
                      else "client_abandoned", step.now)]
  {
    assert Flagged(s.jobs[step.r], s.clock);
  }

  /** After any run, a step tells the breaker of `m` of a success exactly if a stream of `m` with a good
      status comes to its natural end. */
  lemma SuccessIsTold(cfg: Config, clock: real, steps: seq<Move>, step: Move, m: string)
    requires ValidRun(cfg, Boot(clock), steps) && Possible(End(cfg, Boot(clock), steps), step)
    ensures var s := End(cfg, Boot(clock), steps);
            Feeds(s, step, m) == [K.Report("completed", step.now)] <==>
            step.StreamEnds? && step.r.model == m && step.natural && s.jobs[step.r].phase.status < 400
  {
    BootInv(cfg, clock);
    EveryRunKeeps(cfg, Boot(clock), steps);
    NaturalEndFeeds(End(cfg, Boot(clock), steps), step, m);
    hide Feeds, End, ValidRun, Next;
  }

  lemma NaturalEndFeeds(s: Proxy, step: Move, m: string)
    requires AllFlagged(s) && Possible(s, step)
    ensures Feeds(s, step, m) == [K.Report("completed", step.now)] <==>
            step.StreamEnds? && step.r.model == m && step.natural && s.jobs[step.r].phase.status < 400
  {
    if step.r in s.jobs {
      assert Flagged(s.jobs[step.r], s.clock);
    }
  }

  /** Over every run, an attempt feeds the breaker an upstream error if and only if its status is at
      least 400, and a success if and only if it completed. */
  lemma ErrorsAreStatuses(cfg: Config, clock: real, steps: seq<Move>, e: Record, m: string)
    requires ValidRun(cfg, Boot(clock), steps) && e in End(cfg, Boot(clock), steps).events && Attempt(e, m)
    ensures Label(e.outcome) == K.UPSTREAM_ERROR <==> e.status >= 400
    ensures Label(e.outcome) == K.COMPLETED <==> e.outcome.Completed?
  {
    EveryRecordIsTrue(cfg, clock, steps);
    assert RecordTrue(cfg, e);
  }

  lemma {:induction false} NoErrorsNoTrip(g: K.Gate, b: K.Snapshot, trace: seq<K.Event>)
    requires b.phase.Closed? && K.UPSTREAM_ERROR !in K.Outcomes(trace)
    ensures K.Run(g, b, trace).phase.Closed?
    decreases trace
  {
    if |trace| > 0 {
      assert trace == [trace[0]] + trace[1..];
      OutcomesCons(trace[0], trace[1..]);
      assert K.Apply(g, b, trace[0]).phase.Closed?;
      NoErrorsNoTrip(g, K.Apply(g, b, trace[0]), trace[1..]);
    }
  }

  lemma {:induction false} GoodStatusesOnly(cfg: Config, events: seq<Record>, m: string)
    requires forall e :: e in events ==> RecordTrue(cfg, e)
    requires forall e :: e in events && Attempt(e, m) ==> e.status < 400
    ensures K.UPSTREAM_ERROR !in Attempts(events, m)
  {
    if |events| > 0 {
      var e := events[|events| - 1];
      assert e in events && RecordTrue(cfg, e);
      GoodStatusesOnly(cfg, events[..|events| - 1], m);
    }
  }

  /** However many streams of `m` break off, as long as none of its attempts ends with an error status
      its breaker stays closed. */
  lemma StalledStreamsNeverTrip(cfg: Config, g: K.Gate, clock: real, steps: seq<Move>, m: string)
    requires ValidRun(cfg, Boot(clock), steps)
    requires forall e :: e in End(cfg, Boot(clock), steps).events && Attempt(e, m) ==> e.status < 400
    ensures BreakerAfter(cfg, g, clock, steps, m).phase.Closed?
  {
    EveryRecordIsTrue(cfg, clock, steps);
    GoodStatusesOnly(cfg, End(cfg, Boot(clock), steps).events, m);
    BootInv(cfg, clock);
    ToldTheAttempts(cfg, Boot(clock), steps, m);
    NoAttempts(m);
    hide RecordTrue, Tallied, Inv, Trace, End, ValidRun, Attempts;
    var trace := Trace(cfg, Boot(clock), steps, m);
    assert [] + K.Outcomes(trace) == K.Outcomes(trace);
    NoErrorsNoTrip(g, K.FRESH, trace);
  }

  /** A request that is granted at once and gets its headers, from arrival to the end of its stream. */
  function Served(r: Request, status: int, natural: bool, t: real): seq<Move> {
    [Arrives(r, Accepted, t), Wakes(r, t), HeadersIn(r, status, t), StreamEnds(r, natural, t)]
  }

  /** Nobody waits and nobody runs. */
  predicate Idle(s: Proxy) { s.w.st.Waiting() == [] && s.w.running == [] }

  /** An admittable arrival that finds the proxy idle is granted at once, whatever the configuration. */
  lemma IdleGrants(cfg: Config, s: Proxy, r: Request, t: real)
    requires Inv(cfg, s) && Idle(s) && CapsPositive(cfg) && CostFitsPool(cfg, r)
    requires Possible(s, Arrives(r, Accepted, t))
    ensures var s' := Next(cfg, s, Arrives(r, Accepted, t));
            && Inv(cfg, s') && s'.clock == t && s'.events == s.events
            && r in s'.jobs && s'.jobs[r] == Job(Parked, Granted, false, None, false, false)
  {
    hide Next, SchedulerRuns.Step, Good, CostFitsPool, CapsPositive, Admitted;
    InnerEnabled(cfg, s, Arrives(r, Accepted, t));
    GrantedAtOnce(cfg, s.w, r, t);
    ArrivesGranted(cfg, s, r, t);
  }

  lemma ArrivesGranted(cfg: Config, s: Proxy, r: Request, t: real)
    requires Inv(cfg, s) && Possible(s, Arrives(r, Accepted, t)) && CostFitsPool(cfg, r)
    requires r in Admitted(SchedulerRuns.Step(cfg, s.w, Arrive(r, t)).1)
    ensures var s' := Next(cfg, s, Arrives(r, Accepted, t));
            && Inv(cfg, s') && s'.clock == t && s'.events == s.events
            && r in s'.jobs && s'.jobs[r] == Job(Parked, Granted, false, None, false, false)
  {
    StepInv(cfg, s, Arrives(r, Accepted, t));
    StepParts(cfg, s, Arrives(r, Accepted, t));
    hide Inv, Next, SchedulerRuns.Step, Admitted, CostFitsPool;
    assert s.events + [] == s.events;
  }

  lemma GrantedAtOnce(cfg: Config, w: World, r: Request, t: real)
    requires Good(cfg, w) && CapsPositive(cfg) && CostFitsPool(cfg, r)
    requires Enabled(w, Arrive(r, t)) && w.st.Waiting() == [] && w.running == []
    ensures r in Admitted(SchedulerRuns.Step(cfg, w, Arrive(r, t)).1)
  {
    hide SchedulerRuns.Step, Good, Enabled, CapsPositive, State.Waiting, CostFitsPool, Admitted;
    var e := Arrive(r, t);
    var w' := SchedulerRuns.Step(cfg, w, e).0;
    StepGood(cfg, w, e);
    Moves(cfg, w, e, r);
    if r in w'.st.Waiting() {
      NoDeadlock(cfg, w', r);
      OnlyItself(cfg, w, r, t);
    }
  }

  lemma OnlyItself(cfg: Config, w: World, r: Request, t: real)
    requires Good(cfg, w) && Enabled(w, Arrive(r, t)) && w.st.Waiting() == [] && w.running == []
    ensures forall x :: x in SchedulerRuns.Step(cfg, w, Arrive(r, t)).0.running ==> x == r
  {
    hide SchedulerRuns.Step, Good, Enabled, State.Waiting, CostFitsPool, Admitted;
    forall x | x in SchedulerRuns.Step(cfg, w, Arrive(r, t)).0.running ensures x == r {
      Moves(cfg, w, Arrive(r, t), x);
    }
  }

  lemma StepThen(cfg: Config, s: Proxy, step: Move, rest: seq<Move>)
    requires Possible(s, step) && ValidRun(cfg, Next(cfg, s, step), rest)
    ensures ValidRun(cfg, s, [step] + rest) && End(cfg, s, [step] + rest) == End(cfg, Next(cfg, s, step), rest)
  {
    hide Next, Possible;
    assert ([step] + rest)[1..] == rest;
  }

  lemma StreamRuns(cfg: Config, s: Proxy, r: Request, status: int, natural: bool)
    requires Inv(cfg, s) && r in s.jobs && s.jobs[r].phase == Streaming(status)
    ensures ValidRun(cfg, s, [StreamEnds(r, natural, s.clock)])
    ensures End(cfg, s, [StreamEnds(r, natural, s.clock)]).events ==
            s.events + [Record(r, s.jobs[r].tAcquire, s.clock, status, FinalOutcome(status, natural))]
  {
    var step := StreamEnds(r, natural, s.clock);
    StepParts(cfg, s, step);
    StepThen(cfg, s, step, []);
    assert [step] + [] == [step];
    hide Next, Inv, FinalOutcome;
  }

  lemma GrantedRuns(cfg: Config, s: Proxy, r: Request, status: int, natural: bool)
    requires Inv(cfg, s) && r in s.jobs && s.jobs[r] == Job(Parked, Granted, false, None, false, false)
    ensures var t := s.clock;
            var rest := [Wakes(r, t), HeadersIn(r, status, t), StreamEnds(r, natural, t)];
            && ValidRun(cfg, s, rest)
            && End(cfg, s, rest).events == s.events + [Record(r, Some(t), t, status, FinalOutcome(status, natural))]
  {
    hide Next, Inv, Possible, FinalOutcome, ValidRun, End;
    var t := s.clock;
    var e0, e1, e2 := Wakes(r, t), HeadersIn(r, status, t), StreamEnds(r, natural, t);
    GrantedWakes(cfg, s, r);
    var s1 := Next(cfg, s, e0);
    HeadersCome(cfg, s1, r, status);
    var s2 := Next(cfg, s1, e1);
    StreamRuns(cfg, s2, r, status, natural);
    StepThen(cfg, s1, e1, [e2]);
    StepThen(cfg, s, e0, [e1] + [e2]);
    assert [e0] + ([e1] + [e2]) == [e0, e1, e2];
  }

  lemma GrantedWakes(cfg: Config, s: Proxy, r: Request)
    requires Inv(cfg, s) && r in s.jobs && s.jobs[r] == Job(Parked, Granted, false, None, false, false)
    ensures Possible(s, Wakes(r, s.clock))
    ensures var s1 := Next(cfg, s, Wakes(r, s.clock));
            && Inv(cfg, s1) && s1.clock == s.clock && s1.events == s.events
            && r in s1.jobs && s1.jobs[r].phase.Sending? && s1.jobs[r].tAcquire == Some(s.clock)
  {
    StepInv(cfg, s, Wakes(r, s.clock));
    StepParts(cfg, s, Wakes(r, s.clock));
    hide Next, Inv;
    assert s.events + [] == s.events;
  }

  lemma HeadersCome(cfg: Config, s: Proxy, r: Request, status: int)
    requires Inv(cfg, s) && r in s.jobs && s.jobs[r].phase.Sending?
    ensures Possible(s, HeadersIn(r, status, s.clock))
    ensures var s1 := Next(cfg, s, HeadersIn(r, status, s.clock));
            && Inv(cfg, s1) && s1.clock == s.clock && s1.events == s.events
            && r in s1.jobs && s1.jobs[r].phase == Streaming(status) && s1.jobs[r].tAcquire == s.jobs[r].tAcquire
  {
    StepInv(cfg, s, HeadersIn(r, status, s.clock));
    StepParts(cfg, s, HeadersIn(r, status, s.clock));
    hide Next, Inv;
    assert s.events + [] == s.events;
  }

  /** The whole life of a request that finds the proxy idle, at any point of any run and in any
      configuration: one event, with the status of its headers, an upstream error if that is 400 or more,
      else a completion or an abandonment by the way its stream ends. */
  lemma ServedRuns(cfg: Config, s: Proxy, r: Request, status: int, natural: bool, t: real)
    requires Inv(cfg, s) && Idle(s) && CapsPositive(cfg) && CostFitsPool(cfg, r)
    requires Possible(s, Arrives(r, Accepted, t))
    ensures ValidRun(cfg, s, Served(r, status, natural, t))
    ensures End(cfg, s, Served(r, status, natural, t)).events ==
            s.events + [Record(r, Some(t), t, status, if status >= 400 then UpstreamError
                                                      else if natural then Completed else ClientAbandoned)]
  {
    hide Next, Inv, Possible, ValidRun, End, Idle;
    var e0, rest := Arrives(r, Accepted, t), [Wakes(r, t), HeadersIn(r, status, t), StreamEnds(r, natural, t)];
    IdleGrants(cfg, s, r, t);
    GrantedRuns(cfg, Next(cfg, s, e0), r, status, natural);
    StepThen(cfg, s, e0, rest);
    assert [e0] + rest == Served(r, status, natural, t);
  }

  const OPEN_HOUSE: Config := Config(1.0, map[], map[], map[], map[], {}, map[], 1.0, 0, 0.0, None)
  const CALL: Request := Request(0, "m", 1.0, 0, None, 0.0)

  /** A stream that stalls after a good status, the input on which a read-timeout does not count: the
      breaker, set to trip on a single error, is told of an abandonment and stays closed. */
  lemma StalledStream()
    ensures var steps := Served(CALL, 200, false, 0.0);
            && steps == [Arrives(CALL, Accepted, 0.0), Wakes(CALL, 0.0), HeadersIn(CALL, 200, 0.0),
                         StreamEnds(CALL, false, 0.0)]
            && ValidRun(OPEN_HOUSE, Boot(0.0), steps)
            && End(OPEN_HOUSE, Boot(0.0), steps).events == [Record(CALL, Some(0.0), 0.0, 200, ClientAbandoned)]
            && BreakerAfter(OPEN_HOUSE, K.Gate(1, 1.0), 0.0, steps, "m").phase.Closed?
  {
    hide ValidRun, End, BreakerAfter, Inv;
    BootInv(OPEN_HOUSE, 0.0);
    assert Boot(0.0).w.st.Waiting() == [];
    ServedRuns(OPEN_HOUSE, Boot(0.0), CALL, 200, false, 0.0);
    StalledStreamsNeverTrip(OPEN_HOUSE, K.Gate(1, 1.0), 0.0, Served(CALL, 200, false, 0.0), "m");
  }

  // ---- what it keeps away from the backend ----

  /** The verdict on an arrival of `m` that is not oversized is the breaker's. */
  predicate GateFits(g: K.Gate, b: K.Snapshot, step: Move, m: string) {
    step.Arrives? && step.r.model == m && !step.gate.Oversized? ==>
      (step.gate.Accepted? <==> K.Allowed(g, b, step.now).Pass?)
  }

  /** A run in which the breaker of `m`, in state `b` at first, guards `m`. */
  predicate Guarded(cfg: Config, g: K.Gate, b: K.Snapshot, s: Proxy, steps: seq<Move>, m: string)
    requires ValidRun(cfg, s, steps)
    decreases |steps|
  {
    |steps| == 0 ||
    (&& GateFits(g, b, steps[0], m)
     && Guarded(cfg, g, K.Run(g, b, Feeds(s, steps[0], m)), Next(cfg, s, steps[0]), steps[1..], m))
  }

  /** When requests of `m` were let in, to queue and then to reach the upstream. */
  function LetIn(steps: seq<Move>, m: string): seq<real> {
    if |steps| == 0 then []
    else (if steps[0].Arrives? && steps[0].r.model == m && steps[0].gate.Accepted? then [steps[0].now] else [])
         + LetIn(steps[1..], m)
  }

  lemma GrantsOfFeed(g: K.Gate, b: K.Snapshot, feed: seq<K.Event>, rest: seq<K.Event>)
    requires |feed| <= 1
    ensures K.Grants(g, b, feed + rest) ==
            (if feed != [] && feed[0].Ask? && K.Allowed(g, b, feed[0].at).Pass? then [feed[0].at] else [])
            + K.Grants(g, K.Run(g, b, feed), rest)
  {
    if feed == [] {
      assert feed + rest == rest;
    } else {
      assert (feed + rest)[1..] == rest && feed[1..] == [];
      assert K.Run(g, b, feed) == K.Apply(g, b, feed[0]);
    }
  }

  /** Whom the breaker lets through is let in, and nobody else is. */
  lemma {:induction false} LetInAreGrants(
    cfg: Config, g: K.Gate, b: K.Snapshot, s: Proxy, steps: seq<Move>, m: string)
    requires ValidRun(cfg, s, steps) && Guarded(cfg, g, b, s, steps, m)
    ensures LetIn(steps, m) == K.Grants(g, b, Trace(cfg, s, steps, m))
    decreases |steps|
  {
    if |steps| > 0 {
      var feed := Feeds(s, steps[0], m);
      FeedShape(s, steps[0], m);
      hide Next, Emitted, Possible, K.Run, K.Grants;
      LetInAreGrants(cfg, g, K.Run(g, b, feed), Next(cfg, s, steps[0]), steps[1..], m);
      GrantsOfFeed(g, b, feed, Trace(cfg, Next(cfg, s, steps[0]), steps[1..], m));
    }
  }

  /** What tripping is for: from a trip until the breaker next closes, whatever the clients send and
      however the attempts end, the k-th request of `m` is let in no earlier than k cooldowns after the trip. */
  lemma ShieldsTheBackend(
    cfg: Config, g: K.Gate, clock: real, history: seq<Move>, steps: seq<Move>, m: string)
    requires g.Sound() && ValidRun(cfg, Boot(clock), history) && ValidRun(cfg, End(cfg, Boot(clock), history), steps)
    requires var s, b := End(cfg, Boot(clock), history), BreakerAfter(cfg, g, clock, history, m);
             && b.phase.Open? && Guarded(cfg, g, b, s, steps, m)
             && K.NeverCloses(g, b, Trace(cfg, s, steps, m))
    ensures var b, times := BreakerAfter(cfg, g, clock, history, m), LetIn(steps, m);
            forall k :: 0 <= k < |times| ==> times[k] >= b.openedAt + K.Cooldowns(g, k + 1)
  {
    var s, b := End(cfg, Boot(clock), history), BreakerAfter(cfg, g, clock, history, m);
    BreakerFollowsLog(cfg, g, clock, history, m);
    BootInv(cfg, clock);
    EveryRunKeeps(cfg, Boot(clock), history);
    ToldTheAttempts(cfg, s, steps, m);
    LetInAreGrants(cfg, g, b, s, steps, m);
    hide Inv, ValidRun, End, Trace, Guarded, K.NeverCloses, K.Grants, K.Cooldowns, Attempts;
    K.ProbeRate(g, Trace(cfg, Boot(clock), history, m), Trace(cfg, s, steps, m), b.openedAt);
  }
}
