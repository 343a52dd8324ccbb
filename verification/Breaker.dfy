/** The circuit breaker of one model as a timed state machine, with the clock as an input, and its
    properties over unbounded traces. */
module BreakerModel {
  const COMPLETED: string := "completed"
  const UPSTREAM_ERROR: string := "upstream_error"

  datatype Phase = Closed | Open | HalfOpen

  /** Validated configuration: errors in a row that trip the breaker, and its cooldown. */
  datatype Gate = Gate(fails: int, cooldown: real) {
    predicate Sound() { fails > 0 && cooldown > 0.0 }
  }

  datatype Snapshot = Snapshot(phase: Phase, consecutiveFails: int, openedAt: real,
                               probeInFlight: bool, probeStarted: real)

  const FRESH: Snapshot := Snapshot(Closed, 0, 0.0, false, 0.0)

  /** `Pass` lets the request through, `Block` names the phase that stopped it. */
  datatype Answer = Pass | Block(phase: Phase)

  function Allowed(g: Gate, s: Snapshot, now: real): Answer {
    if s.phase.Closed? then Pass
    else if s.phase.Open? then if now >= s.openedAt + g.cooldown then Pass else Block(Open)
    else if s.probeInFlight && now - s.probeStarted < g.cooldown then Block(HalfOpen)
    else Pass
  }

  function AfterAllow(g: Gate, s: Snapshot, now: real): Snapshot {
    if s.phase.Closed? || Allowed(g, s, now).Block? then s
    else s.(phase := HalfOpen, probeInFlight := true, probeStarted := now)
  }

  predicate Counts(outcome: string) { outcome == COMPLETED || outcome == UPSTREAM_ERROR }

  function AfterRecord(g: Gate, s: Snapshot, outcome: string, now: real): Snapshot {
    if !Counts(outcome) || s.phase.Open? then s
    else if s.phase.HalfOpen? then
      if outcome == COMPLETED then s.(phase := Closed, consecutiveFails := 0, probeInFlight := false)
      else s.(phase := Open, openedAt := now, probeInFlight := false)
    else if outcome == COMPLETED then s.(consecutiveFails := 0)
    else
      var n := s.consecutiveFails + 1;
      if n >= g.fails then s.(consecutiveFails := n, phase := Open, openedAt := now)
      else s.(consecutiveFails := n)
  }

  /** The least integer not below `x`. */
  function Ceil(x: real): (c: int)
    ensures c as real - 1.0 < x <= c as real
  {
    -((-x).Floor)
  }

  function RetryAfter(g: Gate, s: Snapshot, now: real): int {
    if !s.phase.Open? then 0
    else
      var c := Ceil(s.openedAt + g.cooldown - now);
      if c > 0 then c else 0
  }

  // ---- traces ----

  datatype Event = Ask(at: real) | Report(outcome: string, at: real)

  function Apply(g: Gate, s: Snapshot, e: Event): Snapshot {
    match e
    case Ask(at) => AfterAllow(g, s, at)
    case Report(o, at) => AfterRecord(g, s, o, at)
  }

  function Run(g: Gate, s: Snapshot, trace: seq<Event>): Snapshot
    decreases trace
  {
    if |trace| == 0 then s else Run(g, Apply(g, s, trace[0]), trace[1..])
  }

  /** The times at which the trace's requests were let through. */
  function Grants(g: Gate, s: Snapshot, trace: seq<Event>): seq<real>
    decreases trace
  {
    if |trace| == 0 then []
    else
      (if trace[0].Ask? && Allowed(g, s, trace[0].at).Pass? then [trace[0].at] else [])
      + Grants(g, Apply(g, s, trace[0]), trace[1..])
  }

  /** A nondecreasing clock that starts no earlier than `t`. */
  predicate Clocked(t: real, trace: seq<Event>)
    decreases trace
  {
    |trace| == 0 || (t <= trace[0].at && Clocked(trace[0].at, trace[1..]))
  }

  function LastTime(t: real, trace: seq<Event>): real {
    if |trace| == 0 then t else trace[|trace| - 1].at
  }

  function Outcomes(trace: seq<Event>): seq<string> {
    if |trace| == 0 then []
    else Outcomes(trace[..|trace| - 1]) +
         if trace[|trace| - 1].Report? then [trace[|trace| - 1].outcome] else []
  }

  /** Upstream errors since the last completion; neutral outcomes are skipped. */
  function TrailingErrors(outcomes: seq<string>): nat {
    if |outcomes| == 0 then 0
    else
      var o, before := outcomes[|outcomes| - 1], outcomes[..|outcomes| - 1];
      if o == UPSTREAM_ERROR then TrailingErrors(before) + 1
      else if o == COMPLETED then 0
      else TrailingErrors(before)
  }

  lemma {:induction false} RunOneMore(g: Gate, s: Snapshot, trace: seq<Event>, e: Event)
    ensures Run(g, s, trace + [e]) == Apply(g, Run(g, s, trace), e)
    decreases trace
  {
    if |trace| == 0 {
      assert trace + [e] == [e];
    } else {
      RunOneMore(g, Apply(g, s, trace[0]), trace[1..], e);
      assert (trace + [e])[1..] == trace[1..] + [e];
    }
  }

  // ---- the state and its history ----

  /** What holds of a breaker's state at time `t` after outcomes with `errors` trailing errors. */
  predicate Reachable(g: Gate, s: Snapshot, t: real, errors: nat) {
    && (s.probeInFlight <==> s.phase.HalfOpen?)
    && (if s.phase.Closed? then s.consecutiveFails == errors < g.fails else s.consecutiveFails == g.fails)
    && (s.phase.Open? ==> s.openedAt <= t)
    && (s.phase.HalfOpen? ==> s.probeStarted <= t)
  }

  /** The trailing errors once `e` is reported too. */
  function ErrorsAfter(errors: nat, e: Event): nat {
    if e.Ask? then errors
    else if e.outcome == UPSTREAM_ERROR then errors + 1
    else if e.outcome == COMPLETED then 0 else errors
  }

  lemma AskKeepsReachable(g: Gate, s: Snapshot, t: real, errors: nat, at: real)
    requires Reachable(g, s, t, errors) && t <= at
    ensures Reachable(g, AfterAllow(g, s, at), at, errors)
  {}

  lemma ReportKeepsReachable(g: Gate, s: Snapshot, t: real, errors: nat, outcome: string, at: real)
    requires g.Sound() && Reachable(g, s, t, errors) && t <= at
    ensures Reachable(g, AfterRecord(g, s, outcome, at), at, ErrorsAfter(errors, Report(outcome, at)))
  {}

  lemma EventKeepsReachable(g: Gate, s: Snapshot, t: real, errors: nat, e: Event)
    requires g.Sound() && Reachable(g, s, t, errors) && t <= e.at
    ensures Reachable(g, Apply(g, s, e), e.at, ErrorsAfter(errors, e))
  {
    match e
    case Ask(at) => AskKeepsReachable(g, s, t, errors, at);
    case Report(o, at) => ReportKeepsReachable(g, s, t, errors, o, at);
  }

  /** From a fresh start, whatever is asked and reported: a probe is in flight exactly in half-open,
      and while the breaker is closed its counter is the length of the trailing run of upstream
      errors in everything reported so far, and is below the trip limit. */
  lemma {:induction false} StateFollowsHistory(g: Gate, trace: seq<Event>, t0: real)
    requires g.Sound() && Clocked(t0, trace)
    ensures Reachable(g, Run(g, FRESH, trace), LastTime(t0, trace), TrailingErrors(Outcomes(trace)))
  {
    if |trace| > 0 {
      hide Reachable, Apply;
      var init, e := trace[..|trace| - 1], trace[|trace| - 1];
      assert trace == init + [e];
      ClockedPrefix(t0, init, e);
      StateFollowsHistory(g, init, t0);
      RunOneMore(g, FRESH, init, e);
      ReportedLast(init, e);
      EventKeepsReachable(g, Run(g, FRESH, init), LastTime(t0, init), TrailingErrors(Outcomes(init)), e);
    }
  }

  lemma ReportedLast(init: seq<Event>, e: Event)
    ensures TrailingErrors(Outcomes(init + [e])) == ErrorsAfter(TrailingErrors(Outcomes(init)), e)
  {
    assert (init + [e])[..|init|] == init;
    if e.Report? {
      assert (Outcomes(init) + [e.outcome])[..|Outcomes(init)|] == Outcomes(init);
    } else {
      assert Outcomes(init) + [] == Outcomes(init);
    }
  }

  lemma {:induction false} ClockedPrefix(t: real, init: seq<Event>, e: Event)
    requires Clocked(t, init + [e])
    ensures Clocked(t, init) && LastTime(t, init) <= e.at
    decreases init
  {
    if |init| > 0 {
      assert (init + [e])[1..] == init[1..] + [e];
      ClockedPrefix(init[0].at, init[1..], e);
    }
  }

  /** A closed breaker trips on an event exactly when it completes a run of `fails` errors. */
  lemma TripsExactly(g: Gate, trace: seq<Event>, t0: real, e: Event)
    requires g.Sound() && Clocked(t0, trace) && Run(g, FRESH, trace).phase.Closed?
    ensures Run(g, FRESH, trace + [e]).phase.Open? <==> TrailingErrors(Outcomes(trace + [e])) == g.fails
    ensures !Run(g, FRESH, trace + [e]).phase.HalfOpen?
  {
    StateFollowsHistory(g, trace, t0);
    RunOneMore(g, FRESH, trace, e);
    ReportedLast(trace, e);
  }

  // ---- probe rate ----

  /** When the current cooldown began: at the trip, or when the probe in flight was let through. */
  function Anchor(s: Snapshot): real {
    if s.phase.Open? then s.openedAt else s.probeStarted
  }

  predicate Gated(s: Snapshot) {
    s.phase.Open? || (s.phase.HalfOpen? && s.probeInFlight)
  }

  predicate NeverCloses(g: Gate, s: Snapshot, trace: seq<Event>)
    decreases trace
  {
    && !s.phase.Closed?
    && (|trace| == 0 || NeverCloses(g, Apply(g, s, trace[0]), trace[1..]))
  }

  /** `k` cooldowns. */
  function Cooldowns(g: Gate, k: nat): real { k as real * g.cooldown }

  lemma OneCooldownMore(g: Gate, k: nat)
    ensures Cooldowns(g, k + 1) == Cooldowns(g, k) + g.cooldown && Cooldowns(g, 0) == 0.0
  {}

  lemma {:induction false} GrantsAreSpaced(g: Gate, s: Snapshot, trace: seq<Event>, t: real)
    requires g.Sound() && Gated(s) && Anchor(s) <= t && Clocked(t, trace) && NeverCloses(g, s, trace)
    ensures forall k :: 0 <= k < |Grants(g, s, trace)| ==>
              Grants(g, s, trace)[k] >= Anchor(s) + Cooldowns(g, k + 1)
    decreases trace
  {
    if |trace| > 0 {
      var e := trace[0];
      var s' := Apply(g, s, e);
      assert Gated(s') && Anchor(s) <= Anchor(s') <= e.at;
      GrantsAreSpaced(g, s', trace[1..], e.at);
      var later := Grants(g, s', trace[1..]);
      forall k | 0 <= k < |Grants(g, s, trace)|
        ensures Grants(g, s, trace)[k] >= Anchor(s) + Cooldowns(g, k + 1)
      {
        OneCooldownMore(g, k);
        if e.Ask? && Allowed(g, s, e.at).Pass? {
          assert Grants(g, s, trace) == [e.at] + later;
          assert k > 0 ==> Grants(g, s, trace)[k] == later[k - 1];
        } else {
          assert Grants(g, s, trace) == later;
        }
      }
    }
  }

  /** From a trip at `t0` until the breaker next closes, the k-th request let through comes no
      earlier than k cooldowns after the trip, whatever is asked and reported meanwhile. */
  lemma ProbeRate(g: Gate, history: seq<Event>, trace: seq<Event>, t0: real)
    requires g.Sound() && Run(g, FRESH, history).phase.Open? && Run(g, FRESH, history).openedAt == t0
    requires Clocked(t0, trace) && NeverCloses(g, Run(g, FRESH, history), trace)
    ensures var grants := Grants(g, Run(g, FRESH, history), trace);
            forall k :: 0 <= k < |grants| ==> grants[k] >= t0 + Cooldowns(g, k + 1)
  {
    GrantsAreSpaced(g, Run(g, FRESH, history), trace, t0);
  }

  // ---- recovery ----

  predicate OnlyAsks(trace: seq<Event>) {
    forall i :: 0 <= i < |trace| ==> trace[i].Ask?
  }

  lemma {:induction false} BlockedAsksChangeNothing(g: Gate, s: Snapshot, asks: seq<Event>)
    requires OnlyAsks(asks) && Grants(g, s, asks) == []
    ensures Run(g, s, asks) == s
    decreases asks
  {
    if |asks| > 0 {
      BlockedAsksChangeNothing(g, s, asks[1..]);
    }
  }

  /** The breaker never stays shut: once a cooldown has passed without a report, the next request is
      let through, unless one was let through since the last report. */
  lemma Recovers(g: Gate, trace: seq<Event>, t0: real, asks: seq<Event>, now: real)
    requires g.Sound() && Clocked(t0, trace) && OnlyAsks(asks)
    requires now >= LastTime(t0, trace) + g.cooldown
    ensures Grants(g, Run(g, FRESH, trace), asks) != [] || Allowed(g, Run(g, FRESH, trace + asks), now).Pass?
  {
    if Grants(g, Run(g, FRESH, trace), asks) == [] {
      StateFollowsHistory(g, trace, t0);
      RunAppend(g, FRESH, trace, asks);
      BlockedAsksChangeNothing(g, Run(g, FRESH, trace), asks);
    }
  }

  lemma {:induction false} RunAppend(g: Gate, s: Snapshot, x: seq<Event>, y: seq<Event>)
    ensures Run(g, s, x + y) == Run(g, Run(g, s, x), y)
    decreases x
  {
    if |x| == 0 {
      assert x + y == y;
    } else {
      RunAppend(g, Apply(g, s, x[0]), x[1..], y);
      assert (x + y)[1..] == x[1..] + y;
    }
  }

  // ---- Retry-After ----

  /** A caller blocked by an open breaker at `t` that comes back at `now`, after the advertised wait,
      is let through if nobody was let through in between; coming back more than a second before the
      advertised wait is over, it is blocked. Late reports in between change nothing. */
  lemma RetryAfterIsTight(g: Gate, s: Snapshot, t: real, between: seq<Event>, now: real)
    requires s.phase.Open? && Grants(g, s, between) == []
    ensures var r := RetryAfter(g, s, t) as real;
            && (now >= t + r ==> Allowed(g, Run(g, s, between), now).Pass?)
            && (t <= now < t + r - 1.0 ==> Allowed(g, Run(g, s, between), now) == Block(Open))
  {}

  /** A wait is advertised exactly while the open phase turns requests away; otherwise it is zero. */
  lemma RetryAfterWhenOpen(g: Gate, s: Snapshot, t: real)
    ensures RetryAfter(g, s, t) > 0 <==> Allowed(g, s, t) == Block(Open)
    ensures RetryAfter(g, s, t) >= 0
  {}

  predicate Quiet(trace: seq<Event>) {
    forall i :: 0 <= i < |trace| ==> trace[i].Report? ==> !Counts(trace[i].outcome)
  }

  /** Outcomes that do not count never move a closed breaker, however many there are: an upstream that
      answers with a good status and then stalls every stream is reported only as abandoned. */
  lemma {:induction false} NeutralOutcomesNeverTrip(g: Gate, s: Snapshot, trace: seq<Event>)
    requires s.phase.Closed? && Quiet(trace)
    ensures Run(g, s, trace) == s
    decreases trace
  {
    if |trace| > 0 {
      assert Apply(g, s, trace[0]) == s;
      NeutralOutcomesNeverTrip(g, s, trace[1..]);
    }
  }

  /** The last request let through, if any. */
  function LastGrant(g: Gate, s: Snapshot, trace: seq<Event>): (p: real)
    requires Grants(g, s, trace) != []
  {
    Grants(g, s, trace)[|Grants(g, s, trace)| - 1]
  }

  lemma {:induction false} ProbeIsLastGrant(g: Gate, s: Snapshot, trace: seq<Event>)
    requires Gated(s) && Quiet(trace)
    ensures Gated(Run(g, s, trace))
    ensures Grants(g, s, trace) == [] ==> Run(g, s, trace) == s
    ensures Grants(g, s, trace) != [] ==>
              Run(g, s, trace).phase.HalfOpen? && Run(g, s, trace).probeStarted == LastGrant(g, s, trace)
    decreases trace
  {
    if |trace| > 0 {
      var s' := Apply(g, s, trace[0]);
      assert Gated(s');
      ProbeIsLastGrant(g, s', trace[1..]);
      if trace[0].Ask? && Allowed(g, s, trace[0].at).Pass? {
        assert Grants(g, s, trace) == [trace[0].at] + Grants(g, s', trace[1..]);
      } else {
        assert s' == s && Grants(g, s, trace) == Grants(g, s', trace[1..]);
      }
    }
  }

  /** The number of events up to and including the last outcome that counts; what follows is quiet. */
  function LastCounted(trace: seq<Event>): (i: nat)
    ensures i <= |trace| && Quiet(trace[i..])
    ensures i > 0 ==> trace[i - 1].Report? && Counts(trace[i - 1].outcome)
  {
    if |trace| == 0 then 0
    else
      var init, last := trace[..|trace| - 1], trace[|trace| - 1];
      if last.Report? && Counts(last.outcome) then |trace|
      else
        var i := LastCounted(init);
        assert trace[i..] == init[i..] + [last];
        i
  }

  /** Once the last counted outcome of `between` is in, an open breaker is open or closed again: a
      probe that it was waiting for has reported, or its report came late. */
  lemma SettledByCounted(g: Gate, s: Snapshot, between: seq<Event>)
    requires s.phase.Open?
    ensures !Run(g, s, between[..LastCounted(between)]).phase.HalfOpen?
  {
    var i := LastCounted(between);
    if i > 0 {
      assert between[..i] == between[..i - 1] + [between[i - 1]];
      RunOneMore(g, s, between[..i - 1], between[i - 1]);
    } else {
      assert between[..i] == [];
    }
  }

  /** Exactly when a caller blocked by an open breaker is let through when it is back at `now`, having
      waited as advertised or not, whatever was asked and reported in between. What decides is the
      state `s'` after the last counted outcome and the requests let through since: `s'` closed, or a
      full cooldown since the last one let through, or, with nobody let through, since `s'` opened. */
  lemma RetryAfterExactly(g: Gate, s: Snapshot, between: seq<Event>, now: real)
    requires s.phase.Open?
    ensures var i := LastCounted(between);
            var s', since := Run(g, s, between[..i]), between[i..];
            && !s'.phase.HalfOpen?
            && (Allowed(g, Run(g, s, between), now).Pass? <==>
                || s'.phase.Closed?
                || (if Grants(g, s', since) == [] then now >= s'.openedAt + g.cooldown
                    else now - LastGrant(g, s', since) >= g.cooldown))
  {
    var i := LastCounted(between);
    var s', since := Run(g, s, between[..i]), between[i..];
    assert between == between[..i] + since;
    RunAppend(g, s, between[..i], since);
    SettledByCounted(g, s, between);
    if s'.phase.Closed? {
      NeutralOutcomesNeverTrip(g, s', since);
    } else {
      ProbeIsLastGrant(g, s', since);
    }
  }

  /** The advertised wait, given at `t`, keeps its promise as long as no counted outcome comes in,
      unless somebody else was let through less than a cooldown before the caller is back. */
  lemma RetryAfterWhileQuiet(g: Gate, s: Snapshot, t: real, between: seq<Event>, now: real)
    requires s.phase.Open? && Quiet(between) && now >= t + RetryAfter(g, s, t) as real
    ensures Allowed(g, Run(g, s, between), now).Pass? <==>
            (Grants(g, s, between) != [] ==> now - LastGrant(g, s, between) >= g.cooldown)
  {
    ProbeIsLastGrant(g, s, between);
  }

  /** The breaker of the two inputs below: one error trips it at 0 and its cooldown is 1.5 s. */
  const TRIPPED: Snapshot := Apply(Gate(1, 1.5), FRESH, Report(UPSTREAM_ERROR, 0.0))

  /** The promise does fail: a caller told at 0 to wait 2 s is blocked at 2 s when another request took
      the probe at 1.5 s. */
  lemma RetryAfterCanFail()
    ensures var g := Gate(1, 1.5);
            && TRIPPED.phase.Open? && RetryAfter(g, TRIPPED, 0.0) == 2
            && Allowed(g, Run(g, TRIPPED, [Ask(1.5)]), 2.0) == Block(HalfOpen)
  {
    assert Run(Gate(1, 1.5), TRIPPED, [Ask(1.5)]) == AfterAllow(Gate(1, 1.5), TRIPPED, 1.5);
  }

  /** A probe that reports back decides by itself. One that fails at 3.2 s opens the breaker again, and
      a cooldown after it was let through the caller is still blocked; one that completes at 1.6 s
      closes it, and the caller is let through within a cooldown of that grant. */
  lemma ProbeReportDecides()
    ensures var g := Gate(1, 1.5);
            var reopened, closed :=
              [Ask(1.5), Report(UPSTREAM_ERROR, 3.2)], [Ask(1.5), Report(COMPLETED, 1.6)];
            && Grants(g, TRIPPED, reopened) == Grants(g, TRIPPED, closed) == [1.5]
            && Allowed(g, Run(g, TRIPPED, reopened), 3.5) == Block(Open)
            && Allowed(g, Run(g, TRIPPED, closed), 2.0) == Pass
  {
    var g := Gate(1, 1.5);
    ProbeAndReport(g, TRIPPED, 1.5, UPSTREAM_ERROR, 3.2);
    ProbeAndReport(g, TRIPPED, 1.5, COMPLETED, 1.6);
  }

  lemma ProbeAndReport(g: Gate, s: Snapshot, probe: real, outcome: string, at: real)
    requires s.phase.Open? && probe >= s.openedAt + g.cooldown
    ensures var trace := [Ask(probe), Report(outcome, at)];
            && Run(g, s, trace) == AfterRecord(g, AfterAllow(g, s, probe), outcome, at)
            && Grants(g, s, trace) == [probe]
  {
    var trace := [Ask(probe), Report(outcome, at)];
    var s' := AfterAllow(g, s, probe);
    assert trace[1..] == [Report(outcome, at)];
    assert Run(g, s', [Report(outcome, at)]) == AfterRecord(g, s', outcome, at);
    assert Grants(g, s', [Report(outcome, at)]) == [];
  }
}

/** The breaker object: per-model states, created on first touch and updated in place. */
module CircuitBreaker {
  import opened BreakerModel

  /** A configuration value as it was parsed. */
  datatype Field = Missing | Whole(i: int) | Fraction(x: real) | Flag(b: bool) | Unusable

  datatype Spec = NotAMapping | Spec(fails: Field, cooldown: Field) {
    /** The gate this entry asks for, if both values are positive numbers. */
    function Parsed(): (g: Gate)
      requires WellFormed()
      ensures g.Sound()
    {
      Gate(fails.i, if cooldown.Whole? then cooldown.i as real else cooldown.x)
    }

    predicate WellFormed() {
      && Spec? && fails.Whole? && fails.i > 0
      && ((cooldown.Whole? && cooldown.i > 0) || (cooldown.Fraction? && cooldown.x > 0.0))
    }
  }

  class ModelState {
    var phase: Phase
    var consecutiveFails: int
    var openedAt: real
    var probeInFlight: bool
    var probeStarted: real

    constructor ()
      ensures Snap() == FRESH
    {
      phase, consecutiveFails, openedAt, probeInFlight, probeStarted := Closed, 0, 0.0, false, 0.0;
    }

    function Snap(): Snapshot
      reads this
    {
      Snapshot(phase, consecutiveFails, openedAt, probeInFlight, probeStarted)
    }
  }

  class Breaker {
    var config: map<string, Gate>
    var states: map<string, ModelState>

    ghost predicate Valid()
      reads this
    {
      && (forall m :: m in config ==> config[m].Sound())
      && (forall m, n :: m in states && n in states && states[m] == states[n] ==> m == n)
    }

    /** What the breaker knows about `model`; an untouched model is in its initial state. */
    function View(model: string): Snapshot
      reads this, states.Values
    {
      if model in states then states[model].Snap() else FRESH
    }

    /** Only well-formed entries gate their model. */
    constructor (specs: map<string, Spec>)
      ensures Valid() && states == map[]
      ensures forall m :: m in config <==>
                && m in specs && specs[m].Spec? && specs[m].fails.Whole? && specs[m].fails.i > 0
                && (match specs[m].cooldown case Whole(i) => i > 0 case Fraction(x) => x > 0.0 case _ => false)
      ensures forall m :: m in config ==>
                && specs[m].Spec? && specs[m].fails == Whole(config[m].fails) && config[m].fails > 0
                && (specs[m].cooldown == Fraction(config[m].cooldown)
                    || exists i :: specs[m].cooldown == Whole(i) && config[m].cooldown == i as real)
                && config[m].cooldown > 0.0
    {
      config, states := map[], map[];
      new;
      var todo := specs.Keys;
      while todo != {}
        invariant todo <= specs.Keys && states == map[]
        invariant config.Keys == set m | m in specs && m !in todo && specs[m].WellFormed()
        invariant forall m :: m in config ==> config[m] == specs[m].Parsed()
        decreases todo
      {
        var m :| m in todo;
        if specs[m].WellFormed() {
          config := config[m := specs[m].Parsed()];
        }
        todo := todo - {m};
      }
    }

    /** The state object of `model`, created on first touch. */
    method Touch(model: string) returns (st: ModelState)
      requires Valid()
      modifies this`states
      ensures Valid() && model in states && st == states[model]
      ensures forall m :: m in old(states) ==> m in states && states[m] == old(states[m])
      ensures fresh(states.Values - old(states.Values))
      ensures forall m :: View(m) == old(View(m))
    {
      if model !in states {
        var new' := new ModelState();
        states := states[model := new'];
      }
      st := states[model];
    }

    method Allow(model: string, now: real) returns (answer: Answer)
      requires Valid()
      modifies this`states, states.Values
      ensures Valid() && fresh(states.Values - old(states.Values))
      ensures answer == if model in config then Allowed(config[model], old(View(model)), now) else Pass
      ensures model in config ==> View(model) == AfterAllow(config[model], old(View(model)), now)
      ensures forall m :: m != model || m !in config ==> View(m) == old(View(m))
    {
      if model !in config {
        return Pass;
      }
      var cfg := config[model];
      var st := Touch(model);
      if st.phase.Closed? {
        return Pass;
      }
      if st.phase.Open? {
        if now >= st.openedAt + cfg.cooldown {
          st.phase := HalfOpen;
          st.probeInFlight := true;
          st.probeStarted := now;
          return Pass;
        }
        return Block(Open);
      }
      if st.probeInFlight && now - st.probeStarted < cfg.cooldown {
        return Block(HalfOpen);
      }
      st.probeInFlight := true;
      st.probeStarted := now;
      return Pass;
    }

    method Record(model: string, outcome: string, now: real)
      requires Valid()
      modifies this`states, states.Values
      ensures Valid() && fresh(states.Values - old(states.Values))
      ensures model in config ==> View(model) == AfterRecord(config[model], old(View(model)), outcome, now)
      ensures forall m :: m != model || m !in config ==> View(m) == old(View(m))
    {
      if model !in config {
        return;
      }
      var cfg := config[model];
      var success: bool;
      if outcome == COMPLETED {
        success := true;
      } else if outcome == UPSTREAM_ERROR {
        success := false;
      } else {
        return;
      }
      var st := Touch(model);
      if st.phase.HalfOpen? {
        st.probeInFlight := false;
        if success {
          st.phase := Closed;
          st.consecutiveFails := 0;
        } else {
          st.phase := Open;
          st.openedAt := now;
        }
        return;
      }
      if st.phase.Open? {
        return;
      }
      if success {
        st.consecutiveFails := 0;
      } else {
        st.consecutiveFails := st.consecutiveFails + 1;
        if st.consecutiveFails >= cfg.fails {
          st.phase := Open;
          st.openedAt := now;
        }
      }
    }

    method State(model: string) returns (phase: Phase)
      requires Valid()
      modifies this`states
      ensures Valid() && fresh(states.Values - old(states.Values))
      ensures phase == if model in config then old(View(model)).phase else Closed
      ensures forall m :: View(m) == old(View(m))
    {
      if model !in config {
        return Closed;
      }
      var st := Touch(model);
      return st.phase;
    }

    method RetryAfterSeconds(model: string, now: real) returns (seconds: int)
      requires Valid()
      modifies this`states
      ensures Valid() && fresh(states.Values - old(states.Values))
      ensures seconds == if model in config then RetryAfter(config[model], old(View(model)), now) else 0
      ensures forall m :: View(m) == old(View(m))
    {
      if model !in config {
        return 0;
      }
      var cfg := config[model];
      var st := Touch(model);
      if !st.phase.Open? {
        return 0;
      }
      var remaining := st.openedAt + cfg.cooldown - now;
      seconds := Ceil(remaining);
      if seconds < 0 {
        seconds := 0;
      }
    }
  }
}
