/** What the inert-protection warning is worth: in a pool it names as unbounded, the budget never
    stands in anybody's way in any state the scheduler can reach. */
module SelfProtection {
  import opened Extrema
  import opened Options
  import opened StableSort
  import opened SetSums
  import opened SchedulerModel
  import opened SchedulerPump
  import opened SchedulerRuns
  import opened SchedulerProgress
  import opened ProxyConfig

  // ---- every request in the system has arrived ----

  ghost predicate AllOf(w: World, p: Request -> bool) {
    (forall r :: r in w.st.Waiting() ==> p(r)) && (forall r :: r in w.running ==> p(r))
  }

  lemma PassMembers(cfg: Config, st: State, now: real)
    requires Orderly(st)
    ensures var pass := OnePass(cfg, st, now);
            && (forall r :: r in pass.st.Waiting() ==> r in st.Waiting())
            && (pass.Admits? ==> pass.admission.req in st.Waiting())
  {
    var s1 := Reserve(cfg, st, now);
    ReserveKeepsWaiting(cfg, st, now);
    RecordKeeps(cfg, s1);
    match FirstFit(cfg, s1, now)
    case None =>
    case Some(r) =>
      WithoutReqs(s1.queue, r);
      FilterMembers(s1.Waiting(), Except(r));
      assert Admit(cfg, s1, r).Waiting() == Filter(s1.Waiting(), Except(r));
  }

  lemma {:induction false} PumpMembers(cfg: Config, st: State, now: real)
    requires Orderly(st)
    ensures forall r :: r in Pump(cfg, st, now).0.Waiting() ==> r in st.Waiting()
    ensures forall r :: r in Admitted(Pump(cfg, st, now).1) ==> r in st.Waiting()
    decreases |st.queue|
  {
    PassMembers(cfg, st, now);
    PassKeepsOrderly(cfg, st, now);
    AdmittedNone([]);
    hide OnePass, Orderly, Admitted;
    match OnePass(cfg, st, now)
    case Idle(_) =>
    case Admits(s, a) =>
      PumpMembers(cfg, s, now);
      AdmittedMembers(a, Pump(cfg, s, now).1);
  }

  lemma AdmittedMembers(a: Admission, rest: seq<Admission>)
    ensures forall r :: r in Admitted([a] + rest) <==> r == a.req || r in Admitted(rest)
  {
    assert Admitted([a] + rest) == [a.req] + Admitted(rest);
  }

  lemma StepMembers(cfg: Config, w: World, e: Event, p: Request -> bool)
    requires Good(cfg, w) && Enabled(w, e) && AllOf(w, p) && (e.Arrive? ==> p(e.r))
    ensures AllOf(Step(cfg, w, e).0, p)
  {
    StepIsPump(cfg, w, e);
    PrepareSafe(cfg, w, e);
    FilterMembers(w.running, Except(e.r));
    match Prepare(cfg, w, e)
    case None =>
      assert Admitted([]) == [];
    case Some(st) =>
      PrepareMembers(cfg, w, e, p);
      PumpMembers(cfg, st, e.now);
  }

  lemma PrepareMembers(cfg: Config, w: World, e: Event, p: Request -> bool)
    requires Good(cfg, w) && AllOf(w, p) && (e.Arrive? ==> p(e.r)) && Prepare(cfg, w, e).Some?
    ensures forall r :: r in Prepare(cfg, w, e).value.Waiting() ==> p(r)
  {
    ReqsAppend(w.st.queue, Fresh(e.r));
    WithoutReqs(w.st.queue, e.r);
    FilterMembers(w.st.Waiting(), Except(e.r));
  }

  /** What holds of everything that arrives holds of everything queued or running. */
  lemma {:induction false} RunMembers(cfg: Config, w: World, evs: seq<Event>, p: Request -> bool)
    requires Good(cfg, w) && Valid(cfg, w, evs) && AllOf(w, p)
    requires forall e :: e in evs && e.Arrive? ==> p(e.r)
    ensures AllOf(After(cfg, w, evs), p)
    decreases |evs|
  {
    hide Good, Step, Enabled, AllOf;
    if |evs| > 0 {
      assert evs[0] in evs;
      StepMembers(cfg, w, evs[0], p);
      StepGood(cfg, w, evs[0]);
      RunMembers(cfg, Step(cfg, w, evs[0]).0, evs[1..], p);
    }
  }

  // ---- committed cost ----

  /** A request for a configured model, charged at a weight from the tier table. */
  ghost predicate Configured(cfg: Config, tiers: seq<Tier>, r: Request) {
    && r.model in cfg.caps.Keys + cfg.costs.Keys + cfg.poolOf.Keys
    && exists weight :: FromTiers(tiers, weight) && r.cost == cfg.WeightedCost(r.model, weight)
  }

  ghost function ConfiguredIn(cfg: Config, tiers: seq<Tier>, p: string): Request -> bool {
    (r: Request) => cfg.Pool(r.model) == p ==> Configured(cfg, tiers, r)
  }

  /** The tier parser only lets multipliers of at least one through; cost overrides are positive. */
  ghost predicate Sane(cfg: Config, tiers: seq<Tier>) {
    && (forall t :: t in tiers ==> t.multiplier >= 1.0)
    && (forall m :: m in cfg.costs ==> cfg.costs[m] > 0.0)
  }

  /** The most one run of `m` is charged: its cost at the heaviest weight, after the clamp. */
  function Unit(cfg: Config, tiers: seq<Tier>, m: string): real {
    cfg.WeightedCost(m, MaxMultiplier(tiers))
  }

  function Times(n: int, u: real): real { n as real * u }

  lemma TimesFacts(n: int, k: int, u: real)
    requires u >= 0.0 && n <= k
    ensures Times(n, u) <= Times(k, u)
    ensures Times(n + 1, u) == Times(n, u) + u
    ensures Times(0, u) == 0.0
  {
    assert (k - n) as real * u >= 0.0;
    assert k as real * u == n as real * u + (k - n) as real * u;
  }

  lemma WeightInRange(tiers: seq<Tier>, w: real)
    requires (forall t :: t in tiers ==> t.multiplier >= 1.0) && FromTiers(tiers, w)
    ensures 1.0 <= w <= MaxMultiplier(tiers)
  {
    MaxMultiplierBounds(tiers, w);
    if tiers != [] {
      var k :| 0 <= k < |tiers| && w == tiers[k].multiplier;
      assert tiers[k] in tiers;
    }
  }

  lemma ProductGrows(a: real, w: real, u: real)
    requires a >= 0.0 && w <= u
    ensures a * w <= a * u
  {
    assert a * (u - w) >= 0.0;
    assert a * u == a * w + a * (u - w);
  }

  /** The charge for a weighted cost of `x`, after the clamp. */
  function Clamp(cfg: Config, m: string, x: real): real {
    var b, p := cfg.Budget(cfg.Pool(m)), cfg.Pool(m);
    var mode := if p in cfg.poolHeavyMax then cfg.poolHeavyMax[p] else LeaveRoom;
    Max(cfg.Cost(m), Min(x, if mode == FullPool then b - EPS else b - cfg.Cost(m)))
  }

  lemma ClampGrows(cfg: Config, m: string, x: real, y: real)
    requires x <= y
    ensures cfg.Cost(m) <= Clamp(cfg, m, x) <= Clamp(cfg, m, y)
  {}

  lemma WeightedIsClamped(cfg: Config, m: string, w: real)
    requires w > 1.0
    ensures cfg.WeightedCost(m, w) == Clamp(cfg, m, cfg.Cost(m) * w)
  {}

  /** A heavier weight is charged no less. */
  lemma WeightedGrows(cfg: Config, m: string, w: real, u: real)
    requires cfg.Cost(m) >= 0.0 && 1.0 <= w <= u
    ensures cfg.Cost(m) <= cfg.WeightedCost(m, w) <= cfg.WeightedCost(m, u)
  {
    hide Config.Cost, Clamp;
    ProductGrows(cfg.Cost(m), w, u);
    ClampGrows(cfg, m, cfg.Cost(m) * w, cfg.Cost(m) * u);
    if w > 1.0 {
      hide Config.WeightedCost;
      WeightedIsClamped(cfg, m, w);
      WeightedIsClamped(cfg, m, u);
    } else if u > 1.0 {
      WeightedIsClamped(cfg, m, u);
    }
  }

  lemma CostAtMost(cfg: Config, tiers: seq<Tier>, r: Request)
    requires Sane(cfg, tiers) && Configured(cfg, tiers, r) && r.model in cfg.caps && cfg.caps[r.model] > 0
    ensures 0.0 <= r.cost <= Unit(cfg, tiers, r.model)
  {
    CostPositive(cfg, tiers, r.model);
    hide MaxMultiplier, FromTiers, Config.Cost, Config.WeightedCost;
    var w :| FromTiers(tiers, w) && r.cost == cfg.WeightedCost(r.model, w);
    WeightInRange(tiers, w);
    WeightedGrows(cfg, r.model, w, MaxMultiplier(tiers));
  }

  lemma CostPositive(cfg: Config, tiers: seq<Tier>, m: string)
    requires Sane(cfg, tiers) && m in cfg.caps && cfg.caps[m] > 0
    ensures cfg.Cost(m) > 0.0
  {}

  lemma HeaviestInRange(tiers: seq<Tier>)
    requires forall t :: t in tiers ==> t.multiplier >= 1.0
    ensures MaxMultiplier(tiers) >= 1.0
  {
    var w := if tiers == [] then 1.0 else tiers[0].multiplier;
    assert FromTiers(tiers, w);
    WeightInRange(tiers, w);
  }

  lemma UnitPositive(cfg: Config, tiers: seq<Tier>, m: string)
    requires Sane(cfg, tiers) && cfg.Cost(m) >= 0.0
    ensures Unit(cfg, tiers, m) >= cfg.Cost(m)
  {
    HeaviestInRange(tiers);
    hide MaxMultiplier, Config.Cost, Config.WeightedCost;
    WeightedGrows(cfg, m, 1.0, MaxMultiplier(tiers));
  }

  /** What the runs of `m` cost at most. */
  function Load(cfg: Config, tiers: seq<Tier>, running: seq<Request>): string -> real {
    (m: string) => Times(Count(running, m), Unit(cfg, tiers, m))
  }

  lemma LoadStep(cfg: Config, tiers: seq<Tier>, x: Request, rest: seq<Request>, m: string)
    requires Unit(cfg, tiers, m) >= 0.0
    ensures Load(cfg, tiers, [x] + rest)(m) ==
            Load(cfg, tiers, rest)(m) + if x.model == m then Unit(cfg, tiers, m) else 0.0
  {
    assert ([x] + rest)[1..] == rest;
    TimesFacts(Count(rest, m), Count(rest, m), Unit(cfg, tiers, m));
    hide Times, Unit;
  }

  /** Every model of `ms` has a cap and so a positive cost. */
  ghost predicate AllCapped(cfg: Config, ms: set<string>) {
    forall m :: m in ms ==> m in cfg.caps && cfg.caps[m] > 0
  }

  lemma {:induction false} UsedAtMostLoad(
    cfg: Config, tiers: seq<Tier>, running: seq<Request>, p: string, ms: set<string>)
    requires Sane(cfg, tiers) && AllCapped(cfg, ms)
    requires forall x :: x in running && cfg.Pool(x.model) == p ==> x.model in ms && Configured(cfg, tiers, x)
    ensures SumCost(cfg, running, p) <= SetSum(ms, Load(cfg, tiers, running))
  {
    if |running| == 0 {
      SumZero(ms, Load(cfg, tiers, running));
    } else {
      var x, rest := running[0], running[1..];
      assert running == [x] + rest;
      UsedAtMostLoad(cfg, tiers, rest, p, ms);
      LoadMore(cfg, tiers, x, rest, ms);
      if x.model in ms {
        UnitPositive(cfg, tiers, x.model);
      }
      if cfg.Pool(x.model) == p {
        CostAtMost(cfg, tiers, x);
      }
      hide Configured, Load, SetSum, Sane, Unit;
    }
  }

  /** One more run adds its model's unit to the load, if its model is counted. */
  lemma LoadMore(cfg: Config, tiers: seq<Tier>, x: Request, rest: seq<Request>, ms: set<string>)
    requires Sane(cfg, tiers) && forall m :: m in ms ==> cfg.Cost(m) >= 0.0
    ensures SetSum(ms, Load(cfg, tiers, [x] + rest)) ==
            SetSum(ms, Load(cfg, tiers, rest)) + if x.model in ms then Unit(cfg, tiers, x.model) else 0.0
  {
    var f, g := Load(cfg, tiers, [x] + rest), Load(cfg, tiers, rest);
    forall m | m in ms ensures f(m) == g(m) + if x.model == m then Unit(cfg, tiers, m) else 0.0 {
      UnitPositive(cfg, tiers, m);
      LoadStep(cfg, tiers, x, rest, m);
    }
    hide Load, SetSum, Unit, Config.Cost;
    var others := ms - {x.model};
    SumAtMost(others, f, g);
    SumAtMost(others, g, f);
    if x.model in ms {
      SumPick(ms, f, x.model);
      SumPick(ms, g, x.model);
    } else {
      assert others == ms;
    }
  }

  lemma {:induction false} SumZero(ms: set<string>, f: string -> real)
    requires forall m :: f(m) == 0.0
    ensures SetSum(ms, f) == 0.0
  {
    if ms != {} {
      var m :| m in ms;
      SumPick(ms, f, m);
      SumZero(ms - {m}, f);
    }
  }

  /** What `m` can hold at most: its cap of runs, each at the heaviest charge. */
  function Peak(cfg: Config, tiers: seq<Tier>): string -> real {
    (m: string) => if m in cfg.caps then Times(cfg.caps[m], Unit(cfg, tiers, m)) else 0.0
  }

  lemma LoadAtMostPeak(cfg: Config, tiers: seq<Tier>, running: seq<Request>, m: string)
    requires Sane(cfg, tiers) && m in cfg.caps && cfg.caps[m] > 0
    ensures Count(running, m) <= cfg.caps[m] ==> Load(cfg, tiers, running)(m) <= Peak(cfg, tiers)(m)
    ensures Count(running, m) < cfg.caps[m] ==>
              Load(cfg, tiers, running)(m) + Unit(cfg, tiers, m) <= Peak(cfg, tiers)(m)
  {
    var n, k, u := Count(running, m), cfg.caps[m], Unit(cfg, tiers, m);
    CostPositive(cfg, tiers, m);
    UnitPositive(cfg, tiers, m);
    if n <= k {
      TimesFacts(n, k, u);
    }
    if n < k {
      TimesFacts(n + 1, k, u);
    }
    hide Times, Unit;
  }

  /** If only models of `ms` run in the pool of `r`, and their peaks fit its budget together, the budget
      test does not fail for a request of one of them with a free cap slot. */
  lemma PeaksFit(
    cfg: Config, tiers: seq<Tier>, st: State, running: seq<Request>, now: real, ms: set<string>, r: Request)
    requires Sane(cfg, tiers) && Safe(cfg, st, running, now) && AllCapped(cfg, ms)
    requires forall x :: x in running && cfg.Pool(x.model) == cfg.Pool(r.model) ==>
               x.model in ms && Configured(cfg, tiers, x)
    requires r.model in ms && Configured(cfg, tiers, r) && !CapFull(cfg, st, r)
    requires SetSum(ms, Peak(cfg, tiers)) <= cfg.Budget(cfg.Pool(r.model)) + EPS
    ensures st.Used(cfg.Pool(r.model)) + r.cost <= cfg.Budget(cfg.Pool(r.model)) + EPS
  {
    var p, f, g := cfg.Pool(r.model), Load(cfg, tiers, running), Peak(cfg, tiers);
    UsedAtMostLoad(cfg, tiers, running, p, ms);
    CostAtMost(cfg, tiers, r);
    forall m | m in ms ensures f(m) <= g(m) {
      CountWithinCap(cfg, st, running, now, m);
      LoadAtMostPeak(cfg, tiers, running, m);
    }
    LoadAtMostPeak(cfg, tiers, running, r.model);
    assert st.InFlight(r.model) == Count(running, r.model);
    assert st.Used(p) == SumCost(cfg, running, p);
    hide Safe, Load, Peak, SetSum, Configured, Unit;
    SumPick(ms, f, r.model);
    SumPick(ms, g, r.model);
    SumAtMost(ms - {r.model}, f, g);
  }

  /** The exact bound: with every cap full, each run at its heaviest charge, what may run together in `p`
      fits its budget - all members, or in an exclusive pool each member alone. */
  ghost predicate Roomy(cfg: Config, tiers: seq<Tier>, p: string) {
    && AllCapped(cfg, Members(cfg, p))
    && if p in cfg.poolExclusive
       then forall m :: m in Members(cfg, p) ==> Peak(cfg, tiers)(m) <= cfg.Budget(p) + EPS
       else SetSum(Members(cfg, p), Peak(cfg, tiers)) <= cfg.Budget(p) + EPS
  }

  lemma PeakAtMostCommitment(cfg: Config, tiers: seq<Tier>, m: string)
    requires Sane(cfg, tiers) && m in cfg.caps && cfg.caps[m] > 0
    ensures 0.0 <= Peak(cfg, tiers)(m) <= Commitment(cfg, tiers)(m)
  {
    hide MaxMultiplier, Config.Cost, Config.WeightedCost, Unit, Times;
    UnitInRange(cfg, tiers, m);
    PeakProduct(cfg.caps[m], Unit(cfg, tiers, m), cfg.Cost(m), MaxMultiplier(tiers));
  }

  lemma UnitInRange(cfg: Config, tiers: seq<Tier>, m: string)
    requires Sane(cfg, tiers) && m in cfg.caps && cfg.caps[m] > 0
    ensures 0.0 <= Unit(cfg, tiers, m) <= cfg.Cost(m) * MaxMultiplier(tiers)
  {
    hide MaxMultiplier, Config.Cost, Config.WeightedCost;
    CostPositive(cfg, tiers, m);
    HeaviestInRange(tiers);
    UnitPositive(cfg, tiers, m);
    WeightedCostBounds(cfg, m, MaxMultiplier(tiers));
  }

  lemma PeakProduct(k: nat, u: real, base: real, w: real)
    requires 0.0 <= u <= base * w
    ensures 0.0 <= Times(k, u) <= k as real * base * w
  {
    ProductGrows(k as real, 0.0, u);
    ProductGrows(k as real, u, base * w);
    assert k as real * base * w == k as real * (base * w);
  }

  lemma PeaksAtMostCommitments(cfg: Config, tiers: seq<Tier>, p: string)
    requires Sane(cfg, tiers) && AllCapped(cfg, Members(cfg, p))
    ensures SetSum(Members(cfg, p), Peak(cfg, tiers)) <= SetSum(Members(cfg, p), Commitment(cfg, tiers))
    ensures forall m :: m in Members(cfg, p) ==>
              Peak(cfg, tiers)(m) <= SetSum(Members(cfg, p), Commitment(cfg, tiers))
  {
    var ms, f, g := Members(cfg, p), Peak(cfg, tiers), Commitment(cfg, tiers);
    forall m | m in ms ensures 0.0 <= f(m) <= g(m) {
      PeakAtMostCommitment(cfg, tiers, m);
    }
    hide Peak, Commitment, SetSum, Members;
    SumAtMost(ms, f, g);
    forall m | m in ms ensures f(m) <= SetSum(ms, g) {
      SumPick(ms, g, m);
      SumZero(ms - {m}, (x: string) => 0.0);
      SumAtMost(ms - {m}, (x: string) => 0.0, g);
    }
  }

  /** The check behind the inert warning is sound: what it calls unbounded is roomy. */
  lemma UnboundedIsRoomy(cfg: Config, tiers: seq<Tier>, p: string)
    requires Sane(cfg, tiers) && Unbounded(cfg, tiers, p)
    ensures Roomy(cfg, tiers, p)
  {
    PeaksAtMostCommitments(cfg, tiers, p);
    hide Peak, Commitment, SetSum, Members;
  }

  /** Soundness of the inert warning: in a pool judged unbounded the budget test never fails for a
      request with a free cap slot, between operations and in the middle of one. */
  lemma UnboundedNeverBinds(cfg: Config, tiers: seq<Tier>, st: State, running: seq<Request>, now: real, r: Request)
    requires var p := cfg.Pool(r.model);
             && Sane(cfg, tiers) && Unbounded(cfg, tiers, p) && Safe(cfg, st, running, now)
             && forall x :: x in running ==> ConfiguredIn(cfg, tiers, p)(x)
    requires Configured(cfg, tiers, r) && !CapFull(cfg, st, r)
    ensures st.Used(cfg.Pool(r.model)) + r.cost <= cfg.Budget(cfg.Pool(r.model)) + EPS
  {
    var p := cfg.Pool(r.model);
    PeaksAtMostCommitments(cfg, tiers, p);
    RunsAreMembers(cfg, tiers, running, p);
    hide Peak, Commitment, SetSum, Safe, CapFull;
    PeaksFit(cfg, tiers, st, running, now, Members(cfg, p), r);
  }

  lemma RunsAreMembers(cfg: Config, tiers: seq<Tier>, running: seq<Request>, p: string)
    requires forall x :: x in running ==> ConfiguredIn(cfg, tiers, p)(x)
    ensures forall x :: x in running && cfg.Pool(x.model) == p ==>
              x.model in Members(cfg, p) && Configured(cfg, tiers, x)
  {
    forall x | x in running && cfg.Pool(x.model) == p ensures Configured(cfg, tiers, x) {
      assert ConfiguredIn(cfg, tiers, p)(x);
    }
  }

  /** In a roomy pool it never fails for a request that neither cap nor mutex stops. */
  lemma RoomyNeverBinds(cfg: Config, tiers: seq<Tier>, st: State, running: seq<Request>, now: real, r: Request)
    requires var p := cfg.Pool(r.model);
             && Sane(cfg, tiers) && Roomy(cfg, tiers, p) && Safe(cfg, st, running, now)
             && forall x :: x in running ==> ConfiguredIn(cfg, tiers, p)(x)
    requires Configured(cfg, tiers, r) && !CapFull(cfg, st, r) && !ExclusionBlocks(cfg, st, r)
    ensures st.Used(cfg.Pool(r.model)) + r.cost <= cfg.Budget(cfg.Pool(r.model)) + EPS
  {
    var p := cfg.Pool(r.model);
    RunsAreMembers(cfg, tiers, running, p);
    if p in cfg.poolExclusive {
      OneActiveMember(cfg, st, running, r);
      SumOne(r.model, Peak(cfg, tiers));
      hide Peak, SetSum, Safe, CapFull, ExclusionBlocks;
      PeaksFit(cfg, tiers, st, running, now, {r.model}, r);
    } else {
      hide Peak, SetSum, Safe, CapFull, ExclusionBlocks;
      PeaksFit(cfg, tiers, st, running, now, Members(cfg, p), r);
    }
  }

  lemma SumOne(m: string, f: string -> real)
    ensures SetSum({m}, f) == f(m)
  {
    SumPick({m}, f, m);
    assert {m} - {m} == {};
  }

  lemma CountWithinCap(cfg: Config, st: State, running: seq<Request>, now: real, m: string)
    requires Safe(cfg, st, running, now) && m in cfg.caps && cfg.caps[m] > 0
    ensures Count(running, m) <= cfg.caps[m]
  {
    CountMembers(running, m);
  }

  // ---- no reservation, in any pass ----

  /** No pass of the admit loop from `st` on finds a budget-blocked head in `p`, so none reserves there. */
  ghost predicate NeverBlocks(cfg: Config, st: State, now: real, p: string)
    decreases |st.queue|
  {
    && BlockedHead(cfg, st, now, p) == None
    && Reserve(cfg, st, now).ReservedFor(p) == None
    && match OnePass(cfg, st, now)
       case Idle(_) => true
       case Admits(s, _) => NeverBlocks(cfg, s, now, p)
  }

  /** The same for every operation of a run. */
  ghost predicate RunNeverBlocks(cfg: Config, w: World, evs: seq<Event>, p: string)
    decreases |evs|
  {
    |evs| == 0 ||
    (&& (match Prepare(cfg, w, evs[0])
         case Some(st) => NeverBlocks(cfg, st, evs[0].now, p)
         case None => true)
     && RunNeverBlocks(cfg, Step(cfg, w, evs[0]).0, evs[1..], p))
  }

  lemma HeadNotBlocked(cfg: Config, tiers: seq<Tier>, st: State, running: seq<Request>, now: real, p: string)
    requires Sane(cfg, tiers) && Roomy(cfg, tiers, p) && Safe(cfg, st, running, now)
    requires AllOf(World(st, running, now), ConfiguredIn(cfg, tiers, p))
    ensures BlockedHead(cfg, st, now, p) == None
  {
    HeadProps(cfg, st, now, p);
    var h := Head(cfg, st, now, p);
    if h.Some? && BudgetBlocked(cfg, st, h.value) {
      assert ConfiguredIn(cfg, tiers, p)(h.value);
      RoomyNeverBinds(cfg, tiers, st, running, now, h.value);
    }
  }

  lemma PassKeepsMembers(cfg: Config, st: State, running: seq<Request>, now: real, p: Request -> bool)
    requires Safe(cfg, st, running, now) && AllOf(World(st, running, now), p) && OnePass(cfg, st, now).Admits?
    ensures var pass := OnePass(cfg, st, now);
            AllOf(World(pass.st, running + [pass.admission.req], now), p)
  {
    PassMembers(cfg, st, now);
  }

  lemma {:induction false} PumpNeverBlocks(
    cfg: Config, tiers: seq<Tier>, st: State, running: seq<Request>, now: real, p: string)
    requires Sane(cfg, tiers) && Roomy(cfg, tiers, p) && Safe(cfg, st, running, now)
    requires AllOf(World(st, running, now), ConfiguredIn(cfg, tiers, p))
    ensures NeverBlocks(cfg, st, now, p)
    decreases |st.queue|
  {
    HeadNotBlocked(cfg, tiers, st, running, now, p);
    ReserveFor(cfg, st, now, p);
    hide Sane, Roomy, Safe, AllOf, OnePass, BlockedHead, Reserve;
    match OnePass(cfg, st, now)
    case Idle(_) =>
    case Admits(s, a) =>
      PassSafe(cfg, st, running, now);
      PassKeepsMembers(cfg, st, running, now, ConfiguredIn(cfg, tiers, p));
      PumpNeverBlocks(cfg, tiers, s, running + [a.req], now, p);
  }

  lemma StepNeverBlocks(cfg: Config, tiers: seq<Tier>, w: World, e: Event, p: string)
    requires Sane(cfg, tiers) && Roomy(cfg, tiers, p) && Good(cfg, w) && Enabled(w, e)
    requires AllOf(w, ConfiguredIn(cfg, tiers, p)) && (e.Arrive? ==> ConfiguredIn(cfg, tiers, p)(e.r))
    ensures Prepare(cfg, w, e).Some? ==> NeverBlocks(cfg, Prepare(cfg, w, e).value, e.now, p)
  {
    if Prepare(cfg, w, e).Some? {
      PrepareSafe(cfg, w, e);
      PrepareMembers(cfg, w, e, ConfiguredIn(cfg, tiers, p));
      FilterMembers(w.running, Except(e.r));
      PumpNeverBlocks(cfg, tiers, Prepare(cfg, w, e).value, StillRunning(w, e), e.now, p);
    }
  }

  /** Over any run whose requests for `p` are configured ones, no pass of any operation ever finds
      a head blocked by that pool's budget, and no reservation is ever made in it. */
  lemma {:induction false} RunsNeverBlock(cfg: Config, tiers: seq<Tier>, w: World, evs: seq<Event>, p: string)
    requires Sane(cfg, tiers) && Roomy(cfg, tiers, p) && Good(cfg, w) && Valid(cfg, w, evs)
    requires AllOf(w, ConfiguredIn(cfg, tiers, p))
    requires forall e :: e in evs && e.Arrive? ==> ConfiguredIn(cfg, tiers, p)(e.r)
    ensures RunNeverBlocks(cfg, w, evs, p)
    decreases |evs|
  {
    if |evs| > 0 {
      assert evs[0] in evs;
      StepNeverBlocks(cfg, tiers, w, evs[0], p);
      StepMembers(cfg, w, evs[0], ConfiguredIn(cfg, tiers, p));
      StepGood(cfg, w, evs[0]);
      hide Sane, Roomy, Good, AllOf, Step, Prepare, Enabled, NeverBlocks;
      RunsNeverBlock(cfg, tiers, Step(cfg, w, evs[0]).0, evs[1..], p);
    }
  }

  /** In particular from an empty scheduler, in a pool that the check calls unbounded. */
  lemma UnboundedNeverReserves(cfg: Config, tiers: seq<Tier>, clock: real, evs: seq<Event>, p: string)
    requires Sane(cfg, tiers) && Unbounded(cfg, tiers, p) && Valid(cfg, Start(clock), evs)
    requires forall e :: e in evs && e.Arrive? ==> ConfiguredIn(cfg, tiers, p)(e.r)
    ensures RunNeverBlocks(cfg, Start(clock), evs, p)
    ensures After(cfg, Start(clock), evs).st.ReservedFor(p) == None
  {
    UnboundedIsRoomy(cfg, tiers, p);
    hide Unbounded, Roomy;
    StartGood(cfg, clock);
    assert Start(clock).st.Waiting() == [];
    RunsNeverBlock(cfg, tiers, Start(clock), evs, p);
    EveryRunIsGood(cfg, Start(clock), evs);
    RunMembers(cfg, Start(clock), evs, ConfiguredIn(cfg, tiers, p));
    var w := After(cfg, Start(clock), evs);
    HeadNotBlocked(cfg, tiers, w.st, w.running, w.clock, p);
    SettledAtRest(cfg, w.st, w.clock, p);
  }
}
