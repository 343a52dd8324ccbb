/** Sums over finite sets of names. */
module SetSums {
  /** Sum of `f` over a finite set. */
  ghost function SetSum(s: set<string>, f: string -> real): real {
    if s == {} then 0.0 else var x :| x in s; f(x) + SetSum(s - {x}, f)
  }

  /** The sum does not depend on which element is taken first. */
  lemma {:induction false} SumPick(s: set<string>, f: string -> real, x: string)
    requires x in s
    ensures SetSum(s, f) == f(x) + SetSum(s - {x}, f)
  {
    var y :| y in s && SetSum(s, f) == f(y) + SetSum(s - {y}, f);
    if x != y {
      SumPick(s - {y}, f, x);
      SumPick(s - {x}, f, y);
      assert s - {y} - {x} == s - {x} - {y};
    }
  }

  lemma SumPickEmpty(f: string -> real)
    ensures SetSum({}, f) == 0.0
  {}

  lemma {:induction false} SumAtMost(s: set<string>, f: string -> real, g: string -> real)
    requires forall x :: x in s ==> f(x) <= g(x)
    ensures SetSum(s, f) <= SetSum(s, g)
  {
    if s != {} {
      var x :| x in s;
      SumPick(s, f, x);
      SumPick(s, g, x);
      SumAtMost(s - {x}, f, g);
    }
  }
}

/** The proxy's two startup checks and the prompt weighting, and what they guarantee about every
    state the scheduler can reach. */
module ProxyConfig {
  import opened Extrema
  import opened Options
  import opened StableSort
  import opened SetSums
  import opened SchedulerModel
  import opened SchedulerPump
  import opened SchedulerRuns
  import opened SchedulerProgress

  // ---- never-admit guard at config load ----

  function PoolOf(poolOf: map<string, string>, m: string): string {
    if m in poolOf then poolOf[m] else DEFAULT_POOL
  }

  /** A model's base cost when it is declared; `None` leaves it to the default cost. */
  function EffectiveCost(caps: map<string, int>, costs: map<string, real>, m: string): Option<real> {
    if m in costs then Some(costs[m])
    else if m in caps && caps[m] > 0 then Some(1.0 / caps[m] as real)
    else None
  }

  function BudgetOf(budgets: map<string, real>, default: real, p: string): real {
    if p in budgets then budgets[p] else default
  }

  datatype Offender = Offender(model: string, cost: real, pool: string, budget: real)
  datatype Resolved =
    | Resolved(poolBudget: map<string, real>, poolExclusive: set<string>)
    | Invalid(offenders: set<Offender>)

  /** What the config loader hands over, straight from the file. */
  datatype Declared = Declared(caps: map<string, int>, costs: map<string, real>, poolOf: map<string, string>,
                               exclusiveSeed: map<string, bool>, budgets: map<string, real>,
                               exclusive: set<string>, defaultBudget: real)
  {
    function Models(): set<string> { caps.Keys + costs.Keys + poolOf.Keys }

    function Exclusives(): set<string> {
      exclusive + set p | p in exclusiveSeed && exclusiveSeed[p]
    }

    function Pools(): set<string> {
      poolOf.Values + {DEFAULT_POOL} + budgets.Keys + Exclusives()
    }

    function BudgetsOf(ps: set<string>): map<string, real> {
      map p | p in ps :: BudgetOf(budgets, defaultBudget, p)
    }

    function PoolBudgets(): map<string, real> { BudgetsOf(Pools()) }

    /** The model can never be admitted: its declared cost exceeds its pool's budget. */
    predicate Offends(m: string) {
      var c := EffectiveCost(caps, costs, m);
      c.Some? && c.value > BudgetOf(budgets, defaultBudget, PoolOf(poolOf, m)) + EPS
    }

    function OffenderOf(m: string): Offender
      requires EffectiveCost(caps, costs, m).Some?
    {
      var p := PoolOf(poolOf, m);
      Offender(m, EffectiveCost(caps, costs, m).value, p, BudgetOf(budgets, defaultBudget, p))
    }

    function Offenders(ms: set<string>): set<Offender> {
      set m | m in ms && Offends(m) :: OffenderOf(m)
    }

    /** The merged tables, or the models that make the configuration invalid. */
    function Outcome(): Resolved {
      if Offenders(Models()) == {} then Resolved(PoolBudgets(), Exclusives()) else Invalid(Offenders(Models()))
    }
  }

  method MergeBudgets(d: Declared) returns (budgets: map<string, real>)
    ensures budgets == d.PoolBudgets()
  {
    var left, done := d.Pools(), {};
    budgets := map[];
    hide Declared.Pools;
    while left != {}
      invariant done + left == d.Pools() && done !! left
      invariant budgets == d.BudgetsOf(done)
      decreases |left|
    {
      var p :| p in left;
      budgets := budgets[p := if p in d.budgets then d.budgets[p] else d.defaultBudget];
      BudgetsStep(d, done, p);
      left, done := left - {p}, done + {p};
    }
    assert done == d.Pools();
  }

  lemma BudgetsStep(d: Declared, done: set<string>, p: string)
    ensures d.BudgetsOf(done + {p}) == d.BudgetsOf(done)[p := BudgetOf(d.budgets, d.defaultBudget, p)]
  {}

  lemma OffendersNone(d: Declared)
    ensures d.Offenders({}) == {}
  {}

  lemma OffendersStep(d: Declared, seen: set<string>, m: string)
    ensures d.Offenders(seen + {m}) == d.Offenders(seen) + if d.Offends(m) then {d.OffenderOf(m)} else {}
  {}

  /** `o` names a model that can never be admitted, read off the declared tables: its cost is the one it
      is given or the one its cap implies, and exceeds the declared or the default budget of its pool. */
  predicate NeverFits(d: Declared, o: Offender) {
    && o.pool == (if o.model in d.poolOf then d.poolOf[o.model] else "default")
    && o.budget == (if o.pool in d.budgets then d.budgets[o.pool] else d.defaultBudget)
    && (if o.model in d.costs then o.cost == d.costs[o.model]
        else o.model in d.caps && d.caps[o.model] > 0 && o.cost * d.caps[o.model] as real == 1.0)
    && o.cost > o.budget + 0.000000001
  }

  lemma OffendersNeverFit(d: Declared, o: Offender)
    ensures o in d.Offenders(d.Models()) <==> NeverFits(d, o)
  {
    var m := o.model;
    if m !in d.costs && m in d.caps && d.caps[m] > 0 {
      Inverse(o.cost, d.caps[m] as real);
    }
    if NeverFits(d, o) {
      assert m in d.Models() && d.Offends(m) && d.OffenderOf(m) == o;
    }
  }

  /** What the check returns, read off the declared tables. A pool is exclusive if it is declared or
      seeded so. The default pool and the pools that are declared, exclusive or referred to by a model
      have a budget, the declared or the default one. The configuration is refused if and only if some
      model can never be admitted, and then with all such models. */
  lemma ResolvedTables(d: Declared)
    ensures d.Outcome().Resolved? ==>
              var r := d.Outcome();
              && (forall p :: p in r.poolExclusive <==>
                    p in d.exclusive || (p in d.exclusiveSeed && d.exclusiveSeed[p]))
              && (forall p :: p in r.poolBudget <==>
                    || p == "default" || p in d.budgets || p in r.poolExclusive
                    || exists m :: m in d.poolOf && d.poolOf[m] == p)
              && (forall p :: p in r.poolBudget ==>
                    r.poolBudget[p] == if p in d.budgets then d.budgets[p] else d.defaultBudget)
    ensures d.Outcome().Resolved? <==> forall o :: !NeverFits(d, o)
    ensures d.Outcome().Invalid? ==> forall o :: o in d.Outcome().offenders <==> NeverFits(d, o)
  {
    forall o: Offender ensures o in d.Offenders(d.Models()) <==> NeverFits(d, o) {
      OffendersNeverFit(d, o);
    }
    hide NeverFits, Declared.Offenders;
    if d.Offenders(d.Models()) != {} {
      var o :| o in d.Offenders(d.Models());
      assert NeverFits(d, o);
    }
  }

  lemma Inverse(c: real, k: real)
    requires k > 0.0
    ensures c * k == 1.0 <==> c == 1.0 / k
  {
    assert 1.0 / k * k == 1.0;
    if c * k == 1.0 {
      assert (c - 1.0 / k) * k == 0.0;
    }
  }

  /** Every pool a model, a budget declaration or an exclusivity mark refers to gets a budget; the
      configuration is refused with exactly the models that could never be admitted. */
  method ResolvePoolConfig(d: Declared) returns (r: Resolved)
    ensures r == d.Outcome()
  {
    OffendersNone(d);
    hide Declared.Models, Declared.Pools, Declared.Offenders, Declared.PoolBudgets, BudgetOf;
    var budgets := MergeBudgets(d);
    var offenders: set<Offender>, left, seen := {}, d.Models(), {};
    while left != {}
      invariant seen + left == d.Models() && seen !! left
      invariant offenders == d.Offenders(seen)
      decreases |left|
    {
      var m :| m in left;
      var pool := PoolOf(d.poolOf, m);
      var b := if pool in budgets then budgets[pool] else d.defaultBudget;
      var c := EffectiveCost(d.caps, d.costs, m);
      BudgetLookup(d, pool);
      OffendersStep(d, seen, m);
      if c.Some? && c.value > b + EPS {
        offenders := offenders + {Offender(m, c.value, pool, b)};
      }
      left, seen := left - {m}, seen + {m};
    }
    assert seen == d.Models();
    r := if offenders == {} then Resolved(budgets, d.Exclusives()) else Invalid(offenders);
  }

  lemma BudgetLookup(d: Declared, p: string)
    ensures (if p in d.PoolBudgets() then d.PoolBudgets()[p] else d.defaultBudget) ==
            BudgetOf(d.budgets, d.defaultBudget, p)
  {}

  /** A scheduler built from the tables the check has read and the budgets it has returned. */
  predicate BuiltFrom(cfg: Config, d: Declared) {
    && cfg.caps == d.caps && cfg.costs == d.costs && cfg.poolOf == d.poolOf
    && cfg.poolBudget == d.PoolBudgets() && cfg.budget == d.defaultBudget
    && forall m :: m in d.costs ==> d.costs[m] > 0.0
  }

  /** Weighting is bounded below by the base cost and above by base times weight. */
  lemma WeightedCostBounds(cfg: Config, m: string, weight: real)
    requires cfg.Cost(m) >= 0.0 && weight >= 1.0
    ensures cfg.Cost(m) <= cfg.WeightedCost(m, weight) <= cfg.Cost(m) * weight
  {
    assert cfg.Cost(m) * (weight - 1.0) >= 0.0;
  }

  /** Weighting never turns an admittable request into a rejected one, nor the other way round. */
  lemma WeightNeverRejects(cfg: Config, r: Request, weight: real)
    requires cfg.Cost(r.model) >= 0.0 && r.cost == cfg.WeightedCost(r.model, weight)
    ensures CostFitsPool(cfg, r) <==> cfg.Cost(r.model) <= cfg.Budget(cfg.Pool(r.model)) + EPS
  {}

  /** Nothing of pool `p` is in flight. */
  ghost predicate IdlePool(cfg: Config, st: State, p: string) {
    st.Used(p) == 0.0 && forall m :: cfg.Pool(m) == p ==> st.InFlight(m) == 0
  }

  /** In a leave-room pool one more base-cost run of the same model always fits beside a weighted one
      - exactly when the base cost is at most half the budget, up to the epsilon of the admission
      test, and the cap has a second slot. */
  lemma LeaveRoomExactly(cfg: Config, st: State, weight: real, heavy: Request, second: Request)
    requires var p := cfg.Pool(heavy.model); p in cfg.poolHeavyMax ==> cfg.poolHeavyMax[p] == LeaveRoom
    requires cfg.Cost(heavy.model) >= 0.0 && heavy.cost == cfg.WeightedCost(heavy.model, weight)
    requires second.model == heavy.model && second.cost == cfg.Cost(heavy.model)
    requires IdlePool(cfg, st, cfg.Pool(heavy.model))
    ensures var m, b := heavy.model, cfg.Budget(cfg.Pool(heavy.model));
            Fits(cfg, Admit(cfg, st, heavy), second, b) <==>
            cfg.Cost(m) <= (b + EPS) / 2.0 && (m in cfg.caps ==> cfg.caps[m] >= 2)
  {
    if weight > 1.0 {
      WeightedCostBounds(cfg, heavy.model, weight);
    }
    ActiveMembersExact(cfg, Admit(cfg, st, heavy), cfg.Pool(heavy.model));
  }

  /** The promise of always leaving room does fail, by budget alone: beside a weighted run of a model
      that costs 0.6 of a unit budget, no base-cost run of it fits. */
  lemma LeaveRoomCanFail()
    ensures var cfg := Config(1.0, map[], map["m" := 0.6], map[], map[], {}, map[], 1.0, 0, 0.0, None);
            var heavy := Request(0, "m", cfg.WeightedCost("m", 2.0), 0, None, 0.0);
            BudgetBlocked(cfg, Admit(cfg, EMPTY, heavy), heavy.(id := 1, cost := cfg.Cost("m")))
  {}

  /** In a full-pool pool a weighted run is charged one epsilon less than the whole budget exactly when
      its base cost is no more than that and its weighted cost no less. It is charged the whole budget
      only if that is its base cost. */
  lemma FullPoolExactly(cfg: Config, m: string, weight: real)
    requires var p := cfg.Pool(m); p in cfg.poolHeavyMax && cfg.poolHeavyMax[p] == FullPool
    requires cfg.Cost(m) >= 0.0 && weight > 1.0
    ensures var base, b := cfg.Cost(m), cfg.Budget(cfg.Pool(m));
            && (cfg.WeightedCost(m, weight) == b - EPS <==> base <= b - EPS <= base * weight)
            && (cfg.WeightedCost(m, weight) == b <==> base == b)
  {
    WeightedCostBounds(cfg, m, weight);
  }

  /** Charging the whole budget does fail: at base 0.25 and weight 8 the charge stops short of it. */
  lemma FullPoolFallsShort()
    ensures var cfg :=
              Config(1.0, map[], map["m" := 0.25], map[], map[], {}, map[DEFAULT_POOL := FullPool], 1.0, 0, 0.0, None);
            cfg.WeightedCost("m", 8.0) == cfg.Budget(cfg.Pool("m")) - EPS < cfg.Budget(cfg.Pool("m"))
  {}

  /** What the missing epsilon lets in: beside a lone run charged `b - EPS`, a request that neither cap
      nor mutex stops fits exactly if it costs at most two epsilons. */
  lemma AloneButForEpsilon(cfg: Config, st: State, heavy: Request, r: Request)
    requires var p := cfg.Pool(heavy.model); IdlePool(cfg, st, p) && heavy.cost == cfg.Budget(p) - EPS
    requires cfg.Pool(r.model) == cfg.Pool(heavy.model)
    requires !CapFull(cfg, Admit(cfg, st, heavy), r) && !ExclusionBlocks(cfg, Admit(cfg, st, heavy), r)
    ensures Fits(cfg, Admit(cfg, st, heavy), r, cfg.Budget(cfg.Pool(heavy.model))) <==> r.cost <= 2.0 * EPS
  {}

  /** The request carries its model's cost at prompt weight `weight`. */
  predicate Weighted(cfg: Config, q: Request, weight: real) {
    q.cost == cfg.WeightedCost(q.model, weight)
  }

  lemma OffendsIffRejected(cfg: Config, d: Declared, q: Request, weight: real)
    requires BuiltFrom(cfg, d) && EffectiveCost(d.caps, d.costs, q.model).Some? && Weighted(cfg, q, weight)
    ensures CostFitsPool(cfg, q) <==> !d.Offends(q.model)
  {
    var p := cfg.Pool(q.model);
    assert p == PoolOf(d.poolOf, q.model);
    assert cfg.Budget(p) == BudgetOf(d.budgets, d.defaultBudget, p);
    WeightNeverRejects(cfg, q, weight);
  }

  lemma NoOffenders(d: Declared, m: string)
    ensures d.Offends(m) ==> d.Offenders(d.Models()) != {}
  {
    if d.Offends(m) {
      assert d.OffenderOf(m) in d.Offenders(d.Models());
    }
  }

  /** The load-time check discharges the runtime guard: it passes exactly when no request for a model
      with a cap or an explicit cost can be rejected by `enqueue`, at any prompt weight. */
  lemma CheckDischargesGuard(cfg: Config, d: Declared)
    requires BuiltFrom(cfg, d)
    ensures d.Offenders(d.Models()) == {} <==>
            forall q: Request, weight: real ::
              Weighted(cfg, q, weight) && EffectiveCost(d.caps, d.costs, q.model).Some? ==> CostFitsPool(cfg, q)
  {
    if d.Offenders(d.Models()) == {} {
      forall q: Request, weight: real | Weighted(cfg, q, weight) && EffectiveCost(d.caps, d.costs, q.model).Some?
        ensures CostFitsPool(cfg, q)
      {
        OffendsIffRejected(cfg, d, q, weight);
        NoOffenders(d, q.model);
      }
    } else {
      var o :| o in d.Offenders(d.Models());
      var m :| m in d.Models() && d.Offends(m) && o == d.OffenderOf(m);
      var q := Request(0, m, cfg.WeightedCost(m, 1.0), 0, None, 0.0);
      assert Weighted(cfg, q, 1.0);
      OffendsIffRejected(cfg, d, q, 1.0);
    }
  }

  /** The models the check cannot speak for, those with neither cap nor cost, are admittable exactly
      when the default cost fits their pool. */
  lemma UndeclaredModels(cfg: Config, d: Declared, q: Request, weight: real)
    requires BuiltFrom(cfg, d) && EffectiveCost(d.caps, d.costs, q.model).None? && Weighted(cfg, q, weight)
    requires cfg.defaultCost >= 0.0
    ensures CostFitsPool(cfg, q) <==>
            cfg.defaultCost <= BudgetOf(d.budgets, d.defaultBudget, PoolOf(d.poolOf, q.model)) + EPS
  {
    WeightNeverRejects(cfg, q, weight);
  }

  // ---- prompt weights ----

  /** A tier's inclusive upper bound (`None` is infinity) and its multiplier. */
  datatype Tier = Tier(upper: Option<real>, multiplier: real)

  predicate Covers(t: Tier, tokens: int) {
    t.upper.Some? ==> tokens as real <= t.upper.value
  }

  function WeightOf(tokens: int, tiers: seq<Tier>): real {
    if |tiers| == 0 then 1.0
    else if |tiers| == 1 || Covers(tiers[0], tokens) then tiers[0].multiplier
    else WeightOf(tokens, tiers[1..])
  }

  method PromptWeight(tokens: int, tiers: seq<Tier>) returns (w: real)
    ensures w == WeightOf(tokens, tiers)
  {
    var i := 0;
    while i < |tiers|
      invariant 0 <= i <= |tiers|
      invariant i < |tiers| ==> WeightOf(tokens, tiers) == WeightOf(tokens, tiers[i..])
      invariant i == |tiers| > 0 ==> WeightOf(tokens, tiers) == tiers[|tiers| - 1].multiplier
    {
      if Covers(tiers[i], tokens) {
        return tiers[i].multiplier;
      }
      i := i + 1;
      assert i < |tiers| ==> tiers[i - 1..][1..] == tiers[i..];
    }
    w := if |tiers| > 0 then tiers[|tiers| - 1].multiplier else 1.0;
  }

  /** Bounds rise from tier to tier, and the last tier has none. */
  predicate Ascending(tiers: seq<Tier>) {
    && |tiers| > 0 && tiers[|tiers| - 1].upper.None?
    && (forall k :: 0 <= k < |tiers| - 1 ==> tiers[k].upper.Some?)
    && (forall j, k :: 0 <= j < k < |tiers| - 1 ==> tiers[j].upper.value < tiers[k].upper.value)
  }

  /** The prompt falls between the bound of tier `k` and that of the one before. */
  predicate FallsIn(tokens: int, tiers: seq<Tier>, k: nat)
    requires Ascending(tiers) && k < |tiers|
  {
    && (k > 0 ==> tiers[k - 1].upper.value < tokens as real)
    && (k < |tiers| - 1 ==> tokens as real <= tiers[k].upper.value)
  }

  /** In a table of ascending bounds a prompt has the multiplier of exactly the tier it falls in; bounds
      are inclusive. */
  lemma {:induction false} WeightAt(tokens: int, tiers: seq<Tier>, k: nat)
    requires Ascending(tiers) && k < |tiers| && FallsIn(tokens, tiers, k)
    ensures WeightOf(tokens, tiers) == tiers[k].multiplier
  {
    if k > 0 {
      assert tiers[k - 1].upper.value >= tiers[0].upper.value;
      WeightAt(tokens, tiers[1..], k - 1);
    }
  }

  /** Whatever the order of the table, the first tier that the prompt does not exceed decides, and the
      last one if it exceeds them all; without a table every prompt weighs 1. */
  lemma {:induction false} FirstTierDecides(tokens: int, tiers: seq<Tier>, k: nat)
    requires k < |tiers|
    requires forall j :: 0 <= j < k ==> tiers[j].upper.Some? && tiers[j].upper.value < tokens as real
    requires k == |tiers| - 1 || tiers[k].upper.None? || tokens as real <= tiers[k].upper.value
    ensures WeightOf(tokens, tiers) == tiers[k].multiplier
    ensures WeightOf(tokens, []) == 1.0
  {
    if k > 0 {
      FirstTierDecides(tokens, tiers[1..], k - 1);
    }
  }

  /** Some tier is the one a prompt falls in. */
  lemma FallsSomewhere(tokens: int, tiers: seq<Tier>) returns (k: nat)
    requires Ascending(tiers)
    ensures k < |tiers| && FallsIn(tokens, tiers, k)
  {
    k := 0;
    while k < |tiers| - 1 && tiers[k].upper.value < tokens as real
      invariant k < |tiers| && (k > 0 ==> tiers[k - 1].upper.value < tokens as real)
    {
      k := k + 1;
    }
  }

  /** Where multipliers ascend too, a larger prompt weighs no less. */
  lemma WeightGrowsWithPrompt(small: int, large: int, tiers: seq<Tier>)
    requires Ascending(tiers) && small <= large
    requires forall j, k :: 0 <= j < k < |tiers| ==> tiers[j].multiplier <= tiers[k].multiplier
    ensures WeightOf(small, tiers) <= WeightOf(large, tiers)
  {
    var j := FallsSomewhere(small, tiers);
    var k := FallsSomewhere(large, tiers);
    WeightAt(small, tiers, j);
    WeightAt(large, tiers, k);
    assert j <= k;
  }

  /** A multiplier the tier table can produce. */
  predicate FromTiers(tiers: seq<Tier>, w: real) {
    if tiers == [] then w == 1.0 else exists k :: 0 <= k < |tiers| && w == tiers[k].multiplier
  }

  function MaxMultiplier(tiers: seq<Tier>): real {
    if |tiers| == 0 then 1.0
    else if |tiers| == 1 then tiers[0].multiplier
    else Max(tiers[0].multiplier, MaxMultiplier(tiers[1..]))
  }

  lemma {:induction false} MaxMultiplierBounds(tiers: seq<Tier>, w: real)
    requires FromTiers(tiers, w)
    ensures w <= MaxMultiplier(tiers)
  {
    if |tiers| > 1 {
      var k :| 0 <= k < |tiers| && w == tiers[k].multiplier;
      if k > 0 {
        assert tiers[1..][k - 1].multiplier == w;
        MaxMultiplierBounds(tiers[1..], w);
      }
    }
  }

  // ---- inert self-protection ----

  function Members(cfg: Config, p: string): set<string> {
    set m | m in cfg.caps.Keys + cfg.costs.Keys + cfg.poolOf.Keys && cfg.Pool(m) == p
  }

  /** What member `m` commits at most: its cap of requests, each at the heaviest weight. */
  function Commitment(cfg: Config, tiers: seq<Tier>): string -> real {
    (m: string) =>
      if m in cfg.caps && cfg.caps[m] > 0 then cfg.caps[m] as real * cfg.Cost(m) * MaxMultiplier(tiers) else 0.0
  }

  /** The pool's budget can never bind given the caps. */
  ghost predicate Unbounded(cfg: Config, tiers: seq<Tier>, p: string) {
    && Members(cfg, p) != {}
    && (forall m :: m in Members(cfg, p) ==> m in cfg.caps && cfg.caps[m] > 0)
    && cfg.Budget(p) >= SetSum(Members(cfg, p), Commitment(cfg, tiers)) - EPS
  }

  function ConfiguredPools(cfg: Config): set<string> {
    set m | m in cfg.caps.Keys + cfg.costs.Keys + cfg.poolOf.Keys :: cfg.Pool(m)
  }

  method HeaviestMultiplier(tiers: seq<Tier>) returns (w: real)
    ensures w == MaxMultiplier(tiers)
  {
    if |tiers| == 0 {
      return 1.0;
    }
    var i := |tiers| - 1;
    w := tiers[i].multiplier;
    while i > 0
      invariant 0 <= i < |tiers|
      invariant w == MaxMultiplier(tiers[i..])
    {
      i := i - 1;
      w := Max(tiers[i].multiplier, w);
      assert tiers[i..][1..] == tiers[i + 1..];
    }
    assert tiers[0..] == tiers;
  }

  lemma CommitmentOf(cfg: Config, tiers: seq<Tier>, m: string)
    requires m in cfg.caps && cfg.caps[m] > 0
    ensures Commitment(cfg, tiers)(m) ==
            cfg.caps[m] as real * (if m in cfg.costs then cfg.costs[m] else 1.0 / cfg.caps[m] as real)
            * MaxMultiplier(tiers)
  {}

  /** Sums one pool's commitments, stopping at the first member without a finite cap. */
  method IsUnbounded(cfg: Config, tiers: seq<Tier>, maxMult: real, p: string) returns (unbounded: bool)
    requires maxMult == MaxMultiplier(tiers)
    ensures unbounded <==> Unbounded(cfg, tiers, p)
  {
    ghost var f := Commitment(cfg, tiers);
    var members := Members(cfg, p);
    var committed, left := 0.0, members;
    SumPickEmpty(f);
    hide Members, SetSum, Commitment;
    while left != {}
      invariant left <= members
      invariant forall m :: m in members && m !in left ==> m in cfg.caps && cfg.caps[m] > 0
      invariant committed + SetSum(left, f) == SetSum(members, f)
      decreases |left|
    {
      var m :| m in left;
      if m !in cfg.caps || cfg.caps[m] <= 0 {
        return false;
      }
      var base := if m in cfg.costs then cfg.costs[m] else 1.0 / cfg.caps[m] as real;
      SumPick(left, f, m);
      CommitmentOf(cfg, tiers, m);
      committed := committed + cfg.caps[m] as real * base * maxMult;
      left := left - {m};
    }
    unbounded := members != {} && cfg.Budget(p) >= committed - EPS;
  }

  /** Some model with a cap, a cost or an assignment is in pool `p`. */
  ghost predicate HasModels(cfg: Config, p: string) {
    exists m :: (m in cfg.caps || m in cfg.costs || m in cfg.poolOf) && cfg.Pool(m) == p
  }

  lemma InertRead(cfg: Config, tiers: seq<Tier>, inert: set<string>)
    requires inert == set p | p in ConfiguredPools(cfg) && (MaxMultiplier(tiers) <= 1.0 || Unbounded(cfg, tiers, p))
    ensures forall p :: p in inert <==>
              HasModels(cfg, p) && ((forall t :: t in tiers ==> t.multiplier <= 1.0) || Unbounded(cfg, tiers, p))
  {
    FlatTiers(tiers);
    forall p ensures p in ConfiguredPools(cfg) <==> HasModels(cfg, p) {}
    hide Unbounded, ConfiguredPools, HasModels, MaxMultiplier;
  }

  /** The heaviest multiplier is at most one exactly if every multiplier is. */
  lemma {:induction false} FlatTiers(tiers: seq<Tier>)
    ensures MaxMultiplier(tiers) <= 1.0 <==> forall t :: t in tiers ==> t.multiplier <= 1.0
  {
    if |tiers| > 1 {
      FlatTiers(tiers[1..]);
      assert tiers == [tiers[0]] + tiers[1..];
    }
  }

  /** The pools in which self-protection is inert: all of them when the tiers are flat, otherwise
      those whose budget can never bind. */
  method InertPools(cfg: Config, tiers: seq<Tier>) returns (inert: set<string>)
    ensures forall p :: p in inert <==>
              HasModels(cfg, p) && ((forall t :: t in tiers ==> t.multiplier <= 1.0) || Unbounded(cfg, tiers, p))
  {
    var maxMult := HeaviestMultiplier(tiers);
    var unbounded: set<string>, left := {}, ConfiguredPools(cfg);
    hide ConfiguredPools, Unbounded;
    while left != {}
      invariant left <= ConfiguredPools(cfg)
      invariant unbounded == set p | p in ConfiguredPools(cfg) - left && Unbounded(cfg, tiers, p)
      decreases |left|
    {
      var p :| p in left;
      var u := IsUnbounded(cfg, tiers, maxMult, p);
      if u {
        unbounded := unbounded + {p};
      }
      left := left - {p};
    }
    inert := if maxMult <= 1.0 then ConfiguredPools(cfg) else unbounded;
    InertRead(cfg, tiers, inert);
  }
}
