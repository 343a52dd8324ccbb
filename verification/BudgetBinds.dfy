/** Exactly when a pool's budget can stand in anybody's way. The sum behind the inert-protection warning
    is not that bound: it prices every run at base cost times the heaviest weight, which the clamp may
    not allow, and counts all members of an exclusive pool together. `Roomy` is. */
module BudgetBinds {
  import opened Options
  import opened StableSort
  import opened SetSums
  import opened SchedulerModel
  import opened SchedulerPump
  import opened SchedulerRuns
  import opened SchedulerProgress
  import opened SchedulerStarvation
  import opened ProxyConfig
  import opened SelfProtection

  /** The arrivals of `evs` for `p` are charged as configured. */
  ghost predicate Charged(cfg: Config, tiers: seq<Tier>, p: string, evs: seq<Event>) {
    forall e :: e in evs && e.Arrive? ==> ConfiguredIn(cfg, tiers, p)(e.r)
  }

  /** No run of such arrivals ever finds a head of `p` blocked by budget. */
  ghost predicate NeverBinds(cfg: Config, tiers: seq<Tier>, p: string) {
    forall clock, evs :: Valid(cfg, Start(clock), evs) && Charged(cfg, tiers, p, evs) ==>
      RunNeverBlocks(cfg, Start(clock), evs, p)
  }

  // ---- filling a pool ----

  /** How many runs of each of these models are to be started. */
  type Slots = map<string, nat>

  function Filled(cfg: Config, tiers: seq<Tier>, slots: Slots): string -> real {
    (m: string) => if m in slots then Times(slots[m], Unit(cfg, tiers, m)) else 0.0
  }

  /** Models that may run together in `p`, no more of each than its cap, at more than the budget. */
  ghost predicate Overfills(cfg: Config, tiers: seq<Tier>, p: string, slots: Slots) {
    && slots != map[]
    && (forall m :: m in slots ==>
          && m in Members(cfg, p) && slots[m] > 0 && (m in cfg.caps ==> slots[m] <= cfg.caps[m])
          && 0.0 < cfg.Cost(m) <= cfg.Budget(p) + EPS)
    && (p in cfg.poolExclusive ==> forall m, n :: m in slots && n in slots ==> m == n)
    && SetSum(slots.Keys, Filled(cfg, tiers, slots)) > cfg.Budget(p) + EPS
  }

  /** Runs of those models are in flight at their heaviest charge, and nobody waits. */
  ghost predicate Filling(cfg: Config, tiers: seq<Tier>, w: World, slots: Slots) {
    && Good(cfg, w) && w.st.Waiting() == []
    && (forall x :: x in w.running ==>
          x.model in slots && x.cost == Unit(cfg, tiers, x.model) && x.id < |w.running|)
    && (forall m :: m in slots ==> Count(w.running, m) <= slots[m])
  }

  /** The next request for `m`, at the heaviest charge. */
  function NextRun(cfg: Config, tiers: seq<Tier>, w: World, m: string): Request {
    Request(|w.running|, m, Unit(cfg, tiers, m), 0, None, w.clock)
  }

  lemma UnitConfigured(cfg: Config, tiers: seq<Tier>, r: Request)
    requires r.model in cfg.caps.Keys + cfg.costs.Keys + cfg.poolOf.Keys && r.cost == Unit(cfg, tiers, r.model)
    ensures Configured(cfg, tiers, r)
  {
    HeaviestInTable(tiers);
  }

  lemma {:induction false} HeaviestInTable(tiers: seq<Tier>)
    ensures FromTiers(tiers, MaxMultiplier(tiers))
  {
    if |tiers| == 1 {
      assert MaxMultiplier(tiers) == tiers[0].multiplier;
    } else if |tiers| > 1 {
      HeaviestInTable(tiers[1..]);
      if MaxMultiplier(tiers) != tiers[0].multiplier {
        var k :| 0 <= k < |tiers[1..]| && MaxMultiplier(tiers[1..]) == tiers[1..][k].multiplier;
        assert MaxMultiplier(tiers) == tiers[k + 1].multiplier;
      }
    }
  }

  lemma NextIsPossible(cfg: Config, tiers: seq<Tier>, p: string, w: World, slots: Slots, m: string)
    requires Sane(cfg, tiers) && Overfills(cfg, tiers, p, slots) && Filling(cfg, tiers, w, slots)
    requires m in slots && Count(w.running, m) < slots[m]
    ensures var q := NextRun(cfg, tiers, w, m);
            && Enabled(w, Arrive(q, w.clock)) && CostFitsPool(cfg, q) && Configured(cfg, tiers, q)
            && !CapFull(cfg, w.st, q) && !ExclusionBlocks(cfg, w.st, q)
  {
    var q := NextRun(cfg, tiers, w, m);
    UnitPositive(cfg, tiers, m);
    UnitConfigured(cfg, tiers, q);
    WeightNeverRejects(cfg, q, MaxMultiplier(tiers));
    hide Unit, Config.Cost, Configured, MaxMultiplier, SetSum, Filled;
    NotShutOut(cfg, w, p, slots, q);
  }

  lemma NotShutOut(cfg: Config, w: World, p: string, slots: Slots, q: Request)
    requires Ledger(cfg, w.st, w.running) && q.model in slots && cfg.Pool(q.model) == p
    requires forall x :: x in w.running ==> x.model in slots
    requires p in cfg.poolExclusive ==> forall m, n :: m in slots && n in slots ==> m == n
    ensures !ExclusionBlocks(cfg, w.st, q)
  {
    ActiveMembersExact(cfg, w.st, p);
    forall m | m in ActiveMembers(cfg, w.st, p) ensures m in slots {
      CountMembers(w.running, m);
    }
  }

  lemma CountsMore(running: seq<Request>, q: Request)
    ensures forall k :: Count(running + [q], k) == Count(running, k) + if k == q.model then 1 else 0
  {
    forall k ensures Count(running + [q], k) == Count(running, k) + if k == q.model then 1 else 0 {
      SumAppend(UnitPool({}, 0.0), running, [q], DEFAULT_POOL, k);
      assert [q][1..] == [];
    }
  }

  /** One more run: the arrival is admitted if the budget allows it, */
  lemma NextIsAdmitted(cfg: Config, tiers: seq<Tier>, p: string, w: World, slots: Slots, m: string)
    requires Sane(cfg, tiers) && Overfills(cfg, tiers, p, slots) && Filling(cfg, tiers, w, slots)
    requires m in slots && Count(w.running, m) < slots[m]
    requires w.st.Used(p) + Unit(cfg, tiers, m) <= cfg.Budget(p) + EPS
    ensures var w' := Step(cfg, w, Arrive(NextRun(cfg, tiers, w, m), w.clock)).0;
            && Filling(cfg, tiers, w', slots) && w'.clock == w.clock
            && forall k :: Count(w'.running, k) == Count(w.running, k) + if k == m then 1 else 0
  {
    hide Good, Enabled, CapFull, ExclusionBlocks, Unit, Configured, CostFitsPool, Sane, SetSum, Members, StepState;
    var q := NextRun(cfg, tiers, w, m);
    NextIsPossible(cfg, tiers, p, w, slots, m);
    assert cfg.Pool(m) == p by { MemberPool(cfg, p, m); }
    LoneArrival(cfg, w, q);
    CountsMore(w.running, q);
  }

  lemma MemberPool(cfg: Config, p: string, m: string)
    requires m in Members(cfg, p)
    ensures cfg.Pool(m) == p
  {}

  /** and is left waiting as a head blocked by budget if not. */
  lemma NextIsBlocked(cfg: Config, tiers: seq<Tier>, p: string, w: World, slots: Slots, m: string)
    requires Sane(cfg, tiers) && Overfills(cfg, tiers, p, slots) && Filling(cfg, tiers, w, slots)
    requires m in slots && Count(w.running, m) < slots[m]
    requires w.st.Used(p) + Unit(cfg, tiers, m) > cfg.Budget(p) + EPS
    ensures !RunNeverBlocks(cfg, w, [Arrive(NextRun(cfg, tiers, w, m), w.clock)], p)
  {
    hide Good, Enabled, CapFull, ExclusionBlocks, Unit, Configured, Sane, SetSum, Step, OnePass;
    var q := NextRun(cfg, tiers, w, m);
    NextIsPossible(cfg, tiers, p, w, slots, m);
    assert cfg.Pool(m) == p by { MemberPool(cfg, p, m); }
    LoneIsBlocked(cfg, w, q);
    assert !NeverBlocks(cfg, w.st.(queue := w.st.queue + [Fresh(q)]), w.clock, p);
  }

  lemma LoneIsBlocked(cfg: Config, w: World, q: Request)
    requires w.st.Waiting() == [] && !CapFull(cfg, w.st, q) && !ExclusionBlocks(cfg, w.st, q)
    requires w.st.Used(cfg.Pool(q.model)) + q.cost > cfg.Budget(cfg.Pool(q.model)) + EPS
    ensures BlockedHead(cfg, w.st.(queue := w.st.queue + [Fresh(q)]), w.clock, cfg.Pool(q.model)) == Some(q)
  {
    var st := w.st.(queue := w.st.queue + [Fresh(q)]);
    ReqsAppend(w.st.queue, Fresh(q));
    HeadProps(cfg, st, w.clock, cfg.Pool(q.model));
    AgreeBlocks(cfg, st, w.st, q);
    assert q in st.Waiting();
  }

  lemma {:induction false} LoadIsUsed(cfg: Config, tiers: seq<Tier>, running: seq<Request>, p: string, ms: set<string>)
    requires Sane(cfg, tiers) && forall m :: m in ms ==> cfg.Cost(m) >= 0.0 && cfg.Pool(m) == p
    requires forall x :: x in running ==> x.model in ms && x.cost == Unit(cfg, tiers, x.model)
    ensures SumCost(cfg, running, p) == SetSum(ms, Load(cfg, tiers, running))
  {
    if |running| == 0 {
      SumZero(ms, Load(cfg, tiers, running));
    } else {
      assert running == [running[0]] + running[1..];
      LoadIsUsed(cfg, tiers, running[1..], p, ms);
      LoadMore(cfg, tiers, running[0], running[1..], ms);
      hide Load, SetSum, Sane, Unit, Config.Cost;
    }
  }

  /** Slots that overfill the pool are never all taken. */
  lemma NeverFull(cfg: Config, tiers: seq<Tier>, p: string, w: World, slots: Slots)
    requires Sane(cfg, tiers) && Overfills(cfg, tiers, p, slots) && Filling(cfg, tiers, w, slots)
    ensures exists m :: m in slots && Count(w.running, m) < slots[m]
  {
    if forall m :: m in slots ==> Count(w.running, m) == slots[m] {
      LoadIsUsed(cfg, tiers, w.running, p, slots.Keys);
      var m :| m in slots;
      CountMembers(w.running, m);
      assert w.st.Used(p) == SumCost(cfg, w.running, p);
      assert w.st.Used(p) <= cfg.Budget(p) + EPS;
      hide Sane, Good, SetSum, Unit;
      SumAtMost(slots.Keys, Filled(cfg, tiers, slots), Load(cfg, tiers, w.running));
    }
  }

  lemma RunCons(cfg: Config, tiers: seq<Tier>, p: string, w: World, e: Event, rest: seq<Event>)
    requires Enabled(w, e) && (e.Arrive? ==> ConfiguredIn(cfg, tiers, p)(e.r))
    requires Valid(cfg, Step(cfg, w, e).0, rest) && Charged(cfg, tiers, p, rest)
    ensures Valid(cfg, w, [e] + rest) && Charged(cfg, tiers, p, [e] + rest)
    ensures !RunNeverBlocks(cfg, Step(cfg, w, e).0, rest, p) ==> !RunNeverBlocks(cfg, w, [e] + rest, p)
  {
    hide Step, Enabled, Configured, NeverBlocks, Prepare;
    assert ([e] + rest)[1..] == rest;
  }

  lemma RunOne(cfg: Config, tiers: seq<Tier>, p: string, w: World, e: Event)
    requires Enabled(w, e) && (e.Arrive? ==> ConfiguredIn(cfg, tiers, p)(e.r))
    ensures Valid(cfg, w, [e]) && Charged(cfg, tiers, p, [e])
  {
    hide Step, Enabled, Configured, NeverBlocks, Prepare;
    assert [e][1..] == [];
  }

  /** Starting one run after the other, model by model, blocks a head in the end. `left` are the models
      whose slots may be free. */
  lemma {:induction false} Fill(
    cfg: Config, tiers: seq<Tier>, p: string, w: World, slots: Slots, left: set<string>, m: string)
    returns (evs: seq<Event>)
    requires Sane(cfg, tiers) && Overfills(cfg, tiers, p, slots) && Filling(cfg, tiers, w, slots)
    requires m in left && forall k :: k in slots && k !in left ==> Count(w.running, k) == slots[k]
    requires left <= slots.Keys
    ensures Valid(cfg, w, evs) && Charged(cfg, tiers, p, evs) && !RunNeverBlocks(cfg, w, evs, p)
    decreases |left|, slots[m] - Count(w.running, m)
  {
    hide Overfills, Sane, Valid, Charged, RunNeverBlocks, Step, Enabled, Configured, Unit, Good, Config.Budget;
    assert Count(w.running, m) <= slots[m];
    if Count(w.running, m) == slots[m] {
      NeverFull(cfg, tiers, p, w, slots);
      var next :| next in slots && Count(w.running, next) < slots[next];
      evs := Fill(cfg, tiers, p, w, slots, left - {m}, next);
    } else {
      var e := Arrive(NextRun(cfg, tiers, w, m), w.clock);
      NextIsPossible(cfg, tiers, p, w, slots, m);
      if w.st.Used(p) + Unit(cfg, tiers, m) > cfg.Budget(p) + EPS {
        NextIsBlocked(cfg, tiers, p, w, slots, m);
        RunOne(cfg, tiers, p, w, e);
        evs := [e];
      } else {
        NextIsAdmitted(cfg, tiers, p, w, slots, m);
        var rest := Fill(cfg, tiers, p, Step(cfg, w, e).0, slots, left, m);
        RunCons(cfg, tiers, p, w, e, rest);
        evs := [e] + rest;
      }
    }
  }

  lemma OverfilledBinds(cfg: Config, tiers: seq<Tier>, p: string, slots: Slots)
    requires Sane(cfg, tiers) && Overfills(cfg, tiers, p, slots)
    ensures !NeverBinds(cfg, tiers, p)
  {
    StartGood(cfg, 0.0);
    assert Start(0.0).st.Waiting() == [];
    var m :| m in slots;
    hide Overfills, Good, Sane, Valid, RunNeverBlocks, Charged;
    var evs := Fill(cfg, tiers, p, Start(0.0), slots, slots.Keys, m);
  }

  // ---- the exact bound ----

  /** Some number of charges of `u` exceeds `x`. */
  lemma Enough(u: real, x: real) returns (n: nat)
    requires u > 0.0
    ensures n > 0 && Times(n, u) > x
  {
    if x < u {
      n := 1;
    } else {
      n := (x / u).Floor + 1;
      assert n as real > x / u;
      assert x / u * u == x;
      ProductMore(u, x / u, n as real);
    }
  }

  lemma ProductMore(u: real, a: real, b: real)
    requires u > 0.0 && a < b
    ensures a * u < b * u
  {
    assert (b - a) * u > 0.0;
  }

  /** The configuration of `p` is in order: it has members, caps are positive, costs too, and the
      never-admit check passes. */
  ghost predicate InOrder(cfg: Config, p: string) {
    && Members(cfg, p) != {} && cfg.defaultCost > 0.0
    && forall m :: m in Members(cfg, p) ==>
         (m in cfg.caps ==> cfg.caps[m] > 0) && cfg.Cost(m) <= cfg.Budget(p) + EPS
  }

  lemma CostsPositive(cfg: Config, tiers: seq<Tier>, p: string, m: string)
    requires Sane(cfg, tiers) && InOrder(cfg, p) && m in Members(cfg, p)
    ensures 0.0 < cfg.Cost(m) <= cfg.Budget(p) + EPS && Unit(cfg, tiers, m) > 0.0
  {
    assert cfg.Cost(m) > 0.0;
    UnitPositive(cfg, tiers, m);
  }

  lemma FilledOne(cfg: Config, tiers: seq<Tier>, m: string, n: nat)
    ensures SetSum(map[m := n].Keys, Filled(cfg, tiers, map[m := n])) == Times(n, Unit(cfg, tiers, m))
  {
    SumOne(m, Filled(cfg, tiers, map[m := n]));
    assert map[m := n].Keys == {m};
  }

  /** A member without a cap, or one that may run alone above the budget, overfills the pool alone. */
  lemma OneOverfills(cfg: Config, tiers: seq<Tier>, p: string, m: string, n: nat)
    requires Sane(cfg, tiers) && InOrder(cfg, p) && m in Members(cfg, p)
    requires n > 0 && (m in cfg.caps ==> n <= cfg.caps[m]) && Times(n, Unit(cfg, tiers, m)) > cfg.Budget(p) + EPS
    ensures Overfills(cfg, tiers, p, map[m := n])
  {
    CostsPositive(cfg, tiers, p, m);
    FilledOne(cfg, tiers, m, n);
  }

  lemma AllOverfill(cfg: Config, tiers: seq<Tier>, p: string)
    requires Sane(cfg, tiers) && InOrder(cfg, p) && AllCapped(cfg, Members(cfg, p)) && p !in cfg.poolExclusive
    requires SetSum(Members(cfg, p), Peak(cfg, tiers)) > cfg.Budget(p) + EPS
    ensures exists slots :: Overfills(cfg, tiers, p, slots)
  {
    var slots: Slots := map m | m in Members(cfg, p) :: cfg.caps[m] as nat;
    assert slots.Keys == Members(cfg, p);
    forall m | m in slots ensures 0.0 < cfg.Cost(m) <= cfg.Budget(p) + EPS {
      CostsPositive(cfg, tiers, p, m);
    }
    SumAtMost(slots.Keys, Peak(cfg, tiers), Filled(cfg, tiers, slots));
    assert Overfills(cfg, tiers, p, slots);
  }

  lemma NotRoomyOverfills(cfg: Config, tiers: seq<Tier>, p: string)
    requires Sane(cfg, tiers) && InOrder(cfg, p) && !Roomy(cfg, tiers, p)
    ensures exists slots :: Overfills(cfg, tiers, p, slots)
  {
    hide SetSum, Overfills, Sane, InOrder, Members;
    if !AllCapped(cfg, Members(cfg, p)) {
      var m :| m in Members(cfg, p) && !(m in cfg.caps && cfg.caps[m] > 0);
      CostsPositive(cfg, tiers, p, m);
      var n := Enough(Unit(cfg, tiers, m), cfg.Budget(p) + EPS);
      if m in cfg.caps {
        CapPositive(cfg, p, m);
      }
      OneOverfills(cfg, tiers, p, m, n);
    } else if p in cfg.poolExclusive {
      var m :| m in Members(cfg, p) && Peak(cfg, tiers)(m) > cfg.Budget(p) + EPS;
      OneOverfills(cfg, tiers, p, m, cfg.caps[m]);
    } else {
      AllOverfill(cfg, tiers, p);
    }
  }

  lemma CapPositive(cfg: Config, p: string, m: string)
    requires InOrder(cfg, p) && m in Members(cfg, p) && m in cfg.caps
    ensures cfg.caps[m] > 0
  {}

  /** The budget of `p` never stands in anybody's way, over all runs, if and only if the pool is roomy. */
  lemma BindsExactly(cfg: Config, tiers: seq<Tier>, p: string)
    requires Sane(cfg, tiers) && InOrder(cfg, p)
    ensures Roomy(cfg, tiers, p) <==> NeverBinds(cfg, tiers, p)
  {
    hide Roomy, Sane, InOrder, Overfills;
    if Roomy(cfg, tiers, p) {
      forall clock, evs | Valid(cfg, Start(clock), evs) && Charged(cfg, tiers, p, evs)
        ensures RunNeverBlocks(cfg, Start(clock), evs, p)
      {
        StartGood(cfg, clock);
        assert Start(clock).st.Waiting() == [];
        RunsNeverBlock(cfg, tiers, Start(clock), evs, p);
      }
    } else {
      NotRoomyOverfills(cfg, tiers, p);
      var slots :| Overfills(cfg, tiers, p, slots);
      OverfilledBinds(cfg, tiers, p, slots);
    }
  }

  // ---- the warning against the exact bound ----

  /** The clamp leaves the heaviest charge of `m` alone. */
  predicate Unclamped(cfg: Config, tiers: seq<Tier>, m: string) {
    Unit(cfg, tiers, m) == cfg.Cost(m) * MaxMultiplier(tiers)
  }

  /** Where no member's heaviest charge is clamped and no mutex keeps the members apart, the warning's
      sum is the exact bound. */
  lemma WarningExactUnclamped(cfg: Config, tiers: seq<Tier>, p: string)
    requires Sane(cfg, tiers) && p !in cfg.poolExclusive && Members(cfg, p) != {}
    requires forall m :: m in Members(cfg, p) ==> Unclamped(cfg, tiers, m)
    ensures Unbounded(cfg, tiers, p) <==> Roomy(cfg, tiers, p)
  {
    hide Unclamped, Peak, Commitment, SetSum, Members, MaxMultiplier;
    var ms, f, g := Members(cfg, p), Peak(cfg, tiers), Commitment(cfg, tiers);
    if AllCapped(cfg, ms) {
      forall m | m in ms ensures f(m) == g(m) {
        UnclampedPeak(cfg, tiers, m);
      }
      SumAtMost(ms, f, g);
      SumAtMost(ms, g, f);
    }
  }

  lemma UnclampedPeak(cfg: Config, tiers: seq<Tier>, m: string)
    requires m in cfg.caps && cfg.caps[m] > 0 && Unclamped(cfg, tiers, m)
    ensures Peak(cfg, tiers)(m) == Commitment(cfg, tiers)(m)
  {
    hide Unit, Config.Cost, MaxMultiplier;
    SameProduct(cfg.caps[m] as real, cfg.Cost(m), MaxMultiplier(tiers));
  }

  lemma SameProduct(a: real, b: real, c: real)
    ensures a * b * c == a * (b * c)
  {}

  const CLAMPED: Config := Config(3.0, map["m" := 1], map[], map[], map[], {}, map[], 1.0, 0, 0.0, None)
  const TO_FOUR: seq<Tier> := [Tier(None, 4.0)]

  lemma ClampedAmounts()
    ensures Sane(CLAMPED, TO_FOUR) && InOrder(CLAMPED, DEFAULT_POOL) && Members(CLAMPED, DEFAULT_POOL) == {"m"}
    ensures Peak(CLAMPED, TO_FOUR)("m") == 2.0 && Commitment(CLAMPED, TO_FOUR)("m") == 4.0
  {
    assert CLAMPED.Cost("m") == 1.0 && MaxMultiplier(TO_FOUR) == 4.0;
    assert Members(CLAMPED, DEFAULT_POOL) == {"m"};
  }

  /** It is not the exact bound in general: a pool of budget 3 with one model of cap 1, at a heaviest
      weight of 4, is not called unbounded, though the clamp lets no run cost more than 2. */
  lemma WarningNotTight()
    ensures Sane(CLAMPED, TO_FOUR) && InOrder(CLAMPED, DEFAULT_POOL)
    ensures !Unbounded(CLAMPED, TO_FOUR, DEFAULT_POOL) && NeverBinds(CLAMPED, TO_FOUR, DEFAULT_POOL)
  {
    hide Peak, Commitment, Members, SetSum, InOrder, Sane, NeverBinds, MaxMultiplier, Unit;
    ClampedAmounts();
    SumOne("m", Commitment(CLAMPED, TO_FOUR));
    SumOne("m", Peak(CLAMPED, TO_FOUR));
    BindsExactly(CLAMPED, TO_FOUR, DEFAULT_POOL);
  }
}
