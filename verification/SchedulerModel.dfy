/** The cost-weighted admission scheduler as a function on states: what one call of
    `enqueue`, `withdraw` or `release` does to the budget ledgers, the in-flight counts,
    the waiters list and the head reservations. `SchedulerImpl.Scheduler` updates the same
    state in place and is proved against these functions. */
module SchedulerModel {
  import opened Options
  import opened Extrema
  import opened StableSort

  const EPS: real := 0.000000001
  const DEFAULT_POOL: string := "default"

  datatype HeavyMax = FullPool | LeaveRoom

  /** What a waiter is asked for once and keeps. `id` stands for the waiter's identity. */
  datatype Request = Request(id: nat, model: string, cost: real, basePriority: int,
                             keyFp: Option<string>, enqueuedAt: real)

  datatype Reason =
    | NoWait | Reserved | AgedIn | ModelCap | Exclusive | BudgetFull | CostExceedsPoolBudget

  /** A queued waiter with its bookkeeping marks. */
  datatype Entry = Entry(req: Request, waited: bool, wasReserved: bool,
                         cause: Option<Reason>, reason: Reason)

  datatype Admission = Admission(req: Request, reason: Reason)

  /** The scheduler's configuration; `keyCeiling` is fixed over a run. */
  datatype Config = Config(
    budget: real, caps: map<string, int>, costs: map<string, real>, poolOf: map<string, string>,
    poolBudget: map<string, real>, poolExclusive: set<string>, poolHeavyMax: map<string, HeavyMax>,
    defaultCost: real, defaultPriority: int, agingRate: real,
    keyCeiling: Option<Option<string> -> Option<int>>)
  {
    function Pool(model: string): string {
      if model in poolOf then poolOf[model] else DEFAULT_POOL
    }

    function Budget(pool: string): real {
      if pool in poolBudget then poolBudget[pool] else budget
    }

    function Cost(model: string): real {
      if model in costs then costs[model]
      else if model in caps && caps[model] > 0 then 1.0 / caps[model] as real
      else defaultCost
    }

    function WeightedCost(model: string, weight: real): real {
      var base := Cost(model);
      if weight <= 1.0 then base
      else
        var p := Pool(model);
        var b := Budget(p);
        var mode := if p in poolHeavyMax then poolHeavyMax[p] else LeaveRoom;
        var ceiling := if mode == FullPool then b - EPS else b - base;
        Max(base, Min(base * weight, ceiling))
    }

    /** The request priority after the per-key ceiling; no ceiling source means no clamp. */
    function Clamped(r: Request): real {
      match keyCeiling
      case None => r.basePriority as real
      case Some(source) =>
        var ceiling := match source(r.keyFp) case Some(c) => c as real case None => defaultPriority as real;
        Min(r.basePriority as real, ceiling)
    }

    function EffectivePriority(r: Request, now: real): real {
      Clamped(r) + agingRate * Max(0.0, now - r.enqueuedAt)
    }
  }

  /** `reserved[p]` absent and `reserved[p] == None` both mean that nothing is reserved in `p`. */
  datatype State = State(used: map<string, real>, inFlight: map<string, int>,
                         queue: seq<Entry>, reserved: map<string, Option<Request>>)
  {
    function Used(p: string): real { if p in used then used[p] else 0.0 }
    function InFlight(m: string): int { if m in inFlight then inFlight[m] else 0 }
    function ReservedFor(p: string): Option<Request> { if p in reserved then reserved[p] else None }
    function Waiting(): seq<Request> { Reqs(queue) }
  }

  const EMPTY: State := State(map[], map[], [], map[])

  function Reqs(q: seq<Entry>): seq<Request> {
    seq(|q|, i requires 0 <= i < |q| => q[i].req)
  }

  // ---- cap, mutex and budget tests ----

  function ModelsInPool(cfg: Config, st: State, p: string): set<string> {
    (set m | m in cfg.poolOf && cfg.poolOf[m] == p) +
    (if p == DEFAULT_POOL then set m | m in cfg.caps.Keys + st.inFlight.Keys && m !in cfg.poolOf else {})
  }

  function ActiveMembers(cfg: Config, st: State, p: string): set<string> {
    set m | m in ModelsInPool(cfg, st, p) && st.InFlight(m) > 0
  }

  predicate ExclusionBlocks(cfg: Config, st: State, r: Request) {
    var p := cfg.Pool(r.model);
    p in cfg.poolExclusive &&
    var active := ActiveMembers(cfg, st, p);
    active != {} && r.model !in active
  }

  predicate CapFull(cfg: Config, st: State, r: Request) {
    r.model in cfg.caps && st.InFlight(r.model) >= cfg.caps[r.model]
  }

  predicate Fits(cfg: Config, st: State, r: Request, reservable: real) {
    && !CapFull(cfg, st, r)
    && !ExclusionBlocks(cfg, st, r)
    && st.Used(cfg.Pool(r.model)) + r.cost <= reservable + EPS
  }

  predicate CostFitsPool(cfg: Config, r: Request) {
    r.cost <= cfg.Budget(cfg.Pool(r.model)) + EPS
  }

  predicate BudgetBlocked(cfg: Config, st: State, r: Request) {
    && !CapFull(cfg, st, r)
    && !ExclusionBlocks(cfg, st, r)
    && st.Used(cfg.Pool(r.model)) + r.cost > cfg.Budget(cfg.Pool(r.model)) + EPS
  }

  // ---- order and heads ----

  function PriorityKey(cfg: Config, now: real): Request -> Key {
    (r: Request) => (-cfg.EffectivePriority(r, now), r.enqueuedAt)
  }

  function Ordered(cfg: Config, reqs: seq<Request>, now: real): seq<Request> {
    Sort(reqs, PriorityKey(cfg, now))
  }

  function InPool(cfg: Config, p: string): Request -> bool {
    (r: Request) => cfg.Pool(r.model) == p
  }

  function Head(cfg: Config, st: State, now: real, p: string): Option<Request> {
    FirstWhere(Ordered(cfg, st.Waiting(), now), InPool(cfg, p))
  }

  /** The head of `p` that must be reserved for: blocked by budget and by nothing else. */
  function BlockedHead(cfg: Config, st: State, now: real, p: string): Option<Request> {
    var h := Head(cfg, st, now, p);
    if h.Some? && BudgetBlocked(cfg, st, h.value) then h else None
  }

  /** What the pool's budget is worth to its waiters in this pass. */
  function Reservable(cfg: Config, st: State, now: real, p: string): real {
    match BlockedHead(cfg, st, now, p)
    case Some(h) => cfg.Budget(p) - h.cost
    case None => cfg.Budget(p)
  }

  predicate Admittable(cfg: Config, st: State, now: real, r: Request) {
    Fits(cfg, st, r, Reservable(cfg, st, now, cfg.Pool(r.model)))
  }

  function AdmittableIn(cfg: Config, st: State, now: real): Request -> bool {
    (r: Request) => Admittable(cfg, st, now, r)
  }

  function FirstFit(cfg: Config, st: State, now: real): (f: Option<Request>)
    ensures f.Some? ==> f.value in st.Waiting() && Admittable(cfg, st, now, f.value)
    ensures f.None? ==> forall r :: r in st.Waiting() ==> !Admittable(cfg, st, now, r)
  {
    FirstWhereProps(Ordered(cfg, st.Waiting(), now), AdmittableIn(cfg, st, now));
    SortMembers(st.Waiting(), PriorityKey(cfg, now));
    FirstWhere(Ordered(cfg, st.Waiting(), now), AdmittableIn(cfg, st, now))
  }

  // ---- one pass of the admit loop ----

  function PoolsWithWaiters(cfg: Config, st: State): set<string> {
    set e | e in st.queue :: cfg.Pool(e.req.model)
  }

  function ReserveMark(cfg: Config, st: State, now: real, e: Entry): Entry {
    var p := cfg.Pool(e.req.model);
    if BlockedHead(cfg, st, now, p) == Some(e.req) then e.(wasReserved := true)
    else if st.ReservedFor(p) == Some(e.req) && Head(cfg, st, now, p) != Some(e.req) then e.(wasReserved := false)
    else e
  }

  function ReserveMarks(cfg: Config, st: State, now: real): seq<Entry> {
    seq(|st.queue|, i requires 0 <= i < |st.queue| => ReserveMark(cfg, st, now, st.queue[i]))
  }

  /** Recomputes every pool's head reservation and the marks that go with it. */
  function Reserve(cfg: Config, st: State, now: real): State {
    st.(queue := ReserveMarks(cfg, st, now),
        reserved := map p | p in st.reserved.Keys + PoolsWithWaiters(cfg, st) :: BlockedHead(cfg, st, now, p))
  }

  function WaitMark(cfg: Config, st: State, e: Entry): Entry {
    if st.ReservedFor(cfg.Pool(e.req.model)) == Some(e.req) then e.(waited := true, reason := Reserved)
    else if CapFull(cfg, st, e.req) then e.(waited := true, reason := ModelCap, cause := Some(ModelCap))
    else if ExclusionBlocks(cfg, st, e.req) then e.(waited := true, reason := Exclusive, cause := Some(Exclusive))
    else e.(waited := true, reason := BudgetFull, cause := Some(BudgetFull))
  }

  function RecordWaits(cfg: Config, st: State): State {
    st.(queue := seq(|st.queue|, i requires 0 <= i < |st.queue| => WaitMark(cfg, st, st.queue[i])))
  }

  function ReasonFor(cfg: Config, e: Entry, now: real): Reason {
    if !e.waited then NoWait
    else if e.wasReserved then Reserved
    else if cfg.agingRate > 0.0 && cfg.EffectivePriority(e.req, now) - cfg.Clamped(e.req) > 0.0 then AgedIn
    else if e.cause.Some? then e.cause.value else BudgetFull
  }

  /** The position of `r` in the queue, or the queue's length. */
  function IndexOf(q: seq<Entry>, r: Request): (i: nat)
    ensures i <= |q|
    ensures i < |q| ==> q[i].req == r
    ensures i == |q| <==> r !in Reqs(q)
    ensures forall j :: 0 <= j < i ==> q[j].req != r
  {
    if |q| == 0 then 0
    else if q[0].req == r then assert Reqs(q)[0] == r; 0
    else
      var k := IndexOf(q[1..], r);
      assert Reqs(q) == [q[0].req] + Reqs(q[1..]);
      1 + k
  }

  function Without(q: seq<Entry>, r: Request): (q': seq<Entry>)
    ensures r in Reqs(q) ==> |q'| == |q| - 1
    ensures r !in Reqs(q) ==> q' == q
  {
    var i := IndexOf(q, r);
    if i < |q| then q[..i] + q[i + 1..] else q
  }

  function Admit(cfg: Config, st: State, r: Request): State {
    var p := cfg.Pool(r.model);
    State(st.used[p := st.Used(p) + r.cost],
          st.inFlight[r.model := st.InFlight(r.model) + 1],
          Without(st.queue, r),
          if st.ReservedFor(p) == Some(r) then st.reserved[p := None] else st.reserved)
  }

  lemma ReserveKeepsWaiting(cfg: Config, st: State, now: real)
    ensures Reserve(cfg, st, now).Waiting() == st.Waiting()
  {}

  /** One pass either admits the first waiter that fits or finds that nobody does. */
  datatype Pass = Idle(st: State) | Admits(st: State, admission: Admission)

  function OnePass(cfg: Config, st: State, now: real): (pass: Pass)
    ensures pass.Admits? ==> |pass.st.queue| < |st.queue|
  {
    var s1 := Reserve(cfg, st, now);
    if |st.queue| == 0 then Idle(s1)
    else
      match FirstFit(cfg, s1, now)
      case None => Idle(RecordWaits(cfg, s1))
      case Some(r) =>
        Admits(Admit(cfg, s1, r), Admission(r, ReasonFor(cfg, s1.queue[IndexOf(s1.queue, r)], now)))
  }

  /** The admit loop, run to its fixed point: the state it ends in and the admissions in order. */
  function Pump(cfg: Config, st: State, now: real): (State, seq<Admission>)
    decreases |st.queue|
  {
    match OnePass(cfg, st, now)
    case Idle(s) => (s, [])
    case Admits(s, a) =>
      var (end, rest) := Pump(cfg, s, now);
      (end, [a] + rest)
  }

  // ---- the three public operations ----

  function Fresh(r: Request): Entry {
    Entry(r, false, false, None, NoWait)
  }

  /** A waiter whose cost can never fit its pool is rejected and changes nothing. */
  function Enqueue(cfg: Config, st: State, r: Request, now: real): (State, seq<Admission>) {
    if !CostFitsPool(cfg, r) then (st, [])
    else Pump(cfg, st.(queue := st.queue + [Fresh(r)]), now)
  }

  function Withdrawn(cfg: Config, st: State, r: Request): State {
    var p := cfg.Pool(r.model);
    st.(queue := Without(st.queue, r),
        reserved := if st.ReservedFor(p) == Some(r) then st.reserved[p := None] else st.reserved)
  }

  function Withdraw(cfg: Config, st: State, r: Request, now: real): (State, seq<Admission>) {
    Pump(cfg, Withdrawn(cfg, st, r), now)
  }

  function Refunded(cfg: Config, st: State, model: string, cost: real): State {
    var p := cfg.Pool(model);
    st.(used := st.used[p := Max(0.0, st.Used(p) - cost)],
        inFlight := st.inFlight[model := if st.InFlight(model) - 1 >= 0 then st.InFlight(model) - 1 else 0])
  }

  function Release(cfg: Config, st: State, model: string, cost: Option<real>, now: real): (State, seq<Admission>) {
    Pump(cfg, Refunded(cfg, st, model, if cost.Some? then cost.value else cfg.Cost(model)), now)
  }
}
