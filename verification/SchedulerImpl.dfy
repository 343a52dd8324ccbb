/** The scheduler object: budget ledgers, in-flight counts, waiters and reservations updated in
    place, every method proved to do to the abstract state what `SchedulerModel` says. */
module SchedulerImpl {
  import opened Options
  import opened Extrema
  import opened StableSort
  import opened SchedulerModel
  import opened SchedulerPump
  import M = SchedulerModel

  /** One queued request; `fut` is its admission future, unresolved while `None`. */
  class Waiter {
    const req: Request
    var fut: Option<bool>
    var cancelled: bool
    var waitReason: Reason
    var waited: bool
    var wasReserved: bool
    var waitCause: Option<Reason>

    constructor (req: Request)
      ensures this.req == req && fut == None && !cancelled && Mark() == Fresh(req)
      ensures !waited && !wasReserved && waitCause == None && waitReason == NoWait
    {
      this.req := req;
      fut, cancelled, waitReason := None, false, NoWait;
      waited, wasReserved, waitCause := false, false, None;
    }

    /** The waiter's queue entry. */
    function Mark(): Entry
      reads this
    {
      Entry(req, waited, wasReserved, waitCause, waitReason)
    }

    /** Resolves the future, unless it already is. */
    method Resolve(result: bool, reason: Reason)
      modifies this`fut, this`waitReason
      ensures waitReason == reason && fut == if old(fut).None? then Some(result) else old(fut)
    {
      waitReason := reason;
      if fut.None? {
        fut := Some(result);
      }
    }
  }

  function ReqsOf(ws: seq<Waiter>): seq<Request> {
    seq(|ws|, i requires 0 <= i < |ws| => ws[i].req)
  }

  function Marks(ws: seq<Waiter>): seq<Entry>
    reads ws
  {
    seq(|ws|, i requires 0 <= i < |ws| reads ws => ws[i].Mark())
  }

  function Holder(w: Waiter?): Option<Request> {
    if w == null then None else Some(w.req)
  }

  function Holders(reserved: map<string, Waiter?>): map<string, Option<Request>> {
    map p | p in reserved :: Holder(reserved[p])
  }

  lemma HoldersUpdate(reserved: map<string, Waiter?>, p: string, w: Waiter?)
    ensures Holders(reserved[p := w]) == Holders(reserved)[p := Holder(w)]
    ensures Holders(reserved).Keys == reserved.Keys
  {}

  function WaiterKey(cfg: Config, now: real): Waiter -> Key {
    (w: Waiter) => PriorityKey(cfg, now)(w.req)
  }

  lemma {:induction false} InsertByRequest(w: Waiter, ws: seq<Waiter>, cfg: Config, now: real)
    ensures ReqsOf(Insert(w, ws, WaiterKey(cfg, now))) == Insert(w.req, ReqsOf(ws), PriorityKey(cfg, now))
    ensures forall v :: v in Insert(w, ws, WaiterKey(cfg, now)) <==> v == w || v in ws
  {
    if |ws| > 0 && !LexLe(WaiterKey(cfg, now)(w), WaiterKey(cfg, now)(ws[0])) {
      InsertByRequest(w, ws[1..], cfg, now);
      assert ReqsOf(ws)[1..] == ReqsOf(ws[1..]);
      assert ws == [ws[0]] + ws[1..];
    }
  }

  /** Sorting the waiter objects sorts their requests. */
  lemma {:induction false} SortByRequest(ws: seq<Waiter>, cfg: Config, now: real)
    ensures ReqsOf(Sort(ws, WaiterKey(cfg, now))) == Ordered(cfg, ReqsOf(ws), now)
    ensures forall v :: v in Sort(ws, WaiterKey(cfg, now)) <==> v in ws
  {
    if |ws| > 0 {
      SortByRequest(ws[1..], cfg, now);
      InsertByRequest(ws[0], Sort(ws[1..], WaiterKey(cfg, now)), cfg, now);
      assert ReqsOf(ws)[1..] == ReqsOf(ws[1..]);
      assert ws == [ws[0]] + ws[1..];
    }
  }

  /** `ordered` is `ws` in priority order. */
  ghost predicate InOrder(cfg: Config, ws: seq<Waiter>, ordered: seq<Waiter>, now: real) {
    && (forall v :: v in ordered ==> v in ws)
    && (forall v :: v in ws ==> v in ordered)
    && ReqsOf(ordered) == Ordered(cfg, ReqsOf(ws), now)
  }

  // ---- the reservation step, pool by pool ----

  /** Reservations outside `keep` cleared. */
  function Kept(reserved: map<string, Option<Request>>, keep: set<string>): map<string, Option<Request>> {
    map p | p in reserved :: if p in keep then reserved[p] else None
  }

  /** A waiter's marks after its pool's reservation went to `head`, or to nobody. */
  function Held(w: Waiter, head: Waiter, blocked: bool, prev: Waiter?, e: Entry): Entry {
    if blocked && w == head then e.(wasReserved := true)
    else if w == prev && w != head then e.(wasReserved := false)
    else e
  }

  function HeldMarks(ws: seq<Waiter>, head: Waiter, blocked: bool, prev: Waiter?, q: seq<Entry>): seq<Entry>
    requires |q| == |ws|
  {
    seq(|ws|, i requires 0 <= i < |ws| => Held(ws[i], head, blocked, prev, q[i]))
  }

  function PoolMarks(cfg: Config, st: M.State, now: real, p: string, q: seq<Entry>): seq<Entry> {
    seq(|q|, i requires 0 <= i < |q| => if cfg.Pool(q[i].req.model) == p then ReserveMark(cfg, st, now, q[i]) else q[i])
  }

  /** `st` with the reservation step done for the pools in `done`. */
  function ReservedIn(cfg: Config, st: M.State, now: real, done: set<string>): M.State {
    st.(queue := seq(|st.queue|, i requires 0 <= i < |st.queue| =>
                       if cfg.Pool(st.queue[i].req.model) in done then ReserveMark(cfg, st, now, st.queue[i])
                       else st.queue[i]),
        reserved := map p | p in st.reserved.Keys + done ::
                      if p in done then BlockedHead(cfg, st, now, p) else st.reserved[p])
  }

  lemma ReservedInNone(cfg: Config, st: M.State, now: real)
    ensures ReservedIn(cfg, st, now, {}) == st
  {}

  lemma ReservedInKeeps(cfg: Config, st: M.State, now: real, done: set<string>)
    ensures SameCore(ReservedIn(cfg, st, now, done), st)
    ensures forall p :: p !in done ==> ReservedIn(cfg, st, now, done).ReservedFor(p) == st.ReservedFor(p)
  {}

  lemma ReservedInOneMore(cfg: Config, st: M.State, now: real, done: set<string>, p: string)
    requires p !in done
    ensures var was := ReservedIn(cfg, st, now, done);
            ReservedIn(cfg, st, now, done + {p}) ==
              was.(queue := PoolMarks(cfg, st, now, p, was.queue),
                   reserved := was.reserved[p := BlockedHead(cfg, st, now, p)])
  {
    hide Head, BlockedHead;
    var was, end := ReservedIn(cfg, st, now, done), ReservedIn(cfg, st, now, done + {p});
    assert end.queue == PoolMarks(cfg, st, now, p, was.queue);
    assert end.reserved == was.reserved[p := BlockedHead(cfg, st, now, p)];
  }

  /** Done for all pools with waiters and cleared elsewhere: the whole reservation step. */
  lemma ReserveInSteps(cfg: Config, st: M.State, now: real)
    ensures var all := PoolsWithWaiters(cfg, st);
            var was := ReservedIn(cfg, st, now, all);
            was.(reserved := Kept(was.reserved, all)) == Reserve(cfg, st, now)
  {
    forall p | p !in PoolsWithWaiters(cfg, st) ensures BlockedHead(cfg, st, now, p) == None {
      BlockedHeadNeedsWaiters(cfg, st, now, p);
    }
    forall i | 0 <= i < |st.queue| ensures cfg.Pool(st.queue[i].req.model) in PoolsWithWaiters(cfg, st) {
      assert st.queue[i] in st.queue;
    }
    hide BlockedHead, ReserveMark, PoolsWithWaiters;
    assert ReservedIn(cfg, st, now, PoolsWithWaiters(cfg, st)).queue == ReserveMarks(cfg, st, now);
  }

  class Scheduler {
    const cfg: Config
    var used: map<string, real>
    var inFlight: map<string, int>
    var waiters: seq<Waiter>
    var reserved: map<string, Waiter?>
    ghost var log: seq<Admission>  // every admission so far, in order

    constructor (cfg: Config)
      ensures Valid() && this.cfg == cfg && State() == EMPTY && log == [] && waiters == []
    {
      this.cfg := cfg;
      used, inFlight, waiters, reserved := map[], map[], [], map[];
      log := [];
    }

    function State(): M.State
      reads this, waiters
    {
      M.State(used, inFlight, Marks(waiters), Holders(reserved))
    }

    lemma WaitingIsReqs()
      ensures State().Waiting() == ReqsOf(waiters)
    {}

    /** Waiters are distinct and unresolved, and a pool is reserved for one of its own. */
    ghost predicate Valid()
      reads this, waiters
    {
      && NoDup(ReqsOf(waiters))
      && (forall w :: w in waiters ==> w.fut.None?)
      && forall p :: p in reserved && reserved[p] != null ==>
          reserved[p] in waiters && cfg.Pool(reserved[p].req.model) == p
    }

    // ---- the tests ----

    function UsedIn(p: string): real
      reads this
    {
      if p in used then used[p] else 0.0
    }

    function InFlightOf(m: string): int
      reads this
    {
      if m in inFlight then inFlight[m] else 0
    }

    function ReservedForPool(p: string): Waiter?
      reads this
    {
      if p in reserved then reserved[p] else null
    }

    function ActiveMembers(p: string): set<string>
      reads this
    {
      var members := (set m | m in cfg.poolOf && cfg.poolOf[m] == p) +
                     (if p == DEFAULT_POOL then set m | m in cfg.caps.Keys + inFlight.Keys && m !in cfg.poolOf else {});
      set m | m in members && InFlightOf(m) > 0
    }

    predicate ExclusionBlocks(w: Waiter)
      reads this
    {
      var p := cfg.Pool(w.req.model);
      p in cfg.poolExclusive && ActiveMembers(p) != {} && w.req.model !in ActiveMembers(p)
    }

    predicate CapFull(w: Waiter)
      reads this
    {
      w.req.model in cfg.caps && InFlightOf(w.req.model) >= cfg.caps[w.req.model]
    }

    predicate Fits(w: Waiter, reservable: real)
      reads this
    {
      !CapFull(w) && !ExclusionBlocks(w) && UsedIn(cfg.Pool(w.req.model)) + w.req.cost <= reservable + EPS
    }

    /** The object's tests are those of the model on its abstract state. */
    lemma TestsAgree(st: M.State, w: Waiter)
      requires st.used == used && st.inFlight == inFlight
      ensures forall p :: UsedIn(p) == st.Used(p)
      ensures forall m :: InFlightOf(m) == st.InFlight(m)
      ensures CapFull(w) == M.CapFull(cfg, st, w.req)
      ensures ExclusionBlocks(w) == M.ExclusionBlocks(cfg, st, w.req)
      ensures forall b :: Fits(w, b) == M.Fits(cfg, st, w.req, b)
    {}

    // ---- one pass ----

    method PoolHead(ordered: seq<Waiter>, pool: string) returns (head: Waiter?)
      ensures Holder(head) == FirstWhere(ReqsOf(ordered), InPool(cfg, pool))
      ensures head != null ==> head in ordered
    {
      head := null;
      for i := 0 to |ordered|
        invariant FirstWhere(ReqsOf(ordered), InPool(cfg, pool)) == FirstWhere(ReqsOf(ordered)[i..], InPool(cfg, pool))
      {
        if cfg.Pool(ordered[i].req.model) == pool {
          return ordered[i];
        }
        assert ReqsOf(ordered)[i..][1..] == ReqsOf(ordered)[i + 1..];
      }
    }

    /** `st` is the state in which the current pass began, up to marks and reservations. */
    ghost predicate PassBeganIn(st: M.State)
      reads this
    {
      st.used == used && st.inFlight == inFlight && st.Waiting() == ReqsOf(waiters)
    }

    lemma HeadIsWaiter(ordered: seq<Waiter>, now: real, st: M.State, p: string, head: Waiter?)
      requires Valid() && InOrder(cfg, waiters, ordered, now) && PassBeganIn(st)
      requires Holder(head) == FirstWhere(ReqsOf(ordered), InPool(cfg, p)) && (head != null ==> head in ordered)
      ensures Holder(head) == Head(cfg, st, now, p)
      ensures head != null ==> head in waiters && cfg.Pool(head.req.model) == p
      ensures p in PoolsWithWaiters(cfg, st) ==> head != null
      ensures forall w :: w in waiters && head != null && w.req == head.req ==> w == head
    {
      HeadProps(cfg, st, now, p);
      if p in PoolsWithWaiters(cfg, st) {
        var i :| 0 <= i < |st.queue| && cfg.Pool(st.queue[i].req.model) == p;
        assert st.Waiting()[i] in st.Waiting();
      }
      forall w | w in waiters && head != null && w.req == head.req ensures w == head {
        SameWaiter(w, head);
      }
    }

    lemma SameWaiter(v: Waiter, w: Waiter)
      requires Valid() && v in waiters && w in waiters && v.req == w.req
      ensures v == w
    {
      var i :| 0 <= i < |waiters| && waiters[i] == v;
      var j :| 0 <= j < |waiters| && waiters[j] == w;
      assert ReqsOf(waiters)[i] == ReqsOf(waiters)[j];
    }

    /** Moves the reservation of `p` to `head`, or clears it, and keeps the two marks right. */
    method Hold(p: string, head: Waiter, blocked: bool)
      requires Valid() && head in waiters && cfg.Pool(head.req.model) == p
      modifies this`reserved, waiters
      ensures Valid() && reserved == old(reserved)[p := if blocked then head else null]
      ensures Marks(waiters) == HeldMarks(waiters, head, blocked, old(ReservedForPool(p)), old(Marks(waiters)))
    {
      var prev := ReservedForPool(p);
      hide NoDup, ReqsOf;
      if prev != null && prev != head {
        prev.wasReserved := false;
      }
      reserved := reserved[p := if blocked then head else null];
      if blocked {
        head.wasReserved := true;
      }
    }

    lemma HeldMark(p: string, head: Waiter, blocked: bool, prev: Waiter?, w: Waiter, now: real, st: M.State, e: Entry)
      requires Valid() && w in waiters && head in waiters
      requires prev != null ==> prev in waiters && cfg.Pool(prev.req.model) == p
      requires Holder(head) == Head(cfg, st, now, p) && cfg.Pool(head.req.model) == p
      requires BlockedHead(cfg, st, now, p) == (if blocked then Holder(head) else None)
      requires st.ReservedFor(p) == Holder(prev) && e.req == w.req
      ensures Held(w, head, blocked, prev, e) == if cfg.Pool(w.req.model) == p then ReserveMark(cfg, st, now, e) else e
    {
      if w.req == head.req {
        SameWaiter(w, head);
      }
      if prev != null && w.req == prev.req {
        SameWaiter(w, prev);
      }
      hide NoDup, Head, BlockedHead;
    }

    lemma HeldArePoolMarks(p: string, head: Waiter, blocked: bool, prev: Waiter?, now: real, st: M.State)
      requires Valid() && head in waiters && (prev != null ==> prev in waiters && cfg.Pool(prev.req.model) == p)
      requires Holder(head) == Head(cfg, st, now, p) && cfg.Pool(head.req.model) == p
      requires BlockedHead(cfg, st, now, p) == (if blocked then Holder(head) else None)
      requires st.ReservedFor(p) == Holder(prev)
      ensures HeldMarks(waiters, head, blocked, prev, Marks(waiters)) == PoolMarks(cfg, st, now, p, Marks(waiters))
    {
      hide NoDup, Head, BlockedHead, ReserveMark, Held;
      forall i | 0 <= i < |waiters|
        ensures Held(waiters[i], head, blocked, prev, Marks(waiters)[i]) ==
                PoolMarks(cfg, st, now, p, Marks(waiters))[i]
      {
        HeldMark(p, head, blocked, prev, waiters[i], now, st, Marks(waiters)[i]);
      }
    }

    /** Reserves pool `p` for its head if the head is blocked by budget alone, and tells what the
        pool's budget is then worth to its waiters. */
    method ReservePool(p: string, ordered: seq<Waiter>, now: real, ghost st: M.State) returns (worth: real)
      requires Valid() && InOrder(cfg, waiters, ordered, now) && PassBeganIn(st)
      requires st.ReservedFor(p) == Holder(ReservedForPool(p))
      requires p in PoolsWithWaiters(cfg, st)
      modifies this`reserved, waiters
      ensures Valid()
      ensures Holders(reserved) == old(Holders(reserved))[p := BlockedHead(cfg, st, now, p)]
      ensures Marks(waiters) == PoolMarks(cfg, st, now, p, old(Marks(waiters)))
      ensures worth == Reservable(cfg, st, now, p)
    {
      var head := PoolHead(ordered, p);
      HeadIsWaiter(ordered, now, st, p, head);
      TestsAgree(st, head);
      var blocked := !CapFull(head) && !ExclusionBlocks(head) && UsedIn(p) + head.req.cost > cfg.Budget(p) + EPS;
      assert BlockedHead(cfg, st, now, p) == if blocked then Holder(head) else None;
      HeldArePoolMarks(p, head, blocked, ReservedForPool(p), now, st);
      HoldersUpdate(reserved, p, if blocked then head else null);
      worth := if blocked then cfg.Budget(p) - head.req.cost else cfg.Budget(p);
      hide BlockedHead, Holders, Marks, HeldMarks, PoolMarks, CapFull, ExclusionBlocks, PoolsWithWaiters, NoDup,
        Ordered, FirstWhere;
      Hold(p, head, blocked);
    }

    /** Clears the reservation of every pool outside `keep`. */
    method ClearReservations(keep: set<string>)
      requires Valid()
      modifies this`reserved
      ensures Valid() && State() == old(State()).(reserved := Kept(old(State()).reserved, keep))
    {
      var todo := reserved.Keys;
      while todo != {}
        invariant reserved.Keys == old(reserved).Keys && todo <= reserved.Keys
        invariant forall p :: p in reserved ==>
                    reserved[p] == if p in keep || p in todo then old(reserved)[p] else null
        decreases todo
      {
        var p :| p in todo;
        if p !in keep && reserved[p] != null {
          reserved := reserved[p := null];
        }
        todo := todo - {p};
      }
      assert Holders(reserved) == Kept(old(Holders(reserved)), keep);
    }

    function PoolsOfWaiters(): set<string>
      reads this
    {
      set w | w in waiters :: cfg.Pool(w.req.model)
    }

    lemma PoolsAgree(st: M.State)
      requires PassBeganIn(st)
      ensures PoolsOfWaiters() == PoolsWithWaiters(cfg, st)
    {
      forall w | w in waiters ensures cfg.Pool(w.req.model) in PoolsWithWaiters(cfg, st) {
        var i :| 0 <= i < |waiters| && waiters[i] == w;
        assert st.Waiting()[i] == ReqsOf(waiters)[i] == w.req;
        assert st.queue[i] in st.queue;
      }
      forall e | e in st.queue ensures cfg.Pool(e.req.model) in PoolsOfWaiters() {
        var i :| 0 <= i < |st.queue| && st.queue[i] == e;
        assert st.Waiting()[i] == ReqsOf(waiters)[i] == e.req;
        assert waiters[i] in waiters;
      }
    }

    /** One round of the reservation loop, in a pass that began in `st` with the pools in `done` done. */
    method ReserveNext(
      p: string, ordered: seq<Waiter>, now: real, ghost st: M.State, ghost done: set<string>) returns (worth: real)
      requires Valid() && InOrder(cfg, waiters, ordered, now) && State() == ReservedIn(cfg, st, now, done)
      requires p in PoolsWithWaiters(cfg, st) && p !in done
      modifies this`reserved, waiters
      ensures Valid() && State() == ReservedIn(cfg, st, now, done + {p})
      ensures worth == Reservable(cfg, st, now, p)
    {
      ghost var was := State();
      ReservedInKeeps(cfg, st, now, done);
      PassBegins(was);
      ReservedInOneMore(cfg, st, now, done, p);
      hide BlockedHead, Reservable, Valid, InOrder, PassBeganIn, PoolsWithWaiters, ReservedIn, Holders, Marks,
        PoolMarks;
      worth := ReservePool(p, ordered, now, st);
    }

    lemma PassBegins(st: M.State)
      requires st == State()
      ensures PassBeganIn(st)
      ensures forall p :: st.ReservedFor(p) == Holder(ReservedForPool(p))
    {}

    /** The reservation loop over the pools that have waiters. */
    method ReserveLoop(
      pools: set<string>, ordered: seq<Waiter>, now: real, ghost st: M.State) returns (reservable: map<string, real>)
      requires Valid() && InOrder(cfg, waiters, ordered, now) && State() == st && pools == PoolsWithWaiters(cfg, st)
      modifies this`reserved, waiters
      ensures Valid() && State() == ReservedIn(cfg, st, now, pools)
      ensures reservable.Keys == pools
      ensures forall p :: p in reservable ==> reservable[p] == Reservable(cfg, st, now, p)
    {
      var todo := pools;
      reservable := map[];
      ghost var done := {};
      ReservedInNone(cfg, st, now);
      hide *;
      while todo != {}
        invariant Valid() && InOrder(cfg, waiters, ordered, now)
        invariant done + todo == pools && done !! todo && reservable.Keys == done
        invariant State() == ReservedIn(cfg, st, now, done)
        invariant forall p :: p in reservable ==> reservable[p] == Reservable(cfg, st, now, p)
        decreases todo
      {
        var p :| p in todo;
        var worth := ReserveNext(p, ordered, now, st, done);
        reservable := reservable[p := worth];
        done, todo := done + {p}, todo - {p};
      }
    }

    /** The marks and reservations that a pass starts with, and what each pool is then worth. */
    method ReserveHeads(ordered: seq<Waiter>, now: real) returns (reservable: map<string, real>)
      requires Valid() && InOrder(cfg, waiters, ordered, now)
      modifies this`reserved, waiters
      ensures Valid() && State() == Reserve(cfg, old(State()), now)
      ensures reservable.Keys == PoolsWithWaiters(cfg, old(State()))
      ensures forall p :: p in reservable ==> reservable[p] == Reservable(cfg, old(State()), now, p)
    {
      ghost var st := State();
      PoolsAgree(st);
      var pools := PoolsOfWaiters();
      ReserveInSteps(cfg, st, now);
      hide Reservable, Valid, PoolsOfWaiters, PoolsWithWaiters, Reserve, ReservedIn, State, InOrder;
      reservable := ReserveLoop(pools, ordered, now, st);
      ClearReservations(pools);
    }

    /** The first waiter in order that fits what its pool is worth. */
    method FirstFitting(
      ordered: seq<Waiter>, reservable: map<string, real>, now: real, ghost st: M.State) returns (w: Waiter?)
      requires Valid() && InOrder(cfg, waiters, ordered, now) && PassBeganIn(st)
      requires reservable.Keys == PoolsWithWaiters(cfg, st)
      requires forall p :: p in reservable ==> reservable[p] == Reservable(cfg, st, now, p)
      ensures Holder(w) == FirstFit(cfg, st, now)
      ensures w != null ==> w in waiters
    {
      w := null;
      PoolsAgree(st);
      ghost var fits := AdmittableIn(cfg, st, now);
      hide PoolsWithWaiters, Reservable, Ordered;
      for i := 0 to |ordered|
        invariant FirstWhere(ReqsOf(ordered), fits) == FirstWhere(ReqsOf(ordered)[i..], fits)
      {
        var v := ordered[i];
        assert v in waiters;
        TestsAgree(st, v);
        if Fits(v, reservable[cfg.Pool(v.req.model)]) {
          return v;
        }
        assert ReqsOf(ordered)[i..][1..] == ReqsOf(ordered)[i + 1..];
      }
    }

    /** Marks everyone who is still waiting, with what it waits for. */
    method RecordWaitReasons()
      requires Valid()
      modifies waiters
      ensures Valid() && State() == RecordWaits(cfg, old(State()))
    {
      ghost var st := State();
      Distinct();
      hide NoDup, WaitMark;
      for i := 0 to |waiters|
        invariant forall k :: 0 <= k < i ==> waiters[k].Mark() == WaitMark(cfg, st, st.queue[k])
        invariant forall k :: i <= k < |waiters| ==> waiters[k].Mark() == st.queue[k]
        invariant Valid()
      {
        RecordOne(waiters[i], st);
      }
      assert State().queue == RecordWaits(cfg, st).queue;
    }

    lemma Distinct()
      requires Valid()
      ensures forall i, j :: 0 <= i < |waiters| && 0 <= j < |waiters| && i != j ==> waiters[i] != waiters[j]
    {
      forall i, j | 0 <= i < j < |waiters| ensures waiters[i] != waiters[j] {
        assert ReqsOf(waiters)[i] != ReqsOf(waiters)[j];
      }
    }

    method RecordOne(w: Waiter, ghost st: M.State)
      requires Valid() && w in waiters && st.used == used && st.inFlight == inFlight
      requires forall p :: st.ReservedFor(p) == Holder(ReservedForPool(p))
      modifies w`waited, w`waitReason, w`waitCause
      ensures w.Mark() == WaitMark(cfg, st, old(w.Mark()))
    {
      TestsAgree(st, w);
      var p := cfg.Pool(w.req.model);
      if ReservedForPool(p) != null && ReservedForPool(p).req == w.req {
        SameWaiter(ReservedForPool(p), w);
      }
      hide NoDup, M.CapFull, M.ExclusionBlocks, CapFull, ExclusionBlocks;
      w.waited := true;
      if ReservedForPool(p) == w {
        w.waitReason := Reserved;
        return;
      }
      if CapFull(w) {
        w.waitReason, w.waitCause := ModelCap, Some(ModelCap);
      } else if ExclusionBlocks(w) {
        w.waitReason, w.waitCause := Exclusive, Some(Exclusive);
      } else {
        w.waitReason, w.waitCause := BudgetFull, Some(BudgetFull);
      }
    }

    /** Why `w` waited, as its admission will report. */
    function ReasonOf(w: Waiter, now: real): Reason
      reads this, w
    {
      if !w.waited then NoWait
      else if w.wasReserved then Reserved
      else if cfg.agingRate > 0.0 && cfg.EffectivePriority(w.req, now) - cfg.Clamped(w.req) > 0.0 then AgedIn
      else if w.waitCause.Some? then w.waitCause.value else BudgetFull
    }

    /** Takes `w` out of the waiters list. */
    method Drop(w: Waiter)
      requires NoDup(ReqsOf(waiters)) && w in waiters
      modifies this`waiters
      ensures NoDup(ReqsOf(waiters)) && Marks(waiters) == Without(old(Marks(waiters)), w.req)
      ensures waiters == Removed(old(waiters), w)
      ensures w !in waiters && |waiters| < |old(waiters)|
      ensures forall v :: v in old(waiters) && v != w ==> v in waiters
      ensures forall v :: v in waiters ==> v in old(waiters)
    {
      ghost var i := RemovedAt(waiters, w);
      WithoutAt(waiters, Marks(waiters), w, i);
      MarksSplit(waiters, i);
      RemovedMembers(waiters, w);
      hide NoDup, Removed, Without, Marks, ReqsOf;
      waiters := Removed(waiters, w);
    }

    lemma HeldBy(w: Waiter, st: M.State)
      requires Valid() && st == State() && w in waiters
      ensures ReservedForPool(cfg.Pool(w.req.model)) == w <==> st.ReservedFor(cfg.Pool(w.req.model)) == Some(w.req)
      ensures forall p :: p in reserved && reserved[p] == w ==> p == cfg.Pool(w.req.model)
    {
      var v := ReservedForPool(cfg.Pool(w.req.model));
      if v != null && v.req == w.req {
        SameWaiter(v, w);
      }
    }

    /** Takes `w` out of the waiters list and gives up its reservation, if it holds one. */
    method TakeOut(w: Waiter, ghost st: M.State)
      requires Valid() && w in waiters && State() == st
      modifies this`waiters, this`reserved
      ensures Valid() && State() == Withdrawn(cfg, st, w.req)
      ensures waiters == Removed(old(waiters), w)
      ensures w !in waiters && |waiters| < |old(waiters)|
      ensures forall v :: v in old(waiters) && v != w ==> v in waiters
      ensures forall v :: v in waiters ==> v in old(waiters)
    {
      HeldBy(w, st);
      var p := cfg.Pool(w.req.model);
      HoldersUpdate(reserved, p, null);
      hide NoDup, Without, Marks, Holders, ReqsOf;
      Drop(w);
      if ReservedForPool(p) == w {
        reserved := reserved[p := null];
      }
    }

    /** Puts one run of `r` on the ledgers. */
    method Charge(r: Request, ghost st: M.State)
      requires Valid() && State() == st
      modifies this`used, this`inFlight
      ensures Valid() && State() == Charged(cfg, st, r)
    {
      var p := cfg.Pool(r.model);
      used := used[p := UsedIn(p) + r.cost];
      inFlight := inFlight[r.model := InFlightOf(r.model) + 1];
    }

    method Admit(w: Waiter, reason: Reason, ghost st: M.State)
      requires Valid() && w in waiters && State() == st
      modifies this, w`fut, w`waitReason
      ensures Valid() && State() == M.Admit(cfg, st, w.req)
      ensures log == old(log) + [Admission(w.req, reason)]
      ensures w.waitReason == reason && w.fut == Some(true)
      ensures w !in waiters && |waiters| < |old(waiters)|
      ensures forall v :: v in old(waiters) && v != w ==> v in waiters
      ensures forall v :: v in waiters ==> v in old(waiters)
    {
      assert w.fut.None?;
      AdmitIsChargedAndTakenOut(cfg, st, w.req);
      hide NoDup, Valid, State, Removed, Withdrawn, M.Admit, Charged, Holders;
      Charge(w.req, st);
      TakeOut(w, Charged(cfg, st, w.req));
      Report(w, reason, State());
    }

    /** Tells a waiter that left the list that it is admitted, and logs it. */
    method Report(w: Waiter, reason: Reason, ghost st: M.State)
      requires Valid() && State() == st && w !in waiters && w.fut.None?
      modifies this`log, w`fut, w`waitReason
      ensures Valid() && State() == st
      ensures log == old(log) + [Admission(w.req, reason)] && w.waitReason == reason && w.fut == Some(true)
    {
      log := log + [Admission(w.req, reason)];
      w.Resolve(true, reason);
      assert Marks(waiters) == st.queue;
    }

    lemma ReasonAgrees(w: Waiter, now: real, st: M.State)
      requires Valid() && st == State() && w in waiters
      ensures w.req in st.Waiting() && ReasonOf(w, now) == ReasonFor(cfg, st.queue[IndexOf(st.queue, w.req)], now)
    {
      var i :| 0 <= i < |waiters| && waiters[i] == w;
      assert st.Waiting() == ReqsOf(waiters) && st.queue[i] == w.Mark() && st.queue[i] in st.queue;
      EntryUnique(st.queue, w.Mark());
    }

    lemma NobodyWaits(now: real, st: M.State)
      requires st == State() && |waiters| == 0
      ensures st.(reserved := Kept(st.reserved, {})) == Reserve(cfg, st, now)
    {}

    /** Reserves the heads and picks the first waiter that then fits. */
    method ChooseNext(now: real, ghost st: M.State) returns (w: Waiter?)
      requires Valid() && State() == st
      modifies this`reserved, waiters
      ensures Valid() && State() == Reserve(cfg, st, now)
      ensures Holder(w) == FirstFit(cfg, st, now)
      ensures w != null ==> w in waiters
    {
      var ordered := Sort(waiters, WaiterKey(cfg, now));
      SortByRequest(waiters, cfg, now);
      ReserveKeepsWaiting(cfg, st, now);
      assert InOrder(cfg, waiters, ordered, now);
      assert SameCore(Reserve(cfg, st, now), st);
      hide Valid, State, InOrder, Reserve, FirstFit, Sort, Reservable, PoolsWithWaiters, Ordered;
      var reservable := ReserveHeads(ordered, now);
      PassBegins(State());
      w := FirstFitting(ordered, reservable, now, st);
    }

    /** Admits the chosen waiter, for the reason it has by now. */
    method AdmitNext(w: Waiter, now: real, ghost st: M.State, ghost ws: seq<Waiter>, ghost earlier: seq<Admission>)
      requires Valid() && Left(ws, earlier) && w in waiters && State() == st && w.req in Reqs(st.queue)
      modifies this, w`fut, w`waitReason
      ensures Valid() && State() == M.Admit(cfg, st, w.req) && Left(ws, earlier)
      ensures log == old(log) + [Admission(w.req, ReasonFor(cfg, st.queue[IndexOf(st.queue, w.req)], now))]
      ensures |waiters| < |old(waiters)|
    {
      ReasonAgrees(w, now, st);
      var reason := ReasonOf(w, now);
      LogGrows(earlier, log, Admission(w.req, reason));
      hide Since, Valid, M.Admit, ReasonOf, ReasonFor, Marks, Holders, State;
      Admit(w, reason, st);
    }

    /** One pass: reserve the heads, then admit the first waiter that fits or record why nobody does. */
    method PumpPass(
      now: real, ghost st: M.State, ghost ws: seq<Waiter>, ghost earlier: seq<Admission>) returns (admitted: bool)
      requires Valid() && Left(ws, earlier) && State() == st
      modifies this, waiters
      ensures Valid() && Left(ws, earlier) && State() == OnePass(cfg, st, now).st
      ensures admitted <==> OnePass(cfg, st, now).Admits?
      ensures log == if admitted then old(log) + [OnePass(cfg, st, now).admission] else old(log)
      ensures if admitted then |waiters| < |old(waiters)| else waiters == old(waiters)
    {
      PassCases(cfg, st, now);
      hide OnePass, Valid, Reserve, RecordWaits, M.Admit, FirstFit, ReasonOf, ReasonFor, Holders;
      if |waiters| == 0 {
        NobodyWaits(now, st);
        ClearReservations({});
        return false;
      }
      var w := ChooseNext(now, st);
      if w == null {
        RecordWaitReasons();
        return false;
      }
      AdmitNext(w, now, Reserve(cfg, st, now), ws, earlier);
      return true;
    }

    /** `waiters` holds only members of `ws`; the others have been admitted since the log was
        `earlier`, for the reason they show. */
    ghost predicate Left(ws: seq<Waiter>, earlier: seq<Admission>)
      reads this, ws
    {
      && earlier <= log
      && (forall w :: w in waiters ==> w in ws)
      && forall w :: w in ws && w !in waiters ==>
           w.fut == Some(true) && Since(earlier, log, Admission(w.req, w.waitReason))
    }

    /** The admit loop. */
    method Pump(now: real, ghost st: M.State)
      requires Valid() && State() == st
      modifies this, waiters
      ensures Valid() && (State(), log) == PumpFrom(cfg, st, now, old(log))
      ensures Left(old(waiters), old(log))
    {
      var admitted := true;
      ghost var ws, earlier, end := waiters, log, PumpFrom(cfg, st, now, log);
      hide PumpFrom, OnePass, Valid, State, Since;
      while admitted
        invariant Valid() && Left(ws, earlier)
        invariant end == if admitted then PumpFrom(cfg, State(), now, log) else (State(), log)
        decreases admitted, |waiters|
      {
        PumpPasses(cfg, State(), now, log);
        assert forall i :: 0 <= i < |waiters| ==> waiters[i] in ws;
        admitted := PumpPass(now, State(), ws, earlier);
      }
    }

    // ---- the three public operations ----

    /** Appends a fresh waiter and pumps; rejects it instead if it can never fit its pool. */
    method Enqueue(w: Waiter, now: real)
      requires Valid() && w.req !in ReqsOf(waiters)
      requires w.fut.None? && w.Mark() == Fresh(w.req)
      modifies this, waiters, w
      ensures Valid() && State() == M.Enqueue(cfg, old(State()), w.req, now).0
      ensures log == old(log) + M.Enqueue(cfg, old(State()), w.req, now).1
      ensures CostFitsPool(cfg, w.req) ==> Left(old(waiters) + [w], old(log))
      ensures !CostFitsPool(cfg, w.req) ==>
                && waiters == old(waiters) && w !in waiters && w.fut == Some(false)
                && w.waitReason == CostExceedsPoolBudget
    {
      ghost var st := State();
      RequestsOfWaiters();
      if !CostFitsPool(cfg, w.req) {
        w.Resolve(false, CostExceedsPoolBudget);
        return;
      }
      Append(w, st);
      hide Valid, State, Left;
      Pump(now, st.(queue := st.queue + [Fresh(w.req)]));
    }

    lemma RequestsOfWaiters()
      ensures forall w :: w in waiters ==> w.req in ReqsOf(waiters)
      ensures forall r :: r in ReqsOf(waiters) ==> exists w :: w in waiters && w.req == r
    {
      forall w | w in waiters ensures w.req in ReqsOf(waiters) {
        var i :| 0 <= i < |waiters| && waiters[i] == w;
        assert ReqsOf(waiters)[i] == w.req;
      }
      forall r | r in ReqsOf(waiters) ensures exists w :: w in waiters && w.req == r {
        var i :| 0 <= i < |waiters| && ReqsOf(waiters)[i] == r;
        assert waiters[i] in waiters;
      }
    }

    method Append(w: Waiter, ghost st: M.State)
      requires Valid() && w.req !in ReqsOf(waiters) && w.fut.None? && w.Mark() == Fresh(w.req) && State() == st
      modifies this`waiters
      ensures Valid() && waiters == old(waiters) + [w]
      ensures State() == st.(queue := st.queue + [Fresh(w.req)])
    {
      assert ReqsOf(waiters + [w]) == ReqsOf(waiters) + [w.req];
      waiters := waiters + [w];
    }

    /** Takes a waiter that was not admitted out of the queue and pumps. Nothing else can hold a
        reservation, so for a waiter no longer queued only the pump remains. */
    method Withdraw(w: Waiter, now: real)
      requires Valid() && forall v :: v in waiters && v.req == w.req ==> v == w
      modifies this, waiters, w`cancelled
      ensures Valid() && State() == M.Withdraw(cfg, old(State()), w.req, now).0
      ensures log == old(log) + M.Withdraw(cfg, old(State()), w.req, now).1
      ensures w.cancelled && w !in waiters && w.fut == old(w.fut)
      ensures Left(Removed(old(waiters), w), old(log))
    {
      ghost var st := State();
      w.cancelled := true;
      LeavesQueue(w, st);
      Pump(now, Withdrawn(cfg, st, w.req));
    }

    method LeavesQueue(w: Waiter, ghost st: M.State)
      requires Valid() && State() == st && forall v :: v in waiters && v.req == w.req ==> v == w
      modifies this`waiters, this`reserved
      ensures Valid() && State() == Withdrawn(cfg, st, w.req) && waiters == Removed(old(waiters), w) && w !in waiters
      ensures forall i :: 0 <= i < |waiters| ==> waiters[i] in old(waiters)
    {
      WithdrawsOnlyWaiters(w, st);
      RemovedMembers(waiters, w);
      hide Removed, NoDup, Holders, Marks, Withdrawn;
      if w in waiters {
        TakeOut(w, st);
      }
    }

    lemma WithdrawsOnlyWaiters(w: Waiter, st: M.State)
      requires Valid() && st == State() && forall v :: v in waiters && v.req == w.req ==> v == w
      ensures w !in waiters ==> Withdrawn(cfg, st, w.req) == st && Removed(waiters, w) == waiters
    {
      RequestsOfWaiters();
      WaitingIsReqs();
      if w !in waiters {
        NotThere(waiters, w);
      }
    }

    /** One in-flight run of `model` is over: refunds its cost and pumps. */
    method Release(model: string, cost: Option<real>, now: real)
      requires Valid()
      modifies this, waiters
      ensures Valid() && State() == M.Release(cfg, old(State()), model, cost, now).0
      ensures log == old(log) + M.Release(cfg, old(State()), model, cost, now).1
      ensures Left(old(waiters), old(log))
    {
      ghost var st := State();
      var charged := if cost.Some? then cost.value else cfg.Cost(model);
      Refund(model, charged, st);
      Pump(now, Refunded(cfg, st, model, charged));
    }

    /** Takes one run of `model` off the ledgers. */
    method Refund(model: string, charged: real, ghost st: M.State)
      requires Valid() && State() == st
      modifies this`used, this`inFlight
      ensures Valid() && State() == Refunded(cfg, st, model, charged)
    {
      var p := cfg.Pool(model);
      used := used[p := Max(0.0, UsedIn(p) - charged)];
      inFlight := inFlight[model := if InFlightOf(model) - 1 >= 0 then InFlightOf(model) - 1 else 0];
    }
  }

  /** Where the admit loop ends from `st`, with the admissions so far in `log`. */
  ghost function PumpFrom(cfg: Config, st: M.State, now: real, log: seq<Admission>): (M.State, seq<Admission>) {
    (M.Pump(cfg, st, now).0, log + M.Pump(cfg, st, now).1)
  }

  /** A pass, by what `FirstFit` finds. */
  lemma PassCases(cfg: Config, st: M.State, now: real)
    ensures FirstFit(cfg, st, now).Some? ==> FirstFit(cfg, st, now).value in Reqs(Reserve(cfg, st, now).queue)
    ensures var s1 := Reserve(cfg, st, now);
            OnePass(cfg, st, now) ==
              if |st.queue| == 0 then Idle(s1)
              else match FirstFit(cfg, st, now)
                   case None => Idle(RecordWaits(cfg, s1))
                   case Some(r) =>
                     Admits(M.Admit(cfg, s1, r),
                            Admission(r, ReasonFor(cfg, s1.queue[IndexOf(s1.queue, r)], now)))
  {
    ReserveKeepsWaiting(cfg, st, now);
    SameCoreFirstFit(cfg, Reserve(cfg, st, now), st, now);
    hide FirstFit, RecordWaits, M.Admit, ReasonFor;
  }

  /** `x` was logged since the log was `earlier`. */
  predicate Since(earlier: seq<Admission>, log: seq<Admission>, x: Admission)
    requires earlier <= log
  {
    x in log[|earlier|..]
  }

  lemma LogGrows(a: seq<Admission>, b: seq<Admission>, x: Admission)
    requires a <= b
    ensures Since(a, b + [x], x) && forall y :: Since(a, b, y) ==> Since(a, b + [x], y)
  {
    assert (b + [x])[|a|..] == b[|a|..] + [x];
  }

  lemma PumpPasses(cfg: Config, st: M.State, now: real, log: seq<Admission>)
    ensures PumpFrom(cfg, st, now, log) ==
            match OnePass(cfg, st, now) case Idle(s) => (s, log) case Admits(s, a) => PumpFrom(cfg, s, now, log + [a])
  {
    hide OnePass;
    match OnePass(cfg, st, now)
    case Idle(s) => assert log + [] == log;
    case Admits(s, a) => assert log + ([a] + M.Pump(cfg, s, now).1) == log + [a] + M.Pump(cfg, s, now).1;
  }

  function Charged(cfg: Config, st: M.State, r: Request): M.State {
    var p := cfg.Pool(r.model);
    st.(used := st.used[p := st.Used(p) + r.cost], inFlight := st.inFlight[r.model := st.InFlight(r.model) + 1])
  }

  lemma AdmitIsChargedAndTakenOut(cfg: Config, st: M.State, r: Request)
    ensures M.Admit(cfg, st, r) == Withdrawn(cfg, Charged(cfg, st, r), r)
  {}

  /** `ws` without the first occurrence of `w`. */
  function Removed(ws: seq<Waiter>, w: Waiter): seq<Waiter> {
    if |ws| == 0 then [] else if ws[0] == w then ws[1..] else [ws[0]] + Removed(ws[1..], w)
  }

  lemma {:induction false} NotThere(ws: seq<Waiter>, w: Waiter)
    requires w !in ws
    ensures Removed(ws, w) == ws
  {
    if |ws| > 0 {
      NotThere(ws[1..], w);
    }
  }

  lemma {:induction false} RemovedAt(ws: seq<Waiter>, w: Waiter) returns (i: nat)
    requires w in ws
    ensures i < |ws| && ws[i] == w && Removed(ws, w) == ws[..i] + ws[i + 1..]
  {
    if ws[0] == w {
      i := 0;
    } else {
      var k := RemovedAt(ws[1..], w);
      i := k + 1;
    }
  }

  lemma WithoutAt(ws: seq<Waiter>, q: seq<Entry>, w: Waiter, i: nat)
    requires NoDup(ReqsOf(ws)) && Reqs(q) == ReqsOf(ws) && i < |ws| && ws[i] == w
    ensures Without(q, w.req) == q[..i] + q[i + 1..]
    ensures NoDup(ReqsOf(ws[..i] + ws[i + 1..]))
  {
    assert Reqs(q)[i] == w.req && |Reqs(q)| == |q|;
    var k := IndexOf(q, w.req);
    assert k < |q| && Reqs(q)[k] == w.req;
    assert k == i;
    var rest := ws[..i] + ws[i + 1..];
    forall a, b | 0 <= a < b < |rest| ensures ReqsOf(rest)[a] != ReqsOf(rest)[b] {
      assert ReqsOf(ws)[if a < i then a else a + 1] != ReqsOf(ws)[if b < i then b else b + 1];
    }
  }

  lemma MarksSplit(ws: seq<Waiter>, i: nat)
    requires i < |ws|
    ensures Marks(ws[..i] + ws[i + 1..]) == Marks(ws)[..i] + Marks(ws)[i + 1..]
  {}

  lemma RemovedMembers(ws: seq<Waiter>, w: Waiter)
    requires NoDup(ReqsOf(ws))
    ensures forall v :: v in Removed(ws, w) <==> v in ws && v != w
    ensures w in ws ==> |Removed(ws, w)| < |ws|
  {
    if w in ws {
      var i := RemovedAt(ws, w);
      var rest := ws[..i] + ws[i + 1..];
      forall v | v in ws && v != w ensures v in rest {
        var j :| 0 <= j < |ws| && ws[j] == v;
        assert rest[if j < i then j else j - 1] == v;
      }
      forall v | v in rest ensures v in ws && v != w {
        var j :| 0 <= j < |rest| && rest[j] == v;
        var j' := if j < i then j else j + 1;
        assert ws[j'] == v && ReqsOf(ws)[j'] != ReqsOf(ws)[i];
      }
    } else {
      NotThere(ws, w);
    }
  }
}
