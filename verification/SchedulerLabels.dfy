/** The wait labels, shown while a request waits and logged with each admission, tell the truth over every
    run. */
module SchedulerLabels {
  import opened Options
  import opened StableSort
  import opened SchedulerModel
  import opened SchedulerPump
  import opened SchedulerOrder
  import opened SchedulerRuns
  import opened SchedulerProgress

  predicate Over(cfg: Config, st: State, r: Request) {
    st.Used(cfg.Pool(r.model)) + r.cost > cfg.Budget(cfg.Pool(r.model)) + EPS
  }

  predicate Free(cfg: Config, st: State, r: Request) {
    !CapFull(cfg, st, r) && !ExclusionBlocks(cfg, st, r)
  }

  /** `r` is its pool's head and would be admitted. */
  predicate ReadyHead(cfg: Config, st: State, now: real, r: Request) {
    Head(cfg, st, now, cfg.Pool(r.model)) == Some(r) && Free(cfg, st, r) && !Over(cfg, st, r)
  }

  predicate HoldsReservation(cfg: Config, st: State, r: Request) {
    st.ReservedFor(cfg.Pool(r.model)) == Some(r)
  }

  /** The latched wait cause is never one of the two labels that come from elsewhere. */
  predicate CauseOk(e: Entry) {
    e.cause.Some? ==> e.cause.value != Reserved && e.cause.value != NoWait
  }

  /** Between passes: a marked waiter holds its pool's reservation, or is about to be admitted. */
  predicate MarkOk(cfg: Config, st: State, now: real, e: Entry) {
    e.wasReserved ==> (HoldsReservation(cfg, st, e.req) && Free(cfg, st, e.req)) || ReadyHead(cfg, st, now, e.req)
  }

  /** Relates a mark to the state `s0` in which the operation found the scheduler: an unmarked
      holder and a marked stranger are both over budget. */
  predicate OriginOk(cfg: Config, s0: State, st: State, now: real, e: Entry) {
    && (e.wasReserved ==> HoldsReservation(cfg, s0, e.req) || Over(cfg, st, e.req))
    && (HoldsReservation(cfg, s0, e.req) ==> Over(cfg, st, e.req) || (e.wasReserved && ReadyHead(cfg, st, now, e.req)))
  }

  ghost predicate Labelled(cfg: Config, s0: State, st: State, now: real) {
    forall e :: e in st.queue ==> CauseOk(e) && MarkOk(cfg, st, now, e) && OriginOk(cfg, s0, st, now, e)
  }

  /** Between operations every queued waiter has waited, and carries the mark exactly when it holds
      its pool's reservation. */
  ghost predicate LabelsTrue(cfg: Config, st: State) {
    forall e :: e in st.queue ==> CauseOk(e) && e.waited && (e.wasReserved <==> HoldsReservation(cfg, st, e.req))
  }

  lemma SameCoreReady(cfg: Config, a: State, b: State, now: real, r: Request)
    requires AgreeIn(cfg, a, b, cfg.Pool(r.model))
    ensures Free(cfg, a, r) == Free(cfg, b, r) && Over(cfg, a, r) == Over(cfg, b, r)
    ensures ReadyHead(cfg, a, now, r) == ReadyHead(cfg, b, now, r)
  {
    AgreeHeads(cfg, a, b, now, cfg.Pool(r.model));
    AgreeBlocks(cfg, a, b, r);
  }

  /** After the reservation step of a pass a marked waiter is its pool's head, reserved or ready. */
  predicate HeadMarkOk(cfg: Config, st: State, now: real, e: Entry) {
    e.wasReserved ==>
      || (HoldsReservation(cfg, st, e.req) && Head(cfg, st, now, cfg.Pool(e.req.model)) == Some(e.req)
          && Free(cfg, st, e.req))
      || ReadyHead(cfg, st, now, e.req)
  }

  lemma ReserveMarkOk(cfg: Config, s0: State, st: State, s1: State, now: real, e: Entry)
    requires s1 == Reserve(cfg, st, now)
    requires MarkOk(cfg, st, now, e) && OriginOk(cfg, s0, st, now, e)
    ensures HeadMarkOk(cfg, s1, now, ReserveMark(cfg, st, now, e))
    ensures OriginOk(cfg, s0, s1, now, ReserveMark(cfg, st, now, e))
    ensures HoldsReservation(cfg, s1, e.req) ==> ReserveMark(cfg, st, now, e).wasReserved
  {
    var p := cfg.Pool(e.req.model);
    ReserveKeepsWaiting(cfg, st, now);
    SameCoreAgrees(cfg, s1, st, p);
    SameCoreReady(cfg, s1, st, now, e.req);
    SameCoreAt(cfg, s1, st, now, p);
    ReserveFor(cfg, st, now, p);
    hide CapFull, ExclusionBlocks, Head, Reserve, AgreeIn;
  }

  lemma EntryAfterReserve(cfg: Config, st: State, now: real, e: Entry) returns (e0: Entry)
    requires e in Reserve(cfg, st, now).queue
    ensures e0 in st.queue && e == ReserveMark(cfg, st, now, e0) && e0.req == e.req
    ensures e0.waited == e.waited && e0.cause == e.cause
  {
    var i :| 0 <= i < |st.queue| && Reserve(cfg, st, now).queue[i] == e;
    e0 := st.queue[i];
  }

  lemma ReserveLabelled(cfg: Config, s0: State, st: State, now: real, e: Entry)
    requires Labelled(cfg, s0, st, now) && e in Reserve(cfg, st, now).queue
    ensures CauseOk(e) && HeadMarkOk(cfg, Reserve(cfg, st, now), now, e)
    ensures OriginOk(cfg, s0, Reserve(cfg, st, now), now, e)
    ensures HoldsReservation(cfg, Reserve(cfg, st, now), e.req) ==> e.wasReserved
  {
    var e0 := EntryAfterReserve(cfg, st, now, e);
    ReserveMarkOk(cfg, s0, st, Reserve(cfg, st, now), now, e0);
  }

  lemma WaitMarkLabels(cfg: Config, st: State, e: Entry)
    ensures var m := WaitMark(cfg, st, e);
            m.req == e.req && m.waited && m.wasReserved == e.wasReserved && (CauseOk(e) ==> CauseOk(m))
  {}

  lemma IdleEntry(cfg: Config, s0: State, st: State, now: real, e: Entry)
    requires Labelled(cfg, s0, st, now) && e in Reserve(cfg, st, now).queue
    requires FirstFit(cfg, Reserve(cfg, st, now), now) == None
    ensures CauseOk(e) && (e.wasReserved <==> HoldsReservation(cfg, Reserve(cfg, st, now), e.req))
  {
    var s1 := Reserve(cfg, st, now);
    ReserveLabelled(cfg, s0, st, now, e);
    EntryWaits(s1, e);
    if ReadyHead(cfg, s1, now, e.req) {
      ReadyIsAdmittable(cfg, s1, now, e.req);
    }
  }

  lemma ReadyIsAdmittable(cfg: Config, st: State, now: real, r: Request)
    requires ReadyHead(cfg, st, now, r)
    ensures Admittable(cfg, st, now, r)
  {}

  lemma EntryWaits(st: State, e: Entry)
    requires e in st.queue
    ensures e.req in st.Waiting()
  {
    var i :| 0 <= i < |st.queue| && st.queue[i] == e;
    assert st.Waiting()[i] == e.req;
  }

  /** The last pass leaves true labels behind. */
  lemma IdleLabels(cfg: Config, s0: State, st: State, now: real)
    requires Labelled(cfg, s0, st, now) && OnePass(cfg, st, now).Idle?
    ensures LabelsTrue(cfg, OnePass(cfg, st, now).st)
  {
    var s1 := Reserve(cfg, st, now);
    if |st.queue| > 0 {
      var s := RecordWaits(cfg, s1);
      forall e | e in s.queue
        ensures CauseOk(e) && e.waited && (e.wasReserved <==> HoldsReservation(cfg, s, e.req))
      {
        var i :| 0 <= i < |s1.queue| && e == s.queue[i];
        WaitMarkLabels(cfg, s1, s1.queue[i]);
        IdleEntry(cfg, s0, st, now, s1.queue[i]);
      }
    }
  }

  lemma AdmitMonotone(cfg: Config, st: State, r: Request, q: Request)
    requires r.cost > 0.0 && Over(cfg, st, q)
    ensures Over(cfg, Admit(cfg, st, r), q)
  {}

  lemma AdmitReserved(cfg: Config, st: State, r: Request, q: Request)
    requires cfg.Pool(q.model) != cfg.Pool(r.model)
    ensures HoldsReservation(cfg, Admit(cfg, st, r), q) == HoldsReservation(cfg, st, q)
  {}

  /** Admitting `r` keeps the labels of those still waiting. */
  lemma AdmitLabelled(cfg: Config, s0: State, s1: State, now: real, r: Request, e: Entry)
    requires Orderly(s1) && FirstFit(cfg, s1, now) == Some(r)
    requires e in Admit(cfg, s1, r).queue && e in s1.queue && e.req != r
    requires HeadMarkOk(cfg, s1, now, e) && OriginOk(cfg, s0, s1, now, e)
    ensures MarkOk(cfg, Admit(cfg, s1, r), now, e) && OriginOk(cfg, s0, Admit(cfg, s1, r), now, e)
  {
    var p := cfg.Pool(e.req.model);
    if Over(cfg, s1, e.req) {
      AdmitMonotone(cfg, s1, r, e.req);
    }
    if cfg.Pool(r.model) == p {
      if e.wasReserved {
        PassAdmitsHead(cfg, s1, now, e.req, r);
      }
    } else {
      AdmitElsewhere(cfg, s1, r, p);
      SameCoreReady(cfg, Admit(cfg, s1, r), s1, now, e.req);
      AdmitReserved(cfg, s1, r, e.req);
      hide Free, Over, ReadyHead, Head, Admit, HoldsReservation;
    }
  }

  /** An admission's label against the state the operation started from. */
  ghost predicate ReasonTrue(cfg: Config, s0: State, arrived: Option<Request>, a: Admission) {
    && (a.reason == NoWait <==> arrived == Some(a.req))
    && (a.reason == Reserved <==> HoldsReservation(cfg, s0, a.req))
  }

  ghost predicate WaitedBut(st: State, arrived: Option<Request>) {
    forall e :: e in st.queue ==> (e.waited <==> arrived != Some(e.req))
  }

  lemma AdmitReason(cfg: Config, s0: State, st: State, now: real, arrived: Option<Request>, r: Request)
    requires Labelled(cfg, s0, st, now) && Orderly(st) && WaitedBut(st, arrived)
    requires arrived.Some? ==> !HoldsReservation(cfg, s0, arrived.value)
    requires FirstFit(cfg, Reserve(cfg, st, now), now) == Some(r)
    ensures var s1 := Reserve(cfg, st, now);
            ReasonTrue(cfg, s0, arrived, Admission(r, ReasonFor(cfg, s1.queue[IndexOf(s1.queue, r)], now)))
  {
    var s1 := Reserve(cfg, st, now);
    ReserveKeepsWaiting(cfg, st, now);
    var e := EntryOf(s1.queue, r);
    ReserveLabelled(cfg, s0, st, now, e);
    var e0 := EntryAfterReserve(cfg, st, now, e);
    ReservableAtMostBudget(cfg, s1, now, cfg.Pool(r.model));
    assert !Over(cfg, s1, r);
  }

  lemma PassLabels(cfg: Config, s0: State, st: State, now: real, arrived: Option<Request>)
    requires Labelled(cfg, s0, st, now) && Orderly(st) && WaitedBut(st, arrived)
    requires arrived.Some? ==> !HoldsReservation(cfg, s0, arrived.value)
    requires OnePass(cfg, st, now).Admits?
    ensures var pass := OnePass(cfg, st, now);
            && Labelled(cfg, s0, pass.st, now) && WaitedBut(pass.st, arrived)
            && ReasonTrue(cfg, s0, arrived, pass.admission)
  {
    var s1 := Reserve(cfg, st, now);
    ReserveKeepsWaiting(cfg, st, now);
    var r := FirstFit(cfg, s1, now).value;
    AdmitReason(cfg, s0, st, now, arrived, r);
    WithoutEntries(s1.queue, r);
    var s := Admit(cfg, s1, r);
    forall e | e in s.queue
      ensures CauseOk(e) && MarkOk(cfg, s, now, e) && OriginOk(cfg, s0, s, now, e)
      ensures e.waited <==> arrived != Some(e.req)
    {
      assert e in s1.queue && e.req != r;
      ReserveLabelled(cfg, s0, st, now, e);
      AdmitLabelled(cfg, s0, s1, now, r, e);
      var e0 := EntryAfterReserve(cfg, st, now, e);
    }
  }

  lemma {:induction false} PumpLabels(cfg: Config, s0: State, st: State, now: real, arrived: Option<Request>)
    requires Labelled(cfg, s0, st, now) && Orderly(st) && WaitedBut(st, arrived)
    requires arrived.Some? ==> !HoldsReservation(cfg, s0, arrived.value)
    ensures LabelsTrue(cfg, Pump(cfg, st, now).0)
    ensures forall a :: a in Pump(cfg, st, now).1 ==> ReasonTrue(cfg, s0, arrived, a)
    decreases |st.queue|
  {
    PassKeepsOrderly(cfg, st, now);
    if OnePass(cfg, st, now).Admits? {
      PassLabels(cfg, s0, st, now, arrived);
      PumpLabels(cfg, s0, OnePass(cfg, st, now).st, now, arrived);
    } else {
      IdleLabels(cfg, s0, st, now);
    }
    hide OnePass, Orderly, Labelled, WaitedBut, LabelsTrue, ReasonTrue;
  }

  // ---- operations and runs ----

  function Arrival(e: Event): Option<Request> {
    if e.Arrive? then Some(e.r) else None
  }

  lemma OldEntry(cfg: Config, w: World, e: Event, x: Entry)
    requires Good(cfg, w) && LabelsTrue(cfg, w.st) && Prepare(cfg, w, e).Some?
    requires x in Prepare(cfg, w, e).value.queue && Arrival(e) != Some(x.req)
    ensures x in w.st.queue && x.waited && CauseOk(x)
    ensures x.wasReserved <==> HoldsReservation(cfg, w.st, x.req)
    ensures HoldsReservation(cfg, Prepare(cfg, w, e).value, x.req) == HoldsReservation(cfg, w.st, x.req)
  {
    assert NoDup(w.st.Waiting()) by { assert Tidy(cfg, w.st, w.running, w.clock); }
    hide Good, Without, NoDup, CostFitsPool;
    if e.Cancel? {
      WithoutEntries(w.st.queue, e.r);
    }
  }

  lemma OldEntryLabels(cfg: Config, w: World, e: Event, x: Entry)
    requires Good(cfg, w) && LabelsTrue(cfg, w.st) && Enabled(w, e) && Prepare(cfg, w, e).Some?
    requires x in Prepare(cfg, w, e).value.queue && Arrival(e) != Some(x.req)
    ensures var st := Prepare(cfg, w, e).value;
            MarkOk(cfg, st, e.now, x) && OriginOk(cfg, w.st, st, e.now, x)
  {
    var st := Prepare(cfg, w, e).value;
    OldEntry(cfg, w, e, x);
    if HoldsReservation(cfg, w.st, x.req) {
      ReservedIsBlockedHead(cfg, w, x.req);
      PrepareKeepsFree(cfg, w, e, x.req);
      if e.Finish? {
        DecisionsLater(cfg, w.st, w.clock, e.now, cfg.Pool(x.req.model));
        assert st.Waiting() == w.st.Waiting();
      } else {
        assert st.used == w.st.used;
      }
    }
  }

  lemma PrepareLabels(cfg: Config, w: World, e: Event)
    requires Good(cfg, w) && LabelsTrue(cfg, w.st) && Enabled(w, e) && Prepare(cfg, w, e).Some?
    ensures var st := Prepare(cfg, w, e).value;
            Labelled(cfg, w.st, st, e.now) && WaitedBut(st, Arrival(e))
    ensures Arrival(e).Some? ==> !HoldsReservation(cfg, w.st, Arrival(e).value)
  {
    var st := Prepare(cfg, w, e).value;
    if e.Arrive? && HoldsReservation(cfg, w.st, e.r) {
      ReservedIsBlockedHead(cfg, w, e.r);
    }
    forall x | x in st.queue
      ensures CauseOk(x) && MarkOk(cfg, st, e.now, x) && OriginOk(cfg, w.st, st, e.now, x)
      ensures x.waited <==> Arrival(e) != Some(x.req)
    {
      if Arrival(e) == Some(x.req) {
        if x in w.st.queue {
          EntryWaits(w.st, x);
        }
        assert x == Fresh(e.r);
      } else {
        OldEntry(cfg, w, e, x);
        OldEntryLabels(cfg, w, e, x);
      }
    }
  }

  /** Labels are truthful: a request is admitted as "none" exactly when it is admitted inside its own
      enqueue call, and as "reserved" exactly when it was the reserved head in the settled state just
      before the admitting operation; and those still queued are marked exactly if they hold it now. */
  lemma StepLabels(cfg: Config, w: World, e: Event)
    requires Good(cfg, w) && LabelsTrue(cfg, w.st) && Enabled(w, e)
    ensures LabelsTrue(cfg, Step(cfg, w, e).0.st)
    ensures forall a :: a in Step(cfg, w, e).1 ==>
              && (a.reason == NoWait <==> e.Arrive? && e.r == a.req)
              && (a.reason == Reserved <==> w.st.ReservedFor(cfg.Pool(a.req.model)) == Some(a.req))
  {
    StepIsPump(cfg, w, e);
    if Prepare(cfg, w, e).Some? {
      PrepareLabels(cfg, w, e);
      PrepareSafe(cfg, w, e);
      PumpLabels(cfg, w.st, Prepare(cfg, w, e).value, e.now, Arrival(e));
    }
  }

  lemma {:induction false} LabelsOverRuns(cfg: Config, w: World, evs: seq<Event>)
    requires Good(cfg, w) && LabelsTrue(cfg, w.st) && Valid(cfg, w, evs)
    ensures LabelsTrue(cfg, After(cfg, w, evs).st)
    decreases |evs|
  {
    hide Good, LabelsTrue, Step, Enabled;
    if |evs| > 0 {
      StepLabels(cfg, w, evs[0]);
      StepGood(cfg, w, evs[0]);
      LabelsOverRuns(cfg, Step(cfg, w, evs[0]).0, evs[1..]);
    }
  }

  // ---- every label, exactly ----

  /** What stands against `r` in state `st`, in the order the source attributes it. */
  function Blocker(cfg: Config, st: State, r: Request): Reason {
    if CapFull(cfg, st, r) then ModelCap
    else if ExclusionBlocks(cfg, st, r) then Exclusive
    else BudgetFull
  }

  /** The reason with which `r` is rightly admitted by operation `e`. */
  function TrueReason(cfg: Config, w: World, e: Event, r: Request): Reason {
    if e.Arrive? && e.r == r then NoWait
    else if HoldsReservation(cfg, w.st, r) then Reserved
    else if cfg.agingRate > 0.0 && e.now > r.enqueuedAt then AgedIn
    else Blocker(cfg, w.st, r)
  }

  /** The reason comes from a queue entry of `st`, but for its reservation mark. */
  ghost predicate FromEntry(cfg: Config, st: State, now: real, a: Admission) {
    exists x: Entry, b: bool :: x in st.queue && x.req == a.req && a.reason == ReasonFor(cfg, x.(wasReserved := b), now)
  }

  /** Every entry of `st'` is one of `st`, but for its reservation mark. */
  ghost predicate EntriesFrom(st: State, st': State) {
    forall y :: y in st'.queue ==> exists x: Entry :: x in st.queue && y == x.(wasReserved := y.wasReserved)
  }

  lemma ReserveEntries(cfg: Config, st: State, now: real)
    ensures EntriesFrom(st, Reserve(cfg, st, now))
  {
    var s1 := Reserve(cfg, st, now);
    forall y | y in s1.queue ensures exists x: Entry :: x in st.queue && y == x.(wasReserved := y.wasReserved) {
      var x := EntryAfterReserve(cfg, st, now, y);
      assert y == ReserveMark(cfg, st, now, x);
    }
  }

  lemma PassReasons(cfg: Config, st: State, now: real)
    requires NoDup(st.Waiting())
    ensures var pass := OnePass(cfg, st, now);
            pass.Admits? ==>
              FromEntry(cfg, st, now, pass.admission) && EntriesFrom(st, pass.st) && NoDup(pass.st.Waiting())
  {
    var s1 := Reserve(cfg, st, now);
    ReserveKeepsWaiting(cfg, st, now);
    ReserveEntries(cfg, st, now);
    match OnePass(cfg, st, now)
    case Idle(_) =>
    case Admits(s, a) =>
      var r := a.req;
      WithoutEntries(s1.queue, r);
      WithoutReqs(s1.queue, r);
      var y := s1.queue[IndexOf(s1.queue, r)];
      assert y in s1.queue;
      var x: Entry :| x in st.queue && y == x.(wasReserved := y.wasReserved);
      assert a.reason == ReasonFor(cfg, x.(wasReserved := y.wasReserved), now);
  }

  lemma FromEarlierEntry(cfg: Config, st: State, st': State, now: real, a: Admission)
    requires EntriesFrom(st, st') && FromEntry(cfg, st', now, a)
    ensures FromEntry(cfg, st, now, a)
  {
    var y: Entry, b: bool :| y in st'.queue && y.req == a.req && a.reason == ReasonFor(cfg, y.(wasReserved := b), now);
    var x: Entry :| x in st.queue && y == x.(wasReserved := y.wasReserved);
    assert y.(wasReserved := b) == x.(wasReserved := b);
  }

  lemma {:induction false} PumpReasons(cfg: Config, st: State, now: real)
    requires NoDup(st.Waiting())
    ensures forall a :: a in Pump(cfg, st, now).1 ==> FromEntry(cfg, st, now, a)
    decreases |st.queue|
  {
    PassReasons(cfg, st, now);
    hide OnePass, FromEntry, EntriesFrom, NoDup;
    match OnePass(cfg, st, now)
    case Idle(_) =>
    case Admits(s, a) =>
      PumpReasons(cfg, s, now);
      forall x | x in Pump(cfg, s, now).1 ensures FromEntry(cfg, st, now, x) {
        FromEarlierEntry(cfg, st, s, now, x);
      }
  }

  lemma AgedIffWaited(cfg: Config, r: Request, now: real)
    requires cfg.agingRate > 0.0
    ensures cfg.EffectivePriority(r, now) - cfg.Clamped(r) > 0.0 <==> now > r.enqueuedAt
  {
    if now > r.enqueuedAt {
      assert cfg.agingRate * (now - r.enqueuedAt) > 0.0;
    }
  }

  /** In a settled state a queued waiter carries what stands against it, unless it holds the reservation. */
  lemma SettledCause(cfg: Config, st: State, now: real, x: Entry)
    requires Settled(cfg, st, now) && x in st.queue
    ensures x.waited && (!HoldsReservation(cfg, st, x.req) ==> x.cause == Some(Blocker(cfg, st, x.req)))
  {
    SettledParts(cfg, st, now);
    var i :| 0 <= i < |st.queue| && st.queue[i] == x;
    assert RecordWaits(cfg, st).queue[i] == x;
  }

  lemma ReasonOfEntry(cfg: Config, w: World, e: Event, a: Admission, x: Entry, b: bool)
    requires a.reason == ReasonFor(cfg, x.(wasReserved := b), e.now) && x.req == a.req && x.waited
    requires !HoldsReservation(cfg, w.st, a.req) ==> x.cause == Some(Blocker(cfg, w.st, a.req))
    requires a.reason == NoWait <==> e.Arrive? && e.r == a.req
    requires a.reason == Reserved <==> HoldsReservation(cfg, w.st, a.req)
    ensures a.reason == TrueReason(cfg, w, e, a.req)
  {
    if cfg.agingRate > 0.0 {
      AgedIffWaited(cfg, a.req, e.now);
    }
    hide CapFull, ExclusionBlocks, HoldsReservation, Config.EffectivePriority;
  }

  /** Every label of every admission, exactly: "none" for the arrival that starts the operation; else
      "reserved" for whoever held its pool's reservation; else "aged_in" for whoever waited with aging
      on; else what stood against it in the settled state just before: its cap, the mutex, the budget. */
  lemma ReasonsAreTrue(cfg: Config, w: World, e: Event)
    requires Good(cfg, w) && LabelsTrue(cfg, w.st) && Enabled(w, e)
    ensures forall a :: a in Step(cfg, w, e).1 ==> a.reason == TrueReason(cfg, w, e, a.req)
  {
    StepLabels(cfg, w, e);
    StepIsPump(cfg, w, e);
    forall a | a in Step(cfg, w, e).1 ensures a.reason == TrueReason(cfg, w, e, a.req) {
      if !(e.Arrive? && e.r == a.req) {
        var st := Prepare(cfg, w, e).value;
        PrepareSafe(cfg, w, e);
        PumpReasons(cfg, st, e.now);
        var x: Entry, b: bool :|
          x in st.queue && x.req == a.req && a.reason == ReasonFor(cfg, x.(wasReserved := b), e.now);
        PreparedEntry(cfg, w, e, x);
        SettledCause(cfg, w.st, w.clock, x);
        ReasonOfEntry(cfg, w, e, a, x, b);
      }
    }
  }

  lemma PreparedEntry(cfg: Config, w: World, e: Event, x: Entry)
    requires Good(cfg, w) && Enabled(w, e) && Prepare(cfg, w, e).Some? && x in Prepare(cfg, w, e).value.queue
    ensures x in w.st.queue || (e.Arrive? && x == Fresh(e.r))
  {
    if e.Cancel? {
      WithoutEntries(w.st.queue, e.r);
    }
    hide Good, Enabled, Without;
  }

  // ---- the label shown while waiting ----

  /** What the queued `x` shows, told from the runs in flight: "reserved" for the holder of its pool's
      reservation; else "model_cap" if as many runs of its model are in flight as its cap allows; else
      "exclusive" if its pool is exclusive and busy with another model; else "budget_full". */
  ghost predicate ShownTruly(cfg: Config, w: World, x: Entry) {
    var m, p := x.req.model, cfg.Pool(x.req.model);
    var full := m in cfg.caps && Count(w.running, m) >= cfg.caps[m];
    var busy := exists r :: r in w.running && cfg.Pool(r.model) == p;
    var foreign := p in cfg.poolExclusive && busy &&
                   forall r :: r in w.running && cfg.Pool(r.model) == p ==> r.model != m;
    && (w.st.ReservedFor(p) == Some(x.req) ==> x.reason == Reserved)
    && (w.st.ReservedFor(p) != Some(x.req) ==>
          && (full ==> x.reason == ModelCap)
          && (!full && foreign ==> x.reason == Exclusive)
          && (!full && !foreign ==> x.reason == BudgetFull))
  }

  lemma SettledLabel(cfg: Config, st: State, now: real, x: Entry)
    requires Settled(cfg, st, now) && x in st.queue
    ensures HoldsReservation(cfg, st, x.req) ==> x.reason == Reserved
    ensures !HoldsReservation(cfg, st, x.req) ==>
              && (CapFull(cfg, st, x.req) ==> x.reason == ModelCap)
              && (!CapFull(cfg, st, x.req) && ExclusionBlocks(cfg, st, x.req) ==> x.reason == Exclusive)
              && (!CapFull(cfg, st, x.req) && !ExclusionBlocks(cfg, st, x.req) ==> x.reason == BudgetFull)
  {
    SettledParts(cfg, st, now);
    var i :| 0 <= i < |st.queue| && st.queue[i] == x;
    assert RecordWaits(cfg, st).queue[i] == x;
  }

  /** The marking step leaves the latched cause of a reservation's holder alone, and without a latched
      cause a waiter that waited is attributed to the budget. */
  lemma CauseLatches(cfg: Config, st: State, e: Entry, now: real)
    ensures HoldsReservation(cfg, st, e.req) ==> WaitMark(cfg, st, e).cause == e.cause
    ensures e.waited && !e.wasReserved && cfg.agingRate <= 0.0 ==>
              ReasonFor(cfg, e, now) == match e.cause case Some(c) => c case None => BudgetFull
  {}

  lemma TestsCountRuns(cfg: Config, st: State, running: seq<Request>, r: Request)
    requires Ledger(cfg, st, running)
    ensures CapFull(cfg, st, r) <==> r.model in cfg.caps && Count(running, r.model) >= cfg.caps[r.model]
    ensures ExclusionBlocks(cfg, st, r) <==>
            && cfg.Pool(r.model) in cfg.poolExclusive
            && (exists s :: s in running && cfg.Pool(s.model) == cfg.Pool(r.model))
            && forall s :: s in running && cfg.Pool(s.model) == cfg.Pool(r.model) ==> s.model != r.model
  {
    var p := cfg.Pool(r.model);
    ActiveMembersExact(cfg, st, p);
    CountMembers(running, r.model);
    if m :| m in ActiveMembers(cfg, st, p) {
      CountMembers(running, m);
    }
    if s :| s in running && cfg.Pool(s.model) == p {
      CountMembers(running, s.model);
      assert s.model in ActiveMembers(cfg, st, p);
    }
  }

  /** Between operations every queued waiter shows why it waits; and one that shows "budget_full" is over
      the remaining budget, or its pool is reserved for somebody else. */
  lemma QueuedLabels(cfg: Config, w: World, x: Entry)
    requires Good(cfg, w) && x in w.st.queue
    ensures ShownTruly(cfg, w, x)
    ensures x.reason == BudgetFull ==> Over(cfg, w.st, x.req) || w.st.ReservedFor(cfg.Pool(x.req.model)).Some?
  {
    EntryWaits(w.st, x);
    SettledLabel(cfg, w.st, w.clock, x);
    TestsCountRuns(cfg, w.st, w.running, x.req);
    SettledAtRest(cfg, w.st, w.clock, cfg.Pool(x.req.model));
    HeadProps(cfg, w.st, w.clock, cfg.Pool(x.req.model));
  }

  lemma QueuedLabelsOverRuns(cfg: Config, clock: real, evs: seq<Event>)
    requires Valid(cfg, Start(clock), evs)
    ensures var w := After(cfg, Start(clock), evs); forall x :: x in w.st.queue ==> ShownTruly(cfg, w, x)
  {
    StartGood(cfg, clock);
    EveryRunIsGood(cfg, Start(clock), evs);
    var w := After(cfg, Start(clock), evs);
    hide Good, ShownTruly;
    forall x | x in w.st.queue ensures ShownTruly(cfg, w, x) {
      QueuedLabels(cfg, w, x);
    }
  }
}
