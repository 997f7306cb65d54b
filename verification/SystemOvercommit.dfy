/** Runs in which more is reserved than the device has, and exactly when there is one. */
module SystemOvercommit {
  import opened Types
  import opened Admission
  import opened RuntimeStatus
  import opened Scheduler
  import opened Ledger
  import opened ClientLoop
  import LedgerLaws
  import opened System
  import opened SystemLaws
  import opened SystemRuns
  import opened SystemGate
  import opened SystemCapacity
  import opened SystemFrozen
  import opened SystemRounds

  // ---------------------------------------------------------------- loads of boot that fail

  /** From y to r exactly these clients failed. */
  ghost predicate FailedFrom(y: Sys, r: Sys, failed: set<Model>) {
    && r == y.(clients := r.clients) && r.clients.Keys == y.clients.Keys
    && forall id :: id in y.clients ==>
         if id in failed then r.clients[id].state.Failed? else r.clients[id] == y.clients[id]
  }

  lemma OpEndsFailed(y: Sys, c: Model)
    requires c in y.clients && ClientInv(ClientOf(y, c)) && ClientOf(y, c).op.Some? && !ClientOf(y, c).stopping
    requires y.s.out.loads == []
    ensures Possible(y, OpReturns(c, Some(Uncoded)))
    ensures FailedFrom(y, Next(y, OpReturns(c, Some(Uncoded)), {}), {c})
  {
    hide HostOf, CallsInv;
    assert AnswerLoads(y.s, c, Some(Uncoded)) == y.s;
  }

  lemma FailedRests(y: Sys, doubt: set<Model>, next: nat, c: Model, r: Sys)
    requires FailedFrom(y, r, {c}) && c in y.clients && Slots(y.s.work, c) == 0
    requires AtRest(y, doubt, next) && CInv(r)
    ensures AtRest(r, doubt + {c}, next)
  {
    hide CInv, Slots;
  }

  lemma OneLoadFails(y: Sys, doubt: set<Model>, next: nat, c: Model) returns (r: Sys)
    requires c in y.clients && ClientOf(y, c).state.Starting? && Slots(y.s.work, c) == 0
    requires AtRest(y, doubt, next)
    ensures AtRest(r, doubt + {c}, next) && FailedFrom(y, r, {c}) && forall total :: Reaches(y, r, total)
  {
    hide CInv, ClientInv, Possible, Next, Reaches, Slots, FailedFrom;
    var e := OpReturns(c, Some(Uncoded));
    assert y.s.out.loads == [] by { hide CInv; }
    StoppingFacts(y, c);
    OpEndsFailed(y, c);
    Keeps(y, e, {});
    r := Next(y, e, {});
    FailedRests(y, doubt, next, c, r);
    forall total: int
      ensures Reaches(y, r, total)
    {
      ReachesItself(r, total);
      assert Samples(e, total);
      ReachesFirst(y, e, r, total);
    }
  }

  lemma NoneFailed(y: Sys)
    ensures FailedFrom(y, y, {})
  {
  }

  lemma StillLoading(y: Sys, r: Sys, c: Model, loading: set<Model>)
    requires FailedFrom(y, r, {c})
    requires forall k :: k in loading ==> k in y.clients && ClientOf(y, k).state.Starting? && Slots(y.s.work, k) == 0
    ensures forall k :: k in loading - {c} ==>
              k in r.clients && ClientOf(r, k).state.Starting? && Slots(r.s.work, k) == 0
  {
    hide Slots;
  }

  lemma FailedOn(y: Sys, m: Sys, r: Sys, c: Model, loading: set<Model>)
    requires FailedFrom(y, m, {c}) && FailedFrom(m, r, loading - {c}) && c in loading
    ensures FailedFrom(y, r, loading)
  {
  }

  lemma {:induction false} LoadsFail(y: Sys, doubt: set<Model>, next: nat, loading: set<Model>) returns (r: Sys)
    requires forall c :: c in loading ==> c in y.clients && ClientOf(y, c).state.Starting? && Slots(y.s.work, c) == 0
    requires AtRest(y, doubt, next)
    ensures AtRest(r, doubt + loading, next) && FailedFrom(y, r, loading) && forall total :: Reaches(y, r, total)
    decreases |loading|
  {
    hide AtRest, Reaches, Slots, FailedFrom, Next, Possible;
    if loading == {} {
      NoneFailed(y);
      assert doubt + loading == doubt;
      forall total: int ensures Reaches(y, y, total) { ReachesItself(y, total); }
      return y;
    }
    var c :| c in loading;
    var y1 := OneLoadFails(y, doubt, next, c);
    StillLoading(y, y1, c, loading);
    r := LoadsFail(y1, doubt + {c}, next, loading - {c});
    assert doubt + {c} + (loading - {c}) == doubt + loading;
    FailedOn(y, y1, r, c, loading);
    forall total: int ensures Reaches(y, r, total) { ReachesOn(y, y1, r, total); }
  }

  // ---------------------------------------------------------------- every doubt is raised

  function QuestionAt(y: Sys): set<Model> {
    set m | m in y.clients && InQuestion(y.clients[m].state)
  }

  function LoadingAt(y: Sys): set<Model> {
    set m | m in y.clients && y.clients[m].state.Starting?
  }

  lemma QuestionsSplit(y: Sys)
    ensures DoubtAt(y) + LoadingAt(y) == QuestionAt(y)
  {
  }

  /** After boot every load of boot can fail. */
  lemma BootFails(y: Sys) returns (r: Sys)
    requires Boot(y)
    ensures AtRest(r, QuestionAt(y), 1) && FailedFrom(y, r, LoadingAt(y)) && forall total :: Reaches(y, r, total)
  {
    hide Boot, AtRest, Reaches, Slots, Busy, FailedFrom, QuestionAt, DoubtAt;
    BootRests(y);
    BootFresh(y);
    QuestionsSplit(y);
    r := LoadsFail(y, DoubtAt(y), 1, LoadingAt(y));
  }

  lemma RaisedTotal(y: Sys, r: Sys)
    requires LedgerLaws.LedgerOK(r.l) && r.l.cfg == y.l.cfg
    requires forall m :: m in QuestionAt(y) && m in y.l.cfg.models ==>
              m in r.l.reserved && r.l.reserved[m] >= y.l.cfg.models[m].peak
    ensures Total(Doubted(y)) <= Total(r.l.reserved)
  {
    assert BudgetOK(y.l.cfg);
    TotalAtMost(Doubted(y), r.l.reserved);
  }

  /** Recovery can come to hold the peaks of all models that were loading, failed or unknown at boot at once. */
  lemma DoubtsAreRaised(y: Sys) returns (r: Sys)
    requires Boot(y)
    ensures r.l.cfg == y.l.cfg && Total(Doubted(y)) <= Total(r.l.reserved) && forall total :: Reaches(y, r, total)
  {
    hide Boot, AtRest, Reaches, QuestionAt, Slots, Total, LedgerLaws.LedgerOK, CInv;
    var y1 := BootFails(y);
    var next;
    r, next := DoubtsSettle(y1, QuestionAt(y), QuestionAt(y), 1);
    RestLedger(r, QuestionAt(y) - QuestionAt(y), next);
    RaisedTotal(y, r);
    forall total: int ensures Reaches(y, r, total) { ReachesOn(y, y1, r, total); }
  }

  // ---------------------------------------------------------------- rounds of failed unloads

  /** Ready since boot, never used, with no calls. */
  ghost predicate Untouched(y: Sys, v: Model) {
    && v in y.clients && y.clients[v].state.Ready? && !Busy(y.s.work, v)
    && TimeOf(y.l.lastUse, v) == 0 && TimeOf(y.l.loadedAt, v) == 0
  }

  /** A model whose peak the planner counts, and that has one. */
  ghost predicate Counted(y: Sys, t: Model, p: Model) {
    && p in y.clients && p in y.l.cfg.models && y.l.cfg.models[p].peak > 0
    && (p == t || (y.clients[p].state.Ready? && (p in y.l.reserved ==> LedgerLaws.AtPeak(y.l, p))))
  }

  /** On a full device t could be loaded if the models in `todo` and the rest were unloaded. */
  ghost predicate Poised(y: Sys, t: Model, todo: set<Model>, p: Model, total: int) {
    && t in y.clients && t in y.l.cfg.models && !y.clients[t].state.Ready? && !y.clients[t].state.Starting?
    && Slots(y.s.work, t) == 0
    && (forall v :: v in todo ==> v != t && Untouched(y, v))
    && (forall id :: id in y.clients && id != t && id !in todo && y.clients[id].state.Ready? ==> Age(y.l, id) > 0)
    && y.now > 0 && GpuFresh(y.l, y.now) && y.l.snap.free == 0 && y.l.snap.total == total
    && RoomFor(y.l.cfg, t, total) && Counted(y, t, p)
  }

  lemma OthersResidable(y: Sys, doubt: set<Model>, next: nat, t: Model)
    requires doubt <= {t}
    requires AtRest(y, doubt, next)
    ensures AllResidable(y.l, StatesOf(y.clients), t)
  {
    hide CInv, Slots, LedgerLaws.LedgerOK;
    RestLedger(y, doubt, next);
    forall id | id in y.l.cfg.models && id != t
      ensures Residable(y.l, StatesOf(y.clients), id)
    {
      ClientFacts(y, id);
    }
  }

  lemma BesideAll(l: Ledger, t: Model)
    requires l.marker == map[]
    ensures RestHolds(l, t) == Beside(l.cfg, t)
  {
  }

  lemma RoomPositive(cfg: Budget, t: Model, total: int)
    requires BudgetOK(cfg) && RoomFor(cfg, t, total)
    ensures 0 <= cfg.margin <= total
  {
    TotalMono(map[], Beside(cfg, t));
  }

  lemma CountedHolds(y: Sys, t: Model, p: Model)
    requires Counted(y, t, p) && LedgerLaws.LedgerOK(y.l) && AllBound(y.l, StatesOf(y.clients), t)
    ensures Total(Holds(y.l, StatesOf(y.clients), t)) > 0
  {
    var hs := Holds(y.l, StatesOf(y.clients), t);
    assert hs[p] == y.l.cfg.models[p].peak;
    TotalTake(hs, p);
    TotalMono(map[], hs - {p});
  }

  lemma RestFits(y: Sys, t: Model, todo: set<Model>, p: Model, total: int)
    requires Poised(y, t, todo, p, total) && AllResidable(y.l, StatesOf(y.clients), t)
    requires y.l.marker == map[] && LedgerLaws.LedgerOK(y.l)
    ensures FitsIfRestResidual(y.l, StatesOf(y.clients), t)
  {
    hide Total, GpuFresh, Slots, Untouched, Counted, AllResidable;
    BesideAll(y.l, t);
    RoomPositive(y.l.cfg, t, total);
  }

  lemma NotNow(y: Sys, t: Model, todo: set<Model>, p: Model, total: int)
    requires Poised(y, t, todo, p, total) && LedgerLaws.LedgerOK(y.l)
    ensures !FitsNow(y.l, StatesOf(y.clients), t)
  {
    hide Total, GpuFresh, Slots, Untouched, Counted, AllBound, LedgerLaws.LedgerOK;
    if AllBound(y.l, StatesOf(y.clients), t) {
      CountedHolds(y, t, p);
      assert y.l.cfg.margin >= 0 by { MarginOK(y.l); }
    }
  }

  lemma MarginOK(l: Ledger)
    requires LedgerLaws.LedgerOK(l)
    ensures l.cfg.margin >= 0
  {
  }

  lemma NotAtResidual(y: Sys, t: Model, v: Model)
    requires Untouched(y, v) && v != t && v in y.l.cfg.models
    ensures !OthersAtResidual(y.l, StatesOf(y.clients), t)
  {
    assert !AtResidual(y.l, StatesOf(y.clients), v);
  }

  /** With nothing free, t does not fit now; but it would with the rest unloaded. */
  lemma PoisedFits(y: Sys, doubt: set<Model>, next: nat, t: Model, todo: set<Model>, p: Model, total: int, v: Model)
    requires doubt <= {t} && Poised(y, t, todo, p, total) && v in todo
    requires AtRest(y, doubt, next)
    ensures !AdmitWithoutEvict(y.l, StatesOf(y.clients), t) && FitsIfRestResidual(y.l, StatesOf(y.clients), t)
  {
    hide CInv, AtRest, Total, GpuFresh, Slots, Untouched, Counted, RoomFor, AllResidable, FitsNow, FitsIfRestResidual,
         OthersAtResidual, LedgerLaws.LedgerOK;
    RestLedger(y, doubt, next);
    RestSched(y, doubt, next);
    OthersResidable(y, doubt, next, t);
    RestFits(y, t, todo, p, total);
    NotNow(y, t, todo, p, total);
    UntouchedIsModel(y, v);
    NotAtResidual(y, t, v);
  }

  lemma UntouchedIsModel(y: Sys, v: Model)
    requires Untouched(y, v) && y.clients.Keys == y.l.cfg.models.Keys
    ensures v in y.l.cfg.models
  {
  }

  /** So the planner picks one of those ready since boot. */
  lemma PoisedDecides(y: Sys, doubt: set<Model>, next: nat, t: Model, todo: set<Model>, p: Model, total: int)
    returns (w: Model)
    requires doubt <= {t} && Poised(y, t, todo, p, total) && todo != {}
    requires AtRest(y, doubt, next)
    ensures w in todo && Victim(y, t, w)
  {
    hide CInv, AtRest, AdmitWithoutEvict, FitsIfRestResidual, GpuFresh, Slots, Busy, Counted, RoomFor, Oldest;
    var st := StatesOf(y.clients);
    var v :| v in todo;
    PoisedFits(y, doubt, next, t, todo, p, total, v);
    OldestIsFirst(y.l, st, Sorted(Running(st)), t);
    LedgerLaws.RunningListed(st);
    assert Untouched(y, v);
    assert v in Running(st) && Candidate(st, t, v);
    w := Oldest(y.l, st, Sorted(Running(st)), t).value;
    assert Age(y.l, v) == 0 && Age(y.l, w) <= 0;
    assert Untouched(y, w);
  }

  lemma StillPoised(y: Sys, r: Sys, t: Model, todo: set<Model>, p: Model, total: int, w: Model)
    requires Poised(y, t, todo, p, total) && w in todo && Rounded(y, r, w) && LedgerLaws.LedgerOK(r.l)
    ensures Poised(r, t, todo - {w}, p, total)
  {
    hide Slots, GpuFresh;
    assert GpuFresh(r.l, r.now) == GpuFresh(y.l, y.now) by { SameFresh(y.l, r.l, y.now); }
    assert SameWork(y.s.work, r.s.work, t);
    assert p != w ==> LedgerLaws.SameHold(y.l, r.l, p);
    forall id | id in r.clients && id != t && id !in todo - {w} && r.clients[id].state.Ready?
      ensures Age(r.l, id) > 0
    {
      if id != w { assert TimeOf(r.l.loadedAt, id) == TimeOf(y.l.loadedAt, id); }
    }
    forall v | v in todo - {w}
      ensures v != t && Untouched(r, v)
    {
      assert Untouched(y, v) && SameWork(y.s.work, r.s.work, v);
    }
    assert Untouched(y, w);
  }

  lemma SameFresh(l: Ledger, r: Ledger, now: int)
    requires r.cfg == l.cfg && r.snap == l.snap && r.boot == l.boot
    ensures GpuFresh(r, now) == GpuFresh(l, now)
  {
  }

  ghost predicate HeldPeaks(y: Sys, ids: set<Model>) {
    forall id :: id in ids && id in y.l.cfg.models ==> id in y.l.reserved && y.l.reserved[id] >= y.l.cfg.models[id].peak
  }

  lemma {:induction false} Rounds(y: Sys, doubt: set<Model>, next: nat, t: Model, todo: set<Model>,
                                  p: Model, total: int, held: set<Model>)
    returns (r: Sys, next': nat)
    requires doubt <= {t} && Poised(y, t, todo, p, total) && HeldPeaks(y, held)
    requires AtRest(y, doubt, next)
    ensures AtRest(r, doubt, next') && HeldPeaks(r, held + todo) && Reaches(y, r, total) && r.l.cfg == y.l.cfg
    decreases |todo|
  {
    hide AtRest, Poised, Reaches, Victim, Rounded, HeldPeaks, LedgerLaws.LedgerOK, CInv, Next;
    if todo == {} {
      ReachesItself(y, total);
      assert held + todo == held;
      return y, next;
    }
    var w := PoisedDecides(y, doubt, next, t, todo, p, total);
    var y1 := Round(y, doubt, next, t, w);
    RestLedger(y1, doubt, next + 2);
    StillPoised(y, y1, t, todo, p, total, w);
    HeldOn(y, y1, held, w);
    r, next' := Rounds(y1, doubt, next + 2, t, todo - {w}, p, total, held + {w});
    assert held + {w} + (todo - {w}) == held + todo;
    ReachesOn(y, y1, r, total);
  }

  lemma HeldOn(y: Sys, r: Sys, held: set<Model>, w: Model)
    requires HeldPeaks(y, held) && Rounded(y, r, w)
    ensures HeldPeaks(r, held + {w}) && r.l.cfg == y.l.cfg
  {
    hide SameWork;
    forall id | id in held && id != w && id in y.l.cfg.models
      ensures id in r.l.reserved && r.l.reserved[id] >= y.l.cfg.models[id].peak
    {
      assert LedgerLaws.SameHold(y.l, r.l, id);
    }
  }

  // ---------------------------------------------------------------- getting there

  function ReadyAt(y: Sys): set<Model> {
    set m | m in y.clients && y.clients[m].state.Ready?
  }

  lemma BootEmpty(y: Sys)
    requires Boot(y)
    ensures y.l.reserved == map[] && y.l.lastUse == map[] && y.l.loadedAt == map[] && BudgetOK(y.l.cfg)
    ensures y.clients.Keys == y.l.cfg.models.Keys
    ensures forall m :: SameWork(EMPTY_WORK, y.s.work, m)
  {
    hide Booted;
  }

  /** From boot to r: loads of boot failed, time passed, every doubt but t's was settled, and the device is full. */
  ghost predicate Prepared(y: Sys, r1: Sys, r2: Sys, r3: Sys, r: Sys, t: Model, total: int) {
    && FailedFrom(y, r1, LoadingAt(y)) && r2 == r1.(now := r2.now) && r2.now > 0
    && AllReady(r2, r3, QuestionAt(y) - {t})
    && r == r3.(l := r3.l.(snap := Reading(r3, total, 0), boot := true)) && GpuFresh(r.l, r.now)
  }

  lemma PreparedUntouched(y: Sys, r1: Sys, r2: Sys, r3: Sys, r: Sys, t: Model, total: int, v: Model)
    requires Prepared(y, r1, r2, r3, r, t, total) && v in ReadyAt(y)
    requires Boot(y)
    ensures Untouched(r, v) && v !in r.l.reserved
  {
    hide Boot;
    BootEmpty(y);
    hide GpuFresh;
    assert SameWork(EMPTY_WORK, y.s.work, v) && SameWork(r2.s.work, r3.s.work, v);
  }

  lemma PreparedOthers(y: Sys, r1: Sys, r2: Sys, r3: Sys, r: Sys, t: Model, total: int, id: Model)
    requires Prepared(y, r1, r2, r3, r, t, total)
    requires id in r.clients && id != t && id !in ReadyAt(y) && ClientOf(r, id).state.Ready?
    requires Boot(y)
    ensures Age(r.l, id) > 0
  {
    hide Boot, GpuFresh, SameWork;
    BootEmpty(y);
  }

  lemma PreparedTarget(y: Sys, r1: Sys, r2: Sys, r3: Sys, r: Sys, t: Model, total: int)
    requires Prepared(y, r1, r2, r3, r, t, total) && t in y.clients && !ClientOf(y, t).state.Ready?
    requires Boot(y)
    ensures t in r.clients && !ClientOf(r, t).state.Ready? && !ClientOf(r, t).state.Starting? && Slots(r.s.work, t) == 0
  {
    hide Boot, GpuFresh;
    BootEmpty(y);
    assert SameWork(EMPTY_WORK, y.s.work, t) && SameWork(r2.s.work, r3.s.work, t);
  }

  lemma PreparedCounted(y: Sys, r1: Sys, r2: Sys, r3: Sys, r: Sys, t: Model, total: int, p: Model)
    requires Prepared(y, r1, r2, r3, r, t, total) && LedgerLaws.LedgerOK(r.l)
    requires p in y.clients && Live(ClientOf(y, p).state) && p in y.l.cfg.models && y.l.cfg.models[p].peak > 0
    requires Boot(y)
    ensures Counted(r, t, p)
  {
    hide Boot, GpuFresh, SameWork;
    BootEmpty(y);
  }

  lemma PreparedPoised(y: Sys, r1: Sys, r2: Sys, r3: Sys, r: Sys, t: Model, total: int, p: Model)
    requires Prepared(y, r1, r2, r3, r, t, total) && LedgerLaws.LedgerOK(r.l)
    requires t in y.clients && t in y.l.cfg.models && !ClientOf(y, t).state.Ready? && RoomFor(y.l.cfg, t, total)
    requires p in y.clients && Live(ClientOf(y, p).state) && p in y.l.cfg.models && y.l.cfg.models[p].peak > 0
    requires Boot(y)
    ensures Poised(r, t, ReadyAt(y), p, total)
  {
    hide Boot, GpuFresh, Slots, Untouched, Counted, Age, RoomFor, LedgerLaws.LedgerOK, AllReady, FailedFrom, Busy, Live;
    PreparedTarget(y, r1, r2, r3, r, t, total);
    PreparedCounted(y, r1, r2, r3, r, t, total, p);
    PreparedWorld(y, r1, r2, r3, r, t, total);
    forall v | v in ReadyAt(y) ensures v != t && Untouched(r, v) { PreparedUntouched(y, r1, r2, r3, r, t, total, v); }
    forall id | id in r.clients && id != t && id !in ReadyAt(y) && r.clients[id].state.Ready?
      ensures Age(r.l, id) > 0
    {
      PreparedOthers(y, r1, r2, r3, r, t, total, id);
    }
  }

  lemma PreparedWorld(y: Sys, r1: Sys, r2: Sys, r3: Sys, r: Sys, t: Model, total: int)
    requires Prepared(y, r1, r2, r3, r, t, total)
    ensures r.l.cfg == y.l.cfg && r.now > 0 && r.l.snap.free == 0 && r.l.snap.total == total
  {
    hide GpuFresh, SameWork;
  }

  lemma PreparedHeld(y: Sys, r1: Sys, r2: Sys, r3: Sys, r: Sys, t: Model, total: int)
    requires Prepared(y, r1, r2, r3, r, t, total)
    ensures HeldPeaks(r, QuestionAt(y) - {t}) && r.l.cfg == y.l.cfg
  {
    hide GpuFresh, SameWork;
  }

  lemma QuestionsLeft(y: Sys, t: Model)
    ensures QuestionAt(y) - (QuestionAt(y) - {t}) == QuestionAt(y) * {t}
  {
  }

  lemma Prepares(y: Sys, t: Model, total: int, p: Model) returns (r: Sys, next: nat)
    requires t in y.clients && t in y.l.cfg.models && !ClientOf(y, t).state.Ready? && RoomFor(y.l.cfg, t, total)
    requires total >= 0
    requires p in y.clients && Live(ClientOf(y, p).state) && p in y.l.cfg.models && y.l.cfg.models[p].peak > 0
    requires Boot(y)
    ensures AtRest(r, QuestionAt(y) * {t}, next) && Poised(r, t, ReadyAt(y), p, total)
    ensures HeldPeaks(r, QuestionAt(y) - {t})
    ensures r.l.cfg == y.l.cfg && Reaches(y, r, total)
  {
    hide Boot, AtRest, Reaches, Poised, HeldPeaks, QuestionAt, LoadingAt, ReadyAt, FailedFrom, AllReady, GpuFresh,
         CInv, Total, LedgerLaws.LedgerOK, Live, RoomFor;
    var q := QuestionAt(y);
    var r1 := BootFails(y);
    var r2 := Ticks(r1, q, 1, total);
    var r3;
    r3, next := DoubtsSettle(r2, q, q - {t}, 1);
    QuestionsLeft(y, t);
    ReadyNow(r2, r3, q - {t});
    r := TakesReading(r3, q * {t}, next, total, 0);
    RestLedger(r, q * {t}, next);
    PreparedPoised(y, r1, r2, r3, r, t, total, p);
    PreparedHeld(y, r1, r2, r3, r, t, total);
    ReachesOn(r2, r3, r, total);
    ReachesOn(r1, r2, r, total);
    ReachesOn(y, r1, r, total);
  }

  lemma ReadyNow(y: Sys, r: Sys, done: set<Model>)
    requires AllReady(y, r, done)
    ensures r.now == y.now
  {
    hide SameWork;
  }

  /** The target itself is found ready at last. */
  lemma TargetToo(y: Sys, doubt: set<Model>, next: nat, t: Model, held: set<Model>, total: int) returns (r: Sys)
    requires doubt <= {t} && HeldPeaks(y, held)
    requires AtRest(y, doubt, next)
    ensures HeldPeaks(r, held + doubt) && Reaches(y, r, total) && r.l.cfg == y.l.cfg && LedgerLaws.LedgerOK(r.l)
  {
    hide AtRest, Reaches, LedgerLaws.LedgerOK, CInv, SameWork;
    var n;
    r, n := DoubtsSettle(y, doubt, doubt, next);
    RestLedger(r, doubt - doubt, n);
  }

  lemma StakeHeld(y: Sys, r: Sys, held: set<Model>)
    requires HeldPeaks(r, held) && r.l.cfg == y.l.cfg && LedgerLaws.LedgerOK(r.l)
    requires forall m :: m in y.clients && Live(ClientOf(y, m).state) ==> m in held
    ensures Total(Stake(y)) <= Total(r.l.reserved)
  {
    assert BudgetOK(y.l.cfg);
    TotalAtMost(Stake(y), r.l.reserved);
  }

  lemma AllLive(y: Sys, t: Model)
    ensures forall m :: m in y.clients && Live(ClientOf(y, m).state) ==>
              m in QuestionAt(y) - {t} + ReadyAt(y) + QuestionAt(y) * {t}
  {
  }

  /** If some other model could be made room for,
      everything that was on the device at boot can come to be held at once. */
  lemma StakeIsRaised(y: Sys, t: Model, total: int, p: Model) returns (r: Sys)
    requires t in y.clients && t in y.l.cfg.models && !ClientOf(y, t).state.Ready? && RoomFor(y.l.cfg, t, total)
    requires total >= 0
    requires p in y.clients && Live(ClientOf(y, p).state) && p in y.l.cfg.models && y.l.cfg.models[p].peak > 0
    requires Boot(y)
    ensures r.l.cfg == y.l.cfg && Total(Stake(y)) <= Total(r.l.reserved) && Reaches(y, r, total)
  {
    hide Boot, AtRest, Reaches, Poised, HeldPeaks, QuestionAt, ReadyAt, CInv, Total, LedgerLaws.LedgerOK, Live, RoomFor;
    var q := QuestionAt(y);
    var y1, next := Prepares(y, t, total, p);
    var y2, next2 := Rounds(y1, q * {t}, next, t, ReadyAt(y), p, total, q - {t});
    r := TargetToo(y2, q * {t}, next2, t, q - {t} + ReadyAt(y), total);
    AllLive(y, t);
    StakeHeld(y, r, q - {t} + ReadyAt(y) + q * {t});
    ReachesOn(y1, y2, r, total);
    ReachesOn(y, y1, r, total);
  }

  // ---------------------------------------------------------------- exactly when

  lemma SomePositive(f: map<Model, int>) returns (k: Model)
    requires Total(f) > 0
    ensures k in f && f[k] > 0
  {
    if forall m :: m in f ==> f[m] <= 0 {
      TotalAtMost(f, map[]);
    }
    k :| k in f && f[k] > 0;
  }

  /** Somebody had bytes at stake. */
  lemma SomeStake(y: Sys, t: Model, total: int) returns (p: Model)
    requires RoomFor(y.l.cfg, t, total) && Total(Stake(y)) > total - y.l.cfg.margin
    requires Boot(y)
    ensures p in y.clients && Live(ClientOf(y, p).state) && p in y.l.cfg.models && y.l.cfg.models[p].peak > 0
    ensures total >= 0
  {
    hide Boot, Total;
    BootEmpty(y);
    RoomPositive(y.l.cfg, t, total);
    TotalMono(map[], Beside(y.l.cfg, t));
    LedgerLaws.EmptyTotal();
    p := SomePositive(Stake(y));
  }

  /** What a boot needs so that the reservations stay within a device of this size. */
  predicate FitsAtBoot(y: Sys, total: int) {
    && Total(Doubted(y)) <= total - y.l.cfg.margin
    && (Total(Stake(y)) <= total - y.l.cfg.margin || NoRoom(y, total))
  }

  lemma FitsByBoot(y: Sys, run: seq<Step>, total: int)
    requires SnapOK(y.l, total) && FitsAtBoot(y, total) && OnDevice(run, total)
    requires Boot(y) && IsRun(y, run)
    ensures LedgerLaws.WithinDevice(After(y, run).l, total)
  {
    hide Boot, IsRun, After, Total, Stake, Doubted, NoRoom;
    if Total(Stake(y)) <= total - y.l.cfg.margin {
      ReservationsStayWithinDevice(y, run, total);
    } else {
      NothingMoves(y, run, total);
    }
  }

  /** A run to a state in which more is reserved than fits. */
  lemma Exceeds(y: Sys, r: Sys, total: int) returns (run: seq<Step>)
    requires Reaches(y, r, total) && Total(r.l.reserved) > total - r.l.cfg.margin
    ensures IsRun(y, run) && OnDevice(run, total) && !LedgerLaws.WithinDevice(After(y, run).l, total)
  {
    hide IsRun, After, OnDevice, Total;
    run :| Leads(y, run, r, total);
  }

  lemma ExceedsByBoot(y: Sys, total: int) returns (run: seq<Step>)
    requires !FitsAtBoot(y, total)
    requires Boot(y)
    ensures IsRun(y, run) && OnDevice(run, total) && !LedgerLaws.WithinDevice(After(y, run).l, total)
  {
    hide Next, Boot, IsRun, After, OnDevice, Total, Stake, Doubted, RoomFor, Reaches, LedgerLaws.WithinDevice, Live;
    BootEmpty(y);
    var r: Sys;
    if Total(Doubted(y)) > total - y.l.cfg.margin {
      r := DoubtsAreRaised(y);
    } else {
      var t :| t in y.clients && !y.clients[t].state.Ready? && RoomFor(y.l.cfg, t, total);
      var p := SomeStake(y, t, total);
      r := StakeIsRaised(y, t, total, p);
    }
    run := Exceeds(y, r, total);
  }

  /**
   In every run on a device of a given size the reservations stay within it, less the
   margin, if and only if the peaks of the models loading, failed or unknown at boot fit
   together, and besides either those of the ready ones fit with them, or no model that was
   not ready would fit even with all others unloaded.
   */
  lemma ReservationsStayWithinExactly(y: Sys, total: int)
    requires SnapOK(y.l, total)
    requires Boot(y)
    ensures StaysWithin(y, total) <==> FitsAtBoot(y, total)
  {
    hide Boot, IsRun, After, OnDevice, FitsAtBoot, SnapOK, LedgerLaws.WithinDevice;
    if FitsAtBoot(y, total) {
      forall run | IsRun(y, run) && OnDevice(run, total)
        ensures LedgerLaws.WithinDevice(After(y, run).l, total)
      {
        FitsByBoot(y, run, total);
      }
    } else {
      var run := ExceedsByBoot(y, total);
    }
  }

  // ---------------------------------------------------------------- two boots that do not fit

  function BootOf(cfg: Budget, wires: map<Model, Option<Wire>>): Sys {
    Sys(NewSched(Config(map[], 8, 30)), Ledger(cfg, map[], map[], NO_SAMPLE, false, None, map[], map[]),
        map m | m in wires :: OnReconcile(NEW_CLIENT, wires[m]), multiset{}, [], 1)
  }

  lemma BootOfBoots(cfg: Budget, wires: map<Model, Option<Wire>>)
    requires BudgetOK(cfg) && wires.Keys == cfg.models.Keys
    ensures Boot(BootOf(cfg, wires)) && SnapOK(BootOf(cfg, wires).l, 100)
  {
    hide OnReconcile;
    var y := BootOf(cfg, wires);
    forall m | m in y.clients ensures Booted(y.clients[m]) {
      assert y.clients[m] == OnReconcile(NEW_CLIENT, wires[m]);
    }
  }

  lemma TotalOfTwo(f: map<Model, int>)
    requires f.Keys == {0, 1}
    ensures Total(f) == f[0] + f[1]
  {
    TotalTake(f, 0);
    TotalTake(f - {0}, 1);
    assert (f - {0}) - {1} == map[];
  }

  /** Two models of 60 whose backends could not be read at boot, on a device of 100. */
  const PAIR := Budget(map[0 := Profile(60, 5), 1 := Profile(60, 5)], 0, "gpu", 5)
  const UNREAD := BootOf(PAIR, map[0 := None, 1 := None])

  lemma UnreadDoubts()
    ensures Boot(UNREAD) && UNREAD.l.cfg == PAIR && Total(Doubted(UNREAD)) == 120
  {
    BootOfBoots(PAIR, map[0 := None, 1 := None]);
    hide Boot, Total;
    TotalOfTwo(Doubted(UNREAD));
  }

  lemma TwoUnknownModelsExceed()
    ensures Boot(UNREAD)
    ensures exists run :: IsRun(UNREAD, run) && OnDevice(run, 100) && Total(After(UNREAD, run).l.reserved) > 100
  {
    hide Boot, IsRun, After, OnDevice, Total, NoRoom, Doubted, Stake, BootOf;
    UnreadDoubts();
    var run := ExceedsByBoot(UNREAD, 100);
    RunConfig(UNREAD, run);
  }

  lemma RunConfig(y: Sys, run: seq<Step>)
    requires Boot(y) && IsRun(y, run)
    ensures After(y, run).l.cfg == y.l.cfg
  {
    hide Boot, CInv, IsRun, After;
    BootHolds(y);
    ConfigAlways(y, run);
  }

  lemma {:induction false} ConfigAlways(y: Sys, run: seq<Step>)
    requires IsRun(y, run) && CInv(y)
    ensures After(y, run).l.cfg == y.l.cfg
    decreases |run|
  {
    hide CInv, Possible, Next;
    if run != [] {
      Keeps(y, run[0].event, run[0].gone);
      ConfigStays(y, run[0].event, run[0].gone);
      ConfigAlways(Next(y, run[0].event, run[0].gone), run[1..]);
    }
  }
}
