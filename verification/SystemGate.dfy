/** The admission gate: which load holds it, and exactly when an idle router's gate is open. */
module SystemGate {
  import opened Types
  import opened Admission
  import opened RuntimeStatus
  import opened Scheduler
  import opened SchedulerLaws
  import opened SchedulerTurns
  import opened SchedulerRecovery
  import opened Ledger
  import opened ClientLoop
  import LedgerLaws
  import opened System
  import opened SystemLaws
  import opened SystemPromises
  import opened SystemJobs
  import opened SystemRuns

  // ---------------------------------------------------------------- one admitted load at a time

  ghost predicate Reports(y: Sys, e: Event, a: Model) {
    e.LoadReturns? && e.i < |y.s.out.loads| && y.s.out.loads[e.i].model == a
  }

  lemma SerialMoves(l: Ledger, h: LedgerLaws.Happening, a: Model)
    requires l.serial == Some(a)
    ensures LedgerLaws.Apply(l, h).serial == if h.Load? && h.id == a then None else Some(a)
  {
    hide AdmitWithoutEvict, GpuFresh, Usable, Lowered, ClearedBy, EnsurePeak, AppliedResult, TimeOf;
    if h.Probe? {
      LedgerLaws.EnsurePeakSpec(l, h.ev.model);
      LedgerLaws.AppliedSpec(l, h.now, h.ev);
    }
  }

  /** Once a model's load is admitted, exactly the report of that model's load makes room for another. */
  lemma SerialReleasedExactly(y: Sys, e: Event, gone: set<nat>, a: Model)
    requires Possible(y, e) && y.l.serial == Some(a)
    ensures Next(y, e, gone).l.serial == if Reports(y, e, a) then None else Some(a)
  {
    hide Next, LedgerLaws.Apply, RecoverMode, AskClient, Usable, ClearedBy, MarkAll, UnloadAt;
    LedgerStep(y, e, gone);
    if HappeningOf(y, e).Some? {
      SerialMoves(y.l, HappeningOf(y, e).value, a);
    }
  }

  ghost predicate NotReported(y: Sys, run: seq<Step>, a: Model)
    decreases |run|
  {
    run == [] || (!Reports(y, run[0].event, a) && NotReported(Next(y, run[0].event, run[0].gone), run[1..], a))
  }

  /** From the admission of a to the report of its load the gate refuses every other model, and changes nothing. */
  lemma {:induction false} OneLoadAdmitted(y: Sys, run: seq<Step>, a: Model, st: States, now: int, shutting: bool,
                                           m: Model)
    requires y.l.serial == Some(a) && NotReported(y, run, a) && m != a
    requires IsRun(y, run)
    ensures var l := After(y, run).l;
      l.serial == Some(a) && AdmitLoad(l, st, now, shutting, m).1.Some? && AdmitLoad(l, st, now, shutting, m).0 == l
    decreases |run|
  {
    hide Next, Possible, AdmitWithoutEvict, GpuFresh, Reports;
    if run != [] {
      SerialReleasedExactly(y, run[0].event, run[0].gone, a);
      OneLoadAdmitted(Next(y, run[0].event, run[0].gone), run[1..], a, st, now, shutting, m);
    }
  }

  // ---------------------------------------------------------------- whose load it is

  /** An admission is held by the load in flight, and by nothing else. */
  ghost predicate SerialHeld(y: Sys) {
    y.l.serial.Some? ==> |y.s.out.loads| == 1 && y.s.out.loads[0].model == y.l.serial.value
  }

  /** Operations run only for a load in flight that is waiting for one. */
  ghost predicate OpsAreLoads(y: Sys) {
    forall m :: m in y.clients && y.clients[m].op.Some? ==> y.s.out.loads == [LoadJob(m, Waiting)]
  }

  /** No client reconciled with a backend that was loading, and is still loading. */
  predicate NoneLoading(y: Sys) {
    forall m :: m in y.clients ==> !y.clients[m].state.Starting?
  }

  lemma NoOps(y: Sys)
    requires OpsAreLoads(y)
    ensures (y.s.out.loads == [] || (|y.s.out.loads| == 1 && !y.s.out.loads[0].stage.Waiting?)) ==>
              forall m :: m in y.clients ==> ClientOf(y, m).op.None?
  {
  }

  /** The only event outside the clients that touches one asks it about a recovery result. */
  lemma OpsStay(y: Sys, e: Event, gone: set<nat>)
    requires Possible(y, e) && !AtClient(e)
    requires CInv(y)
    ensures var r := Next(y, e, gone);
      r.clients.Keys == y.clients.Keys && forall m :: m in y.clients ==> ClientOf(r, m).op == ClientOf(y, m).op
  {
    hide CInv, HostOf, TryDispatch, OnRequest, OnCancel, OnQueueTimeout, OnServeDone, OnStatus, OnBackendDone,
         OnRemind, OnSwapDone, OnUnloadDone, NoteProbe, ClearMarkers, SampleFailed, Recovered, AdmitLoad,
         LoadReported, UnloadReported, Observe, RecoverMode, OnCancelGranted, OnProxyStart, Usable, ClearedBy,
         AskClient, MarkAll;
    if e.ProbeReturns? {
      AskedAbout(y, e.i, ResultOf(y.s.out.probes[e.i], e.kind, e.rec, e.active, e.at));
    }
  }

  lemma OneLoad(y: Sys)
    requires CInv(y)
    ensures |y.s.out.loads| <= 1
  {
    hide AroundOK, Inv, HostOf;
    OneUnload(y.s, HostOf(y, {}));
  }

  /** What else an event does to the serial: the gate gives it to a running operation, a report takes it back. */
  lemma SerialStep(y: Sys, e: Event, gone: set<nat>)
    requires Possible(y, e)
    ensures var r := Next(y, e, gone);
      if e.GateAsked? then r.l.serial == y.l.serial || r.l.serial == Some(e.m)
      else if e.LoadReturns? && y.l.serial == Some(y.s.out.loads[e.i].model) then r.l.serial == None
      else r.l.serial == y.l.serial
  {
    hide Next, LedgerLaws.Apply, RecoverMode, AskClient, Usable, ClearedBy, MarkAll, UnloadAt;
    LedgerStep(y, e, gone);
    if HappeningOf(y, e).Some? {
      SerialAfter(y.l, HappeningOf(y, e).value);
    }
  }

  lemma SerialAfter(l: Ledger, h: LedgerLaws.Happening)
    ensures var r := LedgerLaws.Apply(l, h);
      if h.Gate? then r.serial == l.serial || r.serial == Some(h.id)
      else if h.Load? && l.serial == Some(h.id) then r.serial == None
      else r.serial == l.serial
  {
    hide AdmitWithoutEvict, GpuFresh, Usable, Lowered, ClearedBy, EnsurePeak, AppliedResult, TimeOf;
    if h.Probe? {
      LedgerLaws.EnsurePeakSpec(l, h.ev.model);
      LedgerLaws.AppliedSpec(l, h.now, h.ev);
    }
  }

  ghost predicate GateInv1(y: Sys) { SerialHeld(y) && OpsAreLoads(y) }

  lemma GateOutside(y: Sys, e: Event, gone: set<nat>)
    requires Possible(y, e) && !AtClient(e) && GateInv1(y)
    requires CInv(y)
    ensures GateInv1(Next(y, e, gone))
  {
    hide CInv, HostOf, Next;
    var r := Next(y, e, gone);
    JobsMove(y, e, gone);
    OpsStay(y, e, gone);
    SerialStep(y, e, gone);
    Keeps(y, e, gone);
    OneLoad(y);
    OneLoad(r);
    NoOps(y);
    TakenLoads(y, e);
    hide Possible, Taken;
  }

  lemma TakenLoads(y: Sys, e: Event)
    requires Possible(y, e) && |y.s.out.loads| <= 1
    ensures if e.LoadReturns?
            then |y.s.out.loads| == 1 && y.s.out.loads[0].stage.Answered? && Taken(y, e).out.loads == []
            else Taken(y, e).out.loads == y.s.out.loads
    ensures e.GateAsked? ==> e.m in y.clients && ClientOf(y, e.m).op.Some?
    ensures e.LoadReturns? ==> e.i == 0
  {
    hide Usable, ClearedBy, MarkAll, UnloadAt;
  }

  lemma EnsureGate(y: Sys, i: nat, call: nat)
    requires i < |y.s.out.loads| && y.s.out.loads[i].stage.Called? && y.s.out.loads[i].model in y.clients && GateInv1(y)
    requires CInv(y)
    ensures GateInv1(AfterEnsure(y, i, call))
  {
    hide CInv, CallsInv;
    OneLoad(y);
    NoOps(y);
    ClientFacts(y, y.s.out.loads[i].model);
  }

  lemma OpGate(y: Sys, m: Model, fault: Option<Fault>)
    requires m in y.clients && ClientOf(y, m).op.Some? && GateInv1(y)
    ensures GateInv1(AfterOp(y, m, fault))
  {
    var r := AfterOp(y, m, fault);
    assert |r.s.out.loads| == 1 && r.s.out.loads[0].model == m;
    forall k | k in r.clients
      ensures r.clients[k].op.None?
    {
      assert k != m ==> r.clients[k] == y.clients[k];
    }
  }

  lemma StopGate(y: Sys, i: nat, fault: Option<Fault>)
    requires UnloadAt(y, i) && GateInv1(y)
    requires CInv(y)
    ensures GateInv1(AfterStopStarts(y, i)) && GateInv1(AfterStopReturns(y, i, fault))
  {
    hide CInv;
    UnloadTarget(y, i);
    NoOps(y);
  }

  lemma GateAtClient(y: Sys, e: Event, gone: set<nat>)
    requires Possible(y, e) && AtClient(e) && GateInv1(y)
    requires CInv(y)
    ensures GateInv1(Next(y, e, gone))
  {
    hide CInv, HostOf, GateInv1, AfterEnsure, AfterOp, AfterStopStarts, AfterStopReturns;
    match e
    case EnsureCalled(i, call) => EnsureGate(y, i, call);
    case OpReturns(m, fault) => OpGate(y, m, fault);
    case StopStarts(i) => StopGate(y, i, None);
    case StopReturns(i, fault) => StopGate(y, i, fault);
  }

  lemma GateBoots(y: Sys)
    requires NoneLoading(y)
    requires Boot(y)
    ensures GateInv1(y)
  {
    hide Boot, CInv, CallsInv;
    BootHolds(y);
    forall m | m in y.clients
      ensures y.clients[m].op.None?
    {
      ClientFacts(y, m);
    }
    assert y.l.serial.None? by { BootSerial(y); }
  }

  lemma BootSerial(y: Sys)
    requires Boot(y)
    ensures y.l.serial.None?
  {
    hide Booted;
  }

  lemma {:induction false} GateAlways(y: Sys, run: seq<Step>)
    requires GateInv1(y)
    requires IsRun(y, run) && CInv(y)
    ensures GateInv1(After(y, run))
    decreases |run|
  {
    hide CInv, Possible, Next, GateInv1;
    if run != [] {
      Keeps(y, run[0].event, run[0].gone);
      if AtClient(run[0].event) {
        GateAtClient(y, run[0].event, run[0].gone);
      } else {
        GateOutside(y, run[0].event, run[0].gone);
      }
      GateAlways(Next(y, run[0].event, run[0].gone), run[1..]);
    }
  }

  // ---------------------------------------------------------------- the gate that stays shut

  lemma BootFresh(y: Sys)
    requires Boot(y)
    ensures y.s.phase.Idle? && y.s.queued == [] && y.s.unloadFail == {} && y.s.cfg.maxQ > 0
    ensures y.s.out.probes == [] && y.s.out.loads == [] && y.s.out.unloads == [] && y.s.out.admitted == []
    ensures y.l.marker == map[] && y.l.serial.None? && y.l.reserved == map[] && y.s.gates.closed == {}
    ensures forall m :: Slots(y.s.work, m) == 0 && !Busy(y.s.work, m)
  {
    hide Booted;
  }

  function DoubtAt(y: Sys): set<Model> {
    set m | m in y.clients && Doubtful(y.clients[m])
  }

  lemma BootRests(y: Sys)
    requires Boot(y)
    ensures AtRest(y, DoubtAt(y), 1)
  {
    hide CInv, Boot, Slots, Doubtful, Busy;
    BootHolds(y);
    BootFresh(y);
  }

  /** A sample, fresh now, of a device with room for every model at once. */
  function Ample(y: Sys): Snapshot {
    var size := y.l.cfg.margin + Total(Peaks(y.l.cfg));
    Snapshot(true, y.l.cfg.device, size, size, if y.now == 0 then -1 else y.now)
  }

  /** No client is in doubt, and every other model's hold is known. */
  lemma AmpleFits(l: Ledger, st: States, id: Model)
    requires LedgerLaws.LedgerOK(l) && l.snap.free == l.cfg.margin + Total(Peaks(l.cfg))
    requires forall m :: m in l.cfg.models ==> m in st && st[m] !in {Unknown, Failed, Shutdown}
    ensures AdmitWithoutEvict(l, st, id)
  {
    TotalMono(Holds(l, st, id), Peaks(l.cfg));
    TotalMono(map[], Peaks(l.cfg));
    hide Total, FitsIfRestResidual;
    assert FitsNow(l, st, id);
  }

  lemma AmplePositive(cfg: Budget)
    requires BudgetOK(cfg)
    ensures cfg.margin + Total(Peaks(cfg)) >= 0
  {
    TotalMono(map[], Peaks(cfg));
  }

  lemma AmpleSampled(y: Sys)
    requires LedgerLaws.LedgerOK(y.l) && y.l.marker == map[]
    ensures var e := Observes(Ample(y), []);
      var l := Observe(y.l, Ample(y));
      && Possible(y, e) && Samples(e, Ample(y).total) && Next(y, e, {}) == y.(l := l)
      && l == y.l.(snap := Ample(y), boot := true, reserved := l.reserved) && l.reserved == y.l.reserved
      && GpuFresh(l, y.now)
  {
    hide HostOf, UnloadAt, Total, Peaks;
    AmplePositive(y.l.cfg);
    assert Elements([]) == {};
    assert ClearedBy(y.l.marker, Ample(y)) == {};
  }

  lemma GateGrants(y: Sys, c: Model)
    requires c in y.clients && ClientOf(y, c).op.Some? && c in y.l.cfg.models
    requires GpuFresh(y.l, y.now) && y.l.serial.None? && AdmitWithoutEvict(y.l, StatesOf(y.clients), c)
    ensures Possible(y, GateAsked(c))
    ensures Next(y, GateAsked(c), {}) == y.(l := Reserve(y.l, c, y.l.cfg.models[c].peak).(serial := Some(c)))
  {
    hide AdmitWithoutEvict, GpuFresh, Decide;
  }

  lemma OpEndsReady(y: Sys, c: Model)
    requires c in y.clients && ClientInv(ClientOf(y, c)) && ClientOf(y, c).op.Some? && !ClientOf(y, c).stopping
    requires y.s.out.loads == []
    ensures Possible(y, OpReturns(c, None))
    ensures var r := Next(y, OpReturns(c, None), {});
      && r == y.(clients := r.clients) && c in r.clients && r.clients == y.clients[c := ClientOf(r, c)]
      && ClientOf(r, c).state.Ready? && ClientOf(r, c).op.None?
  {
    hide HostOf, CallsInv;
    assert AnswerLoads(y.s, c, None) == y.s;
  }

  lemma StoppingFacts(y: Sys, c: Model)
    requires c in y.clients && ClientOf(y, c).state.Starting?
    requires CInv(y)
    ensures ClientInv(ClientOf(y, c)) && ClientOf(y, c).op.Some? && !ClientOf(y, c).stopping
  {
    hide CInv, CallsInv;
    ClientFacts(y, c);
  }

  lemma NoneInDoubt(y: Sys, next: nat)
    requires AtRest(y, {}, next)
    ensures forall m :: m in y.l.cfg.models ==> m in y.clients && ClientOf(y, m).state !in {Unknown, Failed, Shutdown}
  {
    hide CInv;
    LedgerFacts(y);
    forall m | m in y.l.cfg.models
      ensures m in y.clients && y.clients[m].state !in {Unknown, Failed, Shutdown}
    {
      ClientFacts(y, m);
    }
  }

  /** The ledger once c was admitted on an ample device. */
  function Admitted(y: Sys, c: Model): Ledger
    requires c in y.l.cfg.models
  {
    Reserve(y.l.(snap := Ample(y), boot := true), c, y.l.cfg.models[c].peak).(serial := Some(c))
  }

  lemma GateOpen(y: Sys, y1: Sys, c: Model)
    requires LedgerLaws.LedgerOK(y1.l) && y1.l == y.l.(snap := Ample(y), boot := true) && y1 == y.(l := y1.l)
    requires forall m :: m in y.l.cfg.models ==> m in y.clients && ClientOf(y, m).state !in {Unknown, Failed, Shutdown}
    requires c in y.clients && c in y.l.cfg.models && ClientOf(y, c).op.Some? && y.l.serial.None?
    requires GpuFresh(y1.l, y.now)
    ensures Possible(y1, GateAsked(c)) && Next(y1, GateAsked(c), {}) == y.(l := Admitted(y, c))
  {
    hide Next, Possible, AdmitWithoutEvict, GpuFresh, Total, Peaks, LedgerLaws.LedgerOK;
    AmpleFits(y1.l, StatesOf(y1.clients), c);
    GateGrants(y1, c);
  }

  /** A load that was running at boot is admitted. */
  lemma Admits(y: Sys, c: Model, next: nat)
    requires c in y.clients && ClientOf(y, c).state.Starting? && y.l.serial.None?
    requires AtRest(y, {}, next)
    ensures c in y.l.cfg.models
    ensures var y2 := y.(l := Admitted(y, c)); CInv(y2) && Reaches(y, y2, Ample(y).total)
  {
    hide CInv, Possible, Next;
    NoneInDoubt(y, next);
    LedgerFacts(y);
    StoppingFacts(y, c);
    hide AtRest, Ample, ClientInv, Observe, LedgerLaws.LedgerOK, Reaches, GpuFresh, Admitted;
    AmpleSampled(y);
    var e := Observes(Ample(y), []);
    var y1 := Next(y, e, {});
    Keeps(y, e, {});
    LedgerFacts(y1);
    GateOpen(y, y1, c);
    var y2 := Next(y1, GateAsked(c), {});
    Keeps(y1, GateAsked(c), {});
    ReachesItself(y2, Ample(y).total);
    assert Samples(GateAsked(c), Ample(y).total);
    ReachesFirst(y1, GateAsked(c), y2, Ample(y).total);
    ReachesFirst(y, e, y2, Ample(y).total);
  }

  /** c was admitted and became ready; nothing is queued or in flight, yet c holds the serial. */
  ghost predicate ShutWhileIdle(y: Sys, r: Sys, c: Model) {
    && c in y.clients && c in r.clients && c in y.l.cfg.models
    && r == y.(clients := y.clients[c := r.clients[c]], l := Admitted(y, c))
    && r.clients[c].state.Ready? && r.clients[c].op.None?
  }

  lemma AdmittedRests(y: Sys, c: Model, next: nat)
    requires c in y.l.cfg.models
    requires AtRest(y, {}, next)
    ensures y.(l := Admitted(y, c)).s.out.loads == []
  {
    hide CInv;
  }

  lemma Shuts(y: Sys, c: Model, next: nat) returns (r: Sys)
    requires c in y.clients && ClientOf(y, c).state.Starting? && y.l.serial.None?
    requires AtRest(y, {}, next)
    ensures ShutWhileIdle(y, r, c) && CInv(r) && Reaches(y, r, Ample(y).total)
  {
    hide CInv, AtRest, Possible, Next, Ample, ClientInv, LedgerLaws.LedgerOK, Reaches, Admitted;
    Admits(y, c, next);
    AdmittedRests(y, c, next);
    var y2 := y.(l := Admitted(y, c));
    StoppingFacts(y2, c);
    OpEndsReady(y2, c);
    r := Next(y2, OpReturns(c, None), {});
    Keeps(y2, OpReturns(c, None), {});
    assert Samples(OpReturns(c, None), Ample(y).total);
    ReachesItself(r, Ample(y).total);
    ReachesFirst(y2, OpReturns(c, None), r, Ample(y).total);
    ReachesOn(y, y2, r, Ample(y).total);
  }

  /** Every doubt of boot settles, and the other clients are as they were. */
  lemma BootSettles(y: Sys) returns (y1: Sys, next: nat)
    requires Boot(y)
    ensures AtRest(y1, {}, next) && AllReady(y, y1, DoubtAt(y)) && forall total :: Reaches(y, y1, total)
  {
    hide Next, CInv, AtRest, Boot, Reaches, AllReady;
    BootRests(y);
    assert DoubtAt(y) - DoubtAt(y) == {};
    y1, next := DoubtsSettle(y, DoubtAt(y), DoubtAt(y), 1);
  }

  lemma LoadingStays(y: Sys, y1: Sys, c: Model)
    requires AllReady(y, y1, DoubtAt(y)) && c in y.clients && ClientOf(y, c).state.Starting? && y.l.serial.None?
    ensures c in y1.clients && ClientOf(y1, c) == ClientOf(y, c) && y1.l.serial.None?
  {
    hide Slots;
  }

  /** A boot load is admitted at the latest once every doubt is settled. */
  lemma BootLoadShuts(y: Sys, c: Model) returns (y1: Sys, r: Sys, next: nat)
    requires c in y.clients && ClientOf(y, c).state.Starting?
    requires Boot(y)
    ensures AtRest(y1, {}, next) && AllReady(y, y1, DoubtAt(y)) && ShutWhileIdle(y1, r, c) && CInv(r)
    ensures Reaches(y, r, Ample(y1).total)
  {
    hide Next, CInv, AtRest, Boot, Reaches, ShutWhileIdle, Slots, AllReady, DoubtAt;
    BootFresh(y);
    y1, next := BootSettles(y);
    LoadingStays(y, y1, c);
    r := Shuts(y1, c, next);
    ReachesOn(y, y1, r, Ample(y1).total);
  }

  lemma ShutIsNotHeld(y: Sys, r: Sys, c: Model, next: nat)
    requires ShutWhileIdle(y, r, c)
    requires AtRest(y, {}, next)
    ensures !SerialHeld(r)
  {
    hide CInv;
  }

  lemma HeldWithoutLoading(y: Sys, run: seq<Step>)
    requires NoneLoading(y)
    requires Boot(y) && IsRun(y, run)
    ensures SerialHeld(After(y, run))
  {
    hide CInv, Boot, IsRun, After, SerialHeld, OpsAreLoads;
    BootHolds(y);
    GateBoots(y);
    GateAlways(y, run);
  }

  lemma LostWithLoading(y: Sys, c: Model) returns (run: seq<Step>)
    requires c in y.clients && ClientOf(y, c).state.Starting?
    requires Boot(y)
    ensures IsRun(y, run) && !SerialHeld(After(y, run))
  {
    hide CInv, Boot, IsRun, After, SerialHeld, AtRest, AllReady, ShutWhileIdle;
    var y1, r, next := BootLoadShuts(y, c);
    ShutIsNotHeld(y1, r, c, next);
    run :| Leads(y, run, r, Ample(y1).total);
  }

  /**
   In every run the admission is held by nothing but the one load in flight, if and only
   if no client was still waiting for its backend's load at boot.
   */
  lemma GateOpensExactly(y: Sys)
    requires Boot(y)
    ensures (forall run :: IsRun(y, run) ==> SerialHeld(After(y, run))) <==> NoneLoading(y)
  {
    hide Boot, IsRun, After, SerialHeld;
    if NoneLoading(y) {
      forall run | IsRun(y, run)
        ensures SerialHeld(After(y, run))
      {
        HeldWithoutLoading(y, run);
      }
    } else {
      var c :| c in y.clients && y.clients[c].state.Starting?;
      var run := LostWithLoading(y, c);
    }
  }

  /** So without such a client an idle router's gate is open. */
  lemma IdleGateIsOpen(y: Sys, run: seq<Step>)
    requires NoneLoading(y) && After(y, run).s.phase.Idle?
    requires Boot(y) && IsRun(y, run)
    ensures After(y, run).l.serial.None?
  {
    hide CInv, Boot, IsRun, After;
    BootHolds(y);
    HeldWithoutLoading(y, run);
    Always(y, run);
    IdleLoads(After(y, run));
  }

  lemma IdleLoads(y: Sys)
    requires y.s.phase.Idle?
    requires CInv(y)
    ensures y.s.out.loads == []
  {
    hide RecInv, WorkInv, QueueInv, TallyInv, GateInv, LateInv, AroundOK, HostOf;
  }

  // ---------------------------------------------------------------- who is shut out

  lemma HasElement(order: seq<Model>)
    ensures order == [] || exists m :: m in order
  {
    if order != [] { assert order[0] in order; }
  }

  lemma NothingAsked(s: Sched, h: Host, head: Req)
    requires Suspects(h, s.unloadFail) == {} && Marked(h) == {}
    ensures !MustRecover(s, h, head)
  {
    SuspectsAndOrder(s, h, head);
    hide Suspects, Marked;
    HasElement(Unseen(s, h, head));
  }

  lemma LoadTurn(s: Sched, h: Host)
    requires s.phase.Idle? && s.queued != [] && !MustRecover(s, h, s.queued[0])
    requires DecideOf(h, s.queued[0].model) == Evict([]) && !StateOf(h, s.queued[0].model).Ready?
    requires Slots(s.work, s.queued[0].model) < Limit(s.cfg, s.queued[0].model)
    ensures TryDispatch(s, h) == StartLoad(ReopenUnusedGates(s, h), s.queued[0].model)
  {
    hide MustRecover, Slots, NeededGates, OpenGates, StartLoad, Suspects;
  }

  /** A request for a model that may be loaded starts its load. */
  lemma RequestLoads(s: Sched, h: Host, id: nat, m: Model)
    requires s.phase.Idle? && s.queued == [] && s.out.loads == [] && s.cfg.maxQ > 0 && id != 0 && m in h.states
    requires Suspects(h, s.unloadFail) == {} && Marked(h) == {} && Slots(s.work, m) == 0
    requires DecideOf(h, m) == Evict([]) && !StateOf(h, m).Ready?
    ensures OnRequest(s, h, Req(id, m), false).out.loads == [LoadJob(m, Called)]
  {
    hide Suspects, Marked, MustRecover, Slots, TryDispatch;
    var x := Admit(s, Req(id, m));
    NothingAsked(x, h, Req(id, m));
    LoadTurn(x, h);
  }

  /** The gate is kept for c, on a fresh sample with room for everyone; nobody is in doubt. */
  ghost predicate Kept(r: Sys, c: Model) {
    KeptLedger(r.l, r.now, c) && KeptClients(r.clients, r.l.cfg, c)
  }

  ghost predicate KeptLedger(l: Ledger, now: int, c: Model) {
    && LedgerLaws.LedgerOK(l) && l.marker == map[] && l.serial == Some(c)
    && GpuFresh(l, now) && l.snap.free == l.cfg.margin + Total(Peaks(l.cfg))
  }

  ghost predicate KeptClients(clients: map<Model, Client>, cfg: Budget, c: Model) {
    && (forall m :: m in cfg.models <==> m in clients)
    && (forall m :: m in clients ==> clients[m].state !in {Unknown, Failed, Shutdown})
    && c in clients && clients[c].state.Ready? && clients[c].op.None?
  }

  lemma ShutIsKept(y: Sys, r: Sys, c: Model, next: nat)
    requires ShutWhileIdle(y, r, c)
    requires AtRest(y, {}, next) && CInv(r)
    ensures Kept(r, c)
  {
    hide CInv, LedgerLaws.LedgerOK, AtRest, KeptLedger, KeptClients, Admitted;
    NoneInDoubt(y, next);
    LedgerFacts(r);
    ShutLedger(y, r, c, next);
    ShutClients(y, r, c);
  }

  lemma ShutLedger(y: Sys, r: Sys, c: Model, next: nat)
    requires ShutWhileIdle(y, r, c) && LedgerLaws.LedgerOK(r.l)
    requires AtRest(y, {}, next)
    ensures KeptLedger(r.l, r.now, c)
  {
    hide CInv, Total, Peaks, Slots, Doubtful;
    assert r.l.cfg == y.l.cfg && r.l.cfg.device != "";
    hide LedgerLaws.LedgerOK;
  }

  lemma ShutClients(y: Sys, r: Sys, c: Model)
    requires ShutWhileIdle(y, r, c) && r.clients.Keys == r.l.cfg.models.Keys
    requires forall m :: m in y.l.cfg.models ==> m in y.clients && ClientOf(y, m).state !in {Unknown, Failed, Shutdown}
    ensures KeptClients(r.clients, r.l.cfg, c)
  {
  }

  lemma KeptFits(r: Sys, c: Model, m: Model)
    requires Kept(r, c)
    ensures AdmitWithoutEvict(r.l, StatesOf(r.clients), m)
  {
    hide LedgerLaws.LedgerOK, Total, Peaks, GpuFresh, AdmitWithoutEvict;
    AmpleFits(r.l, StatesOf(r.clients), m);
  }

  lemma KeptHost(r: Sys, c: Model, m: Model)
    requires Kept(r, c) && r.s.unloadFail == {} && m in r.clients && ClientOf(r, m).state.Stopped?
    ensures var h := HostOf(r, {});
      && m in h.states && Suspects(h, r.s.unloadFail) == {} && Marked(h) == {}
      && DecideOf(h, m) == Evict([]) && StateOf(h, m).Stopped?
  {
    hide LedgerLaws.LedgerOK, Total, Peaks, GpuFresh, AdmitWithoutEvict;
    KeptFits(r, c, m);
  }

  /** m fits and its operation asks, but the gate is kept for c, whose load nobody will report. */
  ghost predicate ShutOut(y: Sys, c: Model, m: Model) {
    && y.l.serial == Some(c) && c in y.clients && y.clients[c].state.Ready? && y.clients[c].op.None?
    && y.s.out.loads == [LoadJob(m, Waiting)] && m != c
    && m in y.clients && y.clients[m].op.Some?
    && AdmitWithoutEvict(y.l, StatesOf(y.clients), m)
    && AdmitLoad(y.l, StatesOf(y.clients), y.now, false, m) == (y.l, Some(Resources))
  }

  lemma RestFacts(y: Sys, r: Sys, c: Model, next: nat)
    requires ShutWhileIdle(y, r, c)
    requires AtRest(y, {}, next)
    ensures r.s == y.s && IdleAt(r.s, next)
  {
    hide CInv;
  }

  ghost predicate IdleAt(s: Sched, next: nat) {
    && s.phase.Idle? && s.queued == [] && s.out.loads == [] && s.cfg.maxQ > 0 && s.unloadFail == {}
    && next > 0 && next !in s.out.admitted
  }

  /** The load of a stopped model starts. */
  lemma KeptRequest(r: Sys, c: Model, m: Model, next: nat)
    requires Kept(r, c) && IdleAt(r.s, next) && m in r.clients && ClientOf(r, m).state.Stopped?
    requires Slots(r.s.work, m) == 0
    requires CInv(r)
    ensures var e := Request(Req(next, m), false);
      Possible(r, e) && Next(r, e, {}) == r.(s := Next(r, e, {}).s)
      && Next(r, e, {}).s.out.loads == [LoadJob(m, Called)]
  {
    hide CInv, Kept, HostOf, OnRequest, Suspects, Marked, Slots, Next;
    KeptHost(r, c, m);
    RequestLoads(r.s, HostOf(r, {}), next, m);
    NextRequest(r, Req(next, m), {});
  }

  lemma EnsureStarts(x: Sys, m: Model)
    requires x.s.out.loads == [LoadJob(m, Called)] && m in x.clients && ClientOf(x, m).state.Stopped?
    requires !ClientOf(x, m).stopping
    ensures var e := EnsureCalled(0, 0);
      var r := Next(x, e, {});
      Possible(x, e) && m in r.clients && r.clients == x.clients[m := ClientOf(r, m)] && r.l == x.l && r.now == x.now
      && ClientOf(r, m).op.Some? && ClientOf(r, m).state.Starting? && r.s.out.loads == [LoadJob(m, Waiting)]
  {
    hide HostOf;
  }

  lemma KeptElsewhere(r: Sys, z: Sys, c: Model, m: Model)
    requires Kept(r, c) && m in r.clients && m != c && z.l == r.l && z.now == r.now && m in z.clients
    requires z.clients == r.clients[m := ClientOf(z, m)] && ClientOf(z, m).state.Starting?
    ensures Kept(z, c)
  {
    hide LedgerLaws.LedgerOK, Total, Peaks, GpuFresh;
  }

  lemma KeptRefuses(z: Sys, c: Model, m: Model)
    requires Kept(z, c) && m != c && m in z.clients && ClientOf(z, m).op.Some? && z.s.out.loads == [LoadJob(m, Waiting)]
    ensures ShutOut(z, c, m)
  {
    hide LedgerLaws.LedgerOK, Total, Peaks, GpuFresh, AdmitWithoutEvict;
    KeptFits(z, c, m);
  }

  lemma KeptShutsOut(r: Sys, c: Model, m: Model, next: nat) returns (z: Sys)
    requires Kept(r, c) && IdleAt(r.s, next) && m in r.clients && ClientOf(r, m).state.Stopped?
    requires !ClientOf(r, m).stopping
    requires Slots(r.s.work, m) == 0
    requires CInv(r)
    ensures ShutOut(z, c, m) && forall total :: Reaches(r, z, total)
  {
    hide CInv, Next, Possible, Reaches;
    KeptRequest(r, c, m, next);
    assert m != c by { hide CInv; }
    hide Kept, ShutOut, Slots;
    var e := Request(Req(next, m), false);
    var x := Next(r, e, {});
    EnsureStarts(x, m);
    z := Next(x, EnsureCalled(0, 0), {});
    KeptElsewhere(r, z, c, m);
    KeptRefuses(z, c, m);
    forall total: int
      ensures Reaches(r, z, total)
    {
      ReachesItself(z, total);
      assert Samples(e, total) && Samples(EnsureCalled(0, 0), total);
      ReachesFirst(x, EnsureCalled(0, 0), z, total);
      ReachesFirst(r, e, z, total);
    }
  }

  /**
   Otherwise every model that was stopped at boot can come to ask the gate, fit, and be
   refused for a load that will never be reported.
   */
  lemma BootLoadShutsOut(y: Sys, c: Model, m: Model)
    requires c in y.clients && ClientOf(y, c).state.Starting? && m in y.clients && ClientOf(y, m).state.Stopped?
    requires Boot(y)
    ensures exists run :: IsRun(y, run) && ShutOut(After(y, run), c, m)
  {
    hide CInv, Boot, AtRest, AllReady, ShutWhileIdle, Reaches, Slots, ShutOut, Kept, IsRun, After;
    var y1, r, next := BootLoadShuts(y, c);
    StoppedStays(y, y1, r, c, m);
    ShutIsKept(y1, r, c, next);
    RestFacts(y1, r, c, next);
    var z := KeptShutsOut(r, c, m, next);
    ReachesOn(y, r, z, Ample(y1).total);
    ReachedRun(y, z, Ample(y1).total);
  }

  lemma StoppedStays(y: Sys, y1: Sys, r: Sys, c: Model, m: Model)
    requires AllReady(y, y1, DoubtAt(y)) && m in y.clients && ClientOf(y, m).state.Stopped?
    requires ShutWhileIdle(y1, r, c) && m != c
    requires Boot(y)
    ensures m in r.clients && ClientOf(r, m).state.Stopped? && !ClientOf(r, m).stopping && Slots(r.s.work, m) == 0
  {
    hide CInv, Boot, Slots, Admitted;
    BootFresh(y);
    StoppedBoot(y, m);
  }

  lemma StoppedBoot(y: Sys, m: Model)
    requires m in y.clients && ClientOf(y, m).state.Stopped?
    requires Boot(y)
    ensures !ClientOf(y, m).stopping
  {
    hide Booted;
    assert Booted(y.clients[m]);
    BootClient(y.clients[m]);
  }

  lemma ReachedRun(y: Sys, r: Sys, total: int)
    requires Reaches(y, r, total)
    ensures exists run :: IsRun(y, run) && After(y, run) == r
  {
    hide IsRun, After, OnDevice;
    var run :| Leads(y, run, r, total);
  }

  /** Two models that would fit together, the first still being loaded by its backend at boot. */
  const TWO := Budget(map[0 := Profile(10, 1), 1 := Profile(10, 1)], 0, "gpu", 5)
  const BOOT_LOADING := Sys(NewSched(Config(map[], 8, 30)),
                            Ledger(TWO, map[], map[], NO_SAMPLE, false, None, map[], map[]),
                            map[0 := OnReconcile(NEW_CLIENT, Some(WireLoading)),
                                1 := OnReconcile(NEW_CLIENT, Some(WireUnloaded))],
                            multiset{}, [], 1)

  lemma SecondModelIsShutOut()
    ensures Boot(BOOT_LOADING) && exists run :: IsRun(BOOT_LOADING, run) && ShutOut(After(BOOT_LOADING, run), 0, 1)
  {
    hide IsRun, After, ShutOut;
    BootLoadShutsOut(BOOT_LOADING, 0, 1);
  }

  /**
   Before boot is over the gate lets nobody in: a client that has not reconciled leaves its
   model's bytes unknown.
   */
  lemma NothingAdmittedWhileReconciling(l: Ledger, st: States, now: int, shutting: bool, id: Model, other: Model)
    requires other in l.cfg.models && other != id && other !in l.reserved && other !in l.marker
    requires StateIn(st, other) in {None, Some(Unknown)}
    ensures AdmitLoad(l, st, now, shutting, id).0 == l && AdmitLoad(l, st, now, shutting, id).1.Some?
  {
    assert !FitsNow(l, st, id) by { assert BoundFor(l, st, other).None?; }
    assert !FitsIfRestResidual(l, st, id) by { assert !Residable(l, st, other); }
    hide FitsNow, FitsIfRestResidual, GpuFresh, OthersAtResidual;
  }
}
