/** What may come to be reserved, over every run: why the reservations stay within the device. */
module SystemCapacity {
  import opened Types
  import opened RuntimeStatus
  import opened Scheduler
  import opened SchedulerLaws
  import opened SchedulerDispatch
  import opened SchedulerHandlers
  import opened SchedulerRecovery
  import opened SchedulerFrames
  import opened Ledger
  import opened ClientLoop
  import LedgerLaws
  import opened System
  import opened SystemLaws
  import opened SystemPromises
  import opened SystemJobs
  import opened SystemRuns
  import opened SystemGate

  // ---------------------------------------------------------------- what may come to be held

  predicate LoadOf(s: Sched, id: Model) { s.out.loads != [] && s.out.loads[0].model == id }

  predicate UnloadOf(s: Sched, id: Model) { s.out.unloads != [] && id in s.out.unloads[0].ids }

  predicate Live(st: State) { st.Ready? || st.Unknown? || st.Failed? || st.Starting? }

  /** The model may be on the device, or a job or a recovery may still ask for its peak. */
  predicate Heavy(y: Sys, id: Model) {
    LoadOf(y.s, id) || UnloadOf(y.s, id) || id in y.s.unloadFail || (id in y.clients && Live(y.clients[id].state))
  }

  function Worst(y: Sys, id: Model): int {
    if Heavy(y, id) && id in y.l.cfg.models then y.l.cfg.models[id].peak else LedgerLaws.Held(y.l, id)
  }

  function Worsts(y: Sys): map<Model, int> {
    map id | id in y.l.cfg.models :: Worst(y, id)
  }

  lemma ReservedWithinWorst(y: Sys)
    requires LedgerLaws.LedgerOK(y.l)
    ensures Total(y.l.reserved) <= Total(Worsts(y))
  {
    TotalMono(y.l.reserved, Worsts(y));
  }

  // ---------------------------------------------------------------- how one model moves

  /** Outside the clients only the model asked about may have moved. */
  lemma ClientsStay(y: Sys, e: Event, gone: set<nat>)
    requires Possible(y, e) && !AtClient(e)
    requires CInv(y)
    ensures var r := Next(y, e, gone);
      r.clients.Keys == y.clients.Keys
      && forall id :: id in y.clients ==>
           r.clients[id] == y.clients[id] || Asks(y, e, id)
  {
    hide CInv, HostOf, TryDispatch, OnRequest, OnCancel, OnQueueTimeout, OnServeDone, OnStatus, OnBackendDone,
         OnRemind, OnSwapDone, OnUnloadDone, NoteProbe, ClearMarkers, SampleFailed, Recovered, AdmitLoad,
         LoadReported, UnloadReported, Observe, RecoverMode, OnCancelGranted, OnProxyStart, Usable, ClearedBy,
         AskClient, MarkAll;
  }

  lemma FailedUnload(s: Sched, h: Host, f: Fault)
    requires s.phase.Unloading?
    ensures OnUnloadDone(s, h, Some(f)).unloadFail <= s.unloadFail + Elements(s.swap.evict)
  {
    hide TryDispatch;
    DispatchCalm(FailUnload(s, f), h);
  }

  /** Models are blocked only by the failure of their own unload, and a sample that clears them frees them. */
  ghost predicate FailsMove(y: Sys, e: Event, r: Sched) {
    && (forall m :: m in r.unloadFail ==> m in y.s.unloadFail || (e.UnloadFails? && UnloadOf(y.s, m)))
    && (forall m :: MarkerGoes(y, e, m) ==> m !in r.unloadFail)
  }

  lemma UnloadFailsFails(y: Sys, i: nat, error: Fault, gone: set<nat>)
    requires i < |y.s.out.unloads|
    requires CInv(y)
    ensures FailsMove(y, UnloadFails(i, error), OnUnloadDone(TakeUnload(y.s, i), HostOf(y, gone), Some(error)))
  {
    hide CInv, HostOf, OnUnloadDone;
    UnloadTarget(y, i);
    FailedUnload(TakeUnload(y.s, i), HostOf(y, gone), error);
  }

  lemma ProbeFails(y: Sys, i: nat, ev: Result, gone: set<nat>)
    requires i < |y.s.out.probes| && ev.model in y.clients
    ensures AfterProbe(y, gone, i, ev).s.unloadFail <= y.s.unloadFail
  {
    hide HostOf, NoteProbe, Digested, RecoverMode, ApplyBackend, AskClient;
    var mode := RecoverMode(y.s, ev.token);
    if !mode.Drop? {
      var n := NoteOf(ev, mode, AskClient(y.clients[ev.model], ev).1);
      NoteDigest(TakeProbe(y.s, i), HostOf(Digested(y, ev), gone), n);
    }
  }

  lemma UnloadFailMoves(y: Sys, e: Event, gone: set<nat>)
    requires Possible(y, e) && !AtClient(e)
    requires CInv(y)
    ensures FailsMove(y, e, Next(y, e, gone).s)
  {
    hide CInv, AfterServe, AfterLoad, AfterUnload, AfterSample, AfterProbe, OnUnloadDone, HostOf, AdmitLoad, Usable,
         ClearedBy, MarkAll, OnRequest, OnCancel, OnQueueTimeout, OnCancelGranted, OnBackendDone, OnRemind, OnStatus,
         Get, Lower;
    match e
    case ProxyStarts(_) =>
    case ServeEnds(k) => ServeResolvesNothing(y, k, gone, k);
    case StatusReturns(i, count) => StatusFrees(y, i, count, gone);
    case LoadReturns(i) => LoadResolvesNothing(y, i, gone);
    case UnloadFails(i, error) => UnloadFailsFails(y, i, error, gone);
    case UnloadReturns(i, sample, order) => UnloadJobs(y, i, sample, order, gone);
    case Observes(sample, order) => SampleResolvesNothing(y, sample, order, gone);
    case ProbeReturns(i, kind, rec, active, at) =>
      ProbeFails(y, i, ResultOf(y.s.out.probes[i], kind, rec, active, at), gone);
    case GateAsked(_) =>
    case Tick(_) =>
    case _ => QueueResolvesNothing(y, e, gone);
  }

  ghost predicate NewLoadAt(y: Sys, e: Event, r: Sys) {
    r.s.out.loads != Taken(y, e).out.loads
  }

  ghost predicate NewUnloadAt(y: Sys, e: Event, r: Sys) {
    r.s.out.unloads != Taken(y, e).out.unloads
  }

  predicate OneCalled(loads: seq<LoadJob>) { |loads| == 1 && loads[0].stage.Called? }

  predicate OneDraining(unloads: seq<UnloadJob>) { |unloads| == 1 && unloads[0].stage.Draining? }

  lemma OneJob(y: Sys)
    requires CInv(y)
    ensures |y.s.out.loads| + |y.s.out.unloads| <= 1
    ensures y.s.out.loads != [] ==> y.s.phase.Loading? && y.s.swap.target == Some(y.s.out.loads[0].model)
    ensures y.s.out.unloads != [] ==>
              y.s.phase.Unloading? && |y.s.out.unloads[0].ids| == 1 && y.s.out.unloads[0].ids == y.s.swap.evict
  {
    hide AroundOK, Inv, HostOf;
    OneUnload(y.s, HostOf(y, {}));
  }

  /** The jobs after an event outside the clients: the ones before it less the one reported, or a new one. */
  lemma JobsAfter(y: Sys, e: Event, gone: set<nat>)
    requires Possible(y, e) && !AtClient(e)
    requires CInv(y)
    ensures var r := Next(y, e, gone);
      && (!NewLoadAt(y, e, r) ==> r.s.out.loads == (if e.LoadReturns? then [] else y.s.out.loads))
      && (NewLoadAt(y, e, r) ==>
            (e.LoadReturns? || y.s.out.loads == []) && OneCalled(r.s.out.loads))
      && (!NewUnloadAt(y, e, r) ==>
            r.s.out.unloads == (if e.UnloadFails? || e.UnloadReturns? then [] else y.s.out.unloads))
      && (NewUnloadAt(y, e, r) ==> OneDraining(r.s.out.unloads))
  {
    hide CInv, Next;
    JobsMove(y, e, gone);
    Keeps(y, e, gone);
    OneJob(y);
    OneJob(Next(y, e, gone));
    TakenLoads(y, e);
    TakenUnloads(y, e);
    hide Possible, Taken;
  }

  lemma TakenUnloads(y: Sys, e: Event)
    requires Possible(y, e) && |y.s.out.unloads| <= 1
    ensures if e.UnloadFails? || e.UnloadReturns?
            then |y.s.out.unloads| == 1 && e.i == 0 && Taken(y, e).out.unloads == []
            else Taken(y, e).out.unloads == y.s.out.unloads
  {
    hide Usable, ClearedBy, MarkAll;
  }

  /** A victim is ready when its unload starts, and has not resisted. */
  lemma NewVictim(y: Sys, e: Event, gone: set<nat>, v: Model)
    requires Possible(y, e) && !AtClient(e)
    requires CInv(y)
    ensures var r := Next(y, e, gone);
      NewUnloadAt(y, e, r) && UnloadOf(r.s, v) ==> v in r.clients && ClientOf(r, v).state.Ready? && v !in r.s.unloadFail
  {
    hide CInv, Next, Possible, Taken, FairUnload, HostOK, HostOf, Story, StoryBase, Inv, Evidence;
    Keeps(y, e, gone);
    var r := Next(y, e, gone);
    Here(r, gone);
    OneJob(r);
    if NewUnloadAt(y, e, r) && UnloadOf(r.s, v) {
      VictimReady(r, gone, v);
    }
  }

  lemma VictimReady(r: Sys, gone: set<nat>, v: Model)
    requires r.s.queued != [] && |r.s.out.unloads| == 1 && |r.s.out.unloads[0].ids| == 1 && v in r.s.out.unloads[0].ids
    requires FairUnload(r.s, HostOf(r, gone), r.s.out.unloads[0]) && HostOK(HostOf(r, gone))
    ensures v in r.clients && ClientOf(r, v).state.Ready? && v !in r.s.unloadFail
  {
    hide Decide;
    assert v == r.s.out.unloads[0].ids[0];
  }

  // ---------------------------------------------------------------- how one reservation moves

  /** The events that may raise the model's reservation. */
  ghost predicate LiftsAt(y: Sys, e: Event, id: Model) {
    && Possible(y, e)
    && match e
       case GateAsked(m) => m == id
       case LoadReturns(i) => y.s.out.loads[i].model == id && y.s.out.loads[i].stage.fault.None?
       case ProbeReturns(i, kind, _, _, _) => y.s.out.probes[i].model == id && !kind.EndpointDown?
       case _ => false
  }

  ghost predicate Falls(y: Sys, e: Event, r: Sys, id: Model) {
    && id in y.clients && y.clients[id].state.Stopped? && y.clients[id].op.None? && MarkerGoes(y, e, id)
    && id in r.l.reserved && id in y.l.cfg.models && r.l.reserved[id] == y.l.cfg.models[id].residual
  }

  lemma EvidenceGoes(y: Sys, e: Event, id: Model)
    requires Possible(y, e) && HappeningOf(y, e).Some? && LedgerLaws.Evidence(y.l, HappeningOf(y, e).value, id)
    ensures MarkerGoes(y, e, id)
  {
    hide AskClient, RecoverMode, UnloadAt;
  }

  lemma LiftsHere(y: Sys, e: Event, id: Model)
    requires Possible(y, e) && HappeningOf(y, e).Some? && LedgerLaws.Lifts(HappeningOf(y, e).value, id)
    ensures LiftsAt(y, e, id)
  {
    hide AskClient, RecoverMode, UnloadAt, Usable, ClearedBy, MarkAll, StatesOf;
  }

  lemma HoldAfter(y: Sys, e: Event, gone: set<nat>, id: Model)
    requires Possible(y, e) && id in y.clients
    requires CInv(y)
    ensures var r := Next(y, e, gone);
      r.l.cfg == y.l.cfg
      && (LedgerLaws.SameHold(y.l, r.l, id) || (LedgerLaws.AtPeak(r.l, id) && LiftsAt(y, e, id)) || Falls(y, e, r, id))
  {
    hide CInv, Possible, Next, LedgerLaws.LedgerOK, LedgerLaws.Known, LedgerLaws.Apply, LedgerLaws.Evidence,
         LedgerLaws.Lifts, HappeningOf, LiftsAt, MarkerGoes;
    LedgerStep(y, e, gone);
    LedgerFacts(y);
    if HappeningOf(y, e).Some? {
      var h := HappeningOf(y, e).value;
      HappeningIsKnown(y, e);
      LedgerLaws.ApplyOK(y.l, h);
      LedgerLaws.HoldMoves(y.l, h, id);
      if LedgerLaws.Evidence(y.l, h, id) {
        EvidenceIsOfStopped(y, e, id);
        EvidenceGoes(y, e, id);
      }
      if LedgerLaws.Lifts(h, id) { LiftsHere(y, e, id); }
    }
  }

  /** A load reported well, and a model found by a recovery, is held at its peak. */
  lemma LiftedAfter(y: Sys, e: Event, gone: set<nat>, id: Model)
    requires Possible(y, e) && LiftsAt(y, e, id) && !e.GateAsked? && id in y.clients
    requires !SaysNothing(y, e)
    requires CInv(y)
    ensures LedgerLaws.AtPeak(Next(y, e, gone).l, id)
  {
    hide CInv, Next, LedgerLaws.LedgerOK, LedgerLaws.Apply, RecoverMode, AskClient, UnloadAt, Usable, ClearedBy,
         MarkAll;
    LedgerStep(y, e, gone);
    LedgerFacts(y);
    HappeningIsKnown(y, e);
    if e.ProbeReturns? { NoResultIsStale(y, e); }
    LedgerLaws.IsLifted(y.l, HappeningOf(y, e).value);
  }

  /** A marker is set only on a model found off the device, whose peak is then held. */
  lemma MarkersAfter(y: Sys, e: Event, gone: set<nat>, id: Model)
    requires Possible(y, e) && id in y.clients
    requires CInv(y)
    ensures id in Next(y, e, gone).l.marker ==>
              id in y.l.marker || (e.ProbeReturns? && LedgerLaws.AtPeak(Next(y, e, gone).l, id))
  {
    hide CInv, Next, Possible, LedgerLaws.LedgerOK, LedgerLaws.Apply, HappeningOf, LedgerLaws.Known;
    LedgerStep(y, e, gone);
    LedgerFacts(y);
    if HappeningOf(y, e).Some? {
      HappeningIsKnown(y, e);
      MarkersStep(y, e, id);
    }
  }

  lemma MarkersStep(y: Sys, e: Event, id: Model)
    requires Possible(y, e) && HappeningOf(y, e).Some? && LedgerLaws.Known(y.l.cfg, HappeningOf(y, e).value)
    requires LedgerLaws.LedgerOK(y.l)
    requires CInv(y)
    ensures var r := LedgerLaws.Apply(y.l, HappeningOf(y, e).value);
      id in r.marker ==> id in y.l.marker || (e.ProbeReturns? && LedgerLaws.AtPeak(r, id))
  {
    hide CInv, LedgerLaws.LedgerOK, AskClient, RecoverMode, Usable, AdmitWithoutEvict, GpuFresh, MarkAll, Recovered,
         UnloadReported, StatesOf, LoadReported;
    match e
    case UnloadReturns(i, sample, order) =>
      ReportFacts(y, i, sample, order);
    case ProbeReturns(_, _, _, _, _) =>
      LedgerLaws.MarksAtPeak(y.l, HappeningOf(y, e).value, id);
    case LoadReturns(i) => LedgerLaws.RaisesOnly(y.l, HappeningOf(y, e).value);
    case _ =>
  }

  // ---------------------------------------------------------------- what is known of each hold

  /** A model on the device is held at its peak, if at all, unless its load has yet to report. */
  ghost predicate PeakOK(y: Sys, id: Model) {
    var st := ClientOf(y, id).state;
    (st.Ready? || st.Starting? || st.Stopping?) && id in y.l.reserved && !LoadOf(y.s, id) ==> LedgerLaws.AtPeak(y.l, id)
  }

  /** An unload's victim did not resist before, and is ready until it is stopped;
      a load that failed left its model failed. */
  ghost predicate JobOK(y: Sys, id: Model) {
    && (UnloadOf(y.s, id) ==>
          id !in y.s.unloadFail && (y.s.out.unloads[0].stage.Draining? ==> ClientOf(y, id).state.Ready?))
    && (LoadOf(y.s, id) && y.s.out.loads[0].stage.Answered? && y.s.out.loads[0].stage.fault.Some? ==>
          ClientOf(y, id).state.Failed?)
  }

  ghost predicate HoldOK(y: Sys, id: Model) {
    PeakOK(y, id) && JobOK(y, id) && (id in y.l.marker ==> id in y.l.reserved)
  }

  ghost predicate HoldInv(y: Sys) {
    forall id :: id in y.clients ==> HoldOK(y, id)
  }

  /** A model being asked about has no job, and is in doubt. */
  lemma ProbedAlone(y: Sys, i: nat)
    requires i < |y.s.out.probes|
    requires CInv(y)
    ensures var id := y.s.out.probes[i].model;
      && !LoadOf(y.s, id) && !UnloadOf(y.s, id) && Heavy(y, id) && id in y.clients
      && id in Suspects(HostOf(y, {}), y.s.unloadFail)
  {
    hide WorkInv, QueueInv, TallyInv, GateInv, LateInv, LifeInv, SessionInv, AskInv, SeenInv, TargetInv, AroundOK,
         Decide;
    LiveProbe(y, i);
    if y.s.out.loads != [] { LoadTarget(y, 0); }
  }

  /** A result that is dropped, or not believed, leaves the client alone. */
  lemma ProbedClient(y: Sys, e: Event, gone: set<nat>)
    requires Possible(y, e) && e.ProbeReturns?
    requires SaysNothing(y, e)
    requires CInv(y)
    ensures Next(y, e, gone).clients == y.clients
  {
    hide CInv, HostOf, NoteProbe, Recovered, RecoverMode;
  }

  lemma PeakOutside(y: Sys, e: Event, gone: set<nat>, id: Model)
    requires Possible(y, e) && !AtClient(e) && id in y.clients && HoldOK(y, id)
    requires CInv(y)
    ensures id in Next(y, e, gone).clients && PeakOK(Next(y, e, gone), id)
  {
    hide CInv, Next, HostOf, RecoverMode, Taken, Usable;
    KeysStay(y, e, gone);
    if Asks(y, e, id) {
      ProbedPeak(y, e, gone, id);
    } else {
      ClientsStay(y, e, gone);
      HoldAfter(y, e, gone, id);
      JobsAfter(y, e, gone);
      OneJob(y);
      if e.LoadReturns? && y.s.out.loads[e.i].model == id && y.s.out.loads[e.i].stage.fault.None? {
        LiftedAfter(y, e, gone, id);
      }
    }
  }

  lemma ProbedPeak(y: Sys, e: Event, gone: set<nat>, id: Model)
    requires Possible(y, e) && Asks(y, e, id) && id in y.clients && HoldOK(y, id)
    requires CInv(y)
    ensures PeakOK(Next(y, e, gone), id)
  {
    hide CInv, Next, Possible, HostOf, RecoverMode, Taken;
    if SaysNothing(y, e) {
      ProbedAlone(y, e.i);
      ProbedClient(y, e, gone);
      HoldAfter(y, e, gone, id);
      JobsAfter(y, e, gone);
    } else {
      LiftedByResult(y, e, gone, id);
    }
  }

  lemma LiftedByResult(y: Sys, e: Event, gone: set<nat>, id: Model)
    requires Possible(y, e) && Asks(y, e, id) && id in y.clients && !SaysNothing(y, e)
    requires CInv(y)
    ensures LedgerLaws.AtPeak(Next(y, e, gone).l, id)
  {
    hide CInv, Next, RecoverMode;
    LiftedAfter(y, e, gone, id);
  }

  lemma JobOutside(y: Sys, e: Event, gone: set<nat>, id: Model)
    requires Possible(y, e) && !AtClient(e) && id in y.clients && HoldOK(y, id)
    requires CInv(y)
    ensures id in Next(y, e, gone).clients && JobOK(Next(y, e, gone), id)
  {
    hide CInv, Next, HostOf, Taken, MarkerGoes;
    ClientsStay(y, e, gone);
    UnloadFailMoves(y, e, gone);
    JobsAfter(y, e, gone);
    NewVictim(y, e, gone, id);
    if e.ProbeReturns? { ProbedAlone(y, e.i); }
    hide Possible;
  }

  lemma HoldOutside(y: Sys, e: Event, gone: set<nat>, id: Model)
    requires Possible(y, e) && !AtClient(e) && id in y.clients && HoldOK(y, id)
    requires CInv(y)
    ensures id in Next(y, e, gone).clients && HoldOK(Next(y, e, gone), id)
  {
    hide CInv, Next, Possible, LiftsAt, MarkerGoes;
    PeakOutside(y, e, gone, id);
    JobOutside(y, e, gone, id);
    HoldAfter(y, e, gone, id);
    MarkersAfter(y, e, gone, id);
  }

  // ---------------------------------------------------------------- the same inside a client

  lemma EnsureHold(y: Sys, i: nat, call: nat, id: Model)
    requires i < |y.s.out.loads| && y.s.out.loads[i].stage.Called? && y.s.out.loads[i].model in y.clients
    requires id in y.clients && HoldOK(y, id)
    requires CInv(y)
    ensures HoldOK(AfterEnsure(y, i, call), id)
  {
    hide CInv, CallsInv;
    OneJob(y);
    ClientFacts(y, y.s.out.loads[i].model);
  }

  lemma OpHold(y: Sys, m: Model, fault: Option<Fault>, id: Model)
    requires m in y.clients && ClientOf(y, m).op.Some? && !ClientOf(y, m).stopping && id in y.clients && HoldOK(y, id)
    requires CInv(y)
    ensures HoldOK(AfterOp(y, m, fault), id)
  {
    hide CInv, CallsInv;
    OneJob(y);
    ClientFacts(y, m);
  }

  lemma StopHold(y: Sys, i: nat, fault: Option<Fault>, id: Model)
    requires UnloadAt(y, i) && id in y.clients && HoldOK(y, id)
    requires CInv(y)
    ensures y.s.out.unloads[i].stage.Draining? && !ClientOf(y, y.s.out.unloads[i].ids[0]).stopping ==>
              HoldOK(AfterStopStarts(y, i), id)
    ensures y.s.out.unloads[i].stage.Stopping? ==> HoldOK(AfterStopReturns(y, i, fault), id)
  {
    hide CInv, CallsInv;
    OneJob(y);
    UnloadTarget(y, i);
    var v := y.s.out.unloads[i].ids[0];
    ClientFacts(y, v);
  }

  lemma HoldAtClient(y: Sys, e: Event, gone: set<nat>, id: Model)
    requires Possible(y, e) && AtClient(e) && id in y.clients && HoldOK(y, id)
    requires CInv(y)
    ensures id in Next(y, e, gone).clients && HoldOK(Next(y, e, gone), id)
  {
    hide CInv, HostOf, HoldOK, AfterEnsure, AfterOp, AfterStopStarts, AfterStopReturns;
    KeysStay(y, e, gone);
    match e
    case EnsureCalled(i, call) => EnsureHold(y, i, call, id);
    case OpReturns(m, fault) => OpHold(y, m, fault, id);
    case StopStarts(i) => StopHold(y, i, None, id);
    case StopReturns(i, fault) => StopHold(y, i, fault, id);
  }

  lemma HoldKeeps(y: Sys, e: Event, gone: set<nat>)
    requires Possible(y, e) && HoldInv(y)
    requires CInv(y)
    ensures HoldInv(Next(y, e, gone))
  {
    hide CInv, Possible, Next, HoldOK;
    KeysStay(y, e, gone);
    var r := Next(y, e, gone);
    forall id | id in r.clients
      ensures HoldOK(r, id)
    {
      if AtClient(e) { HoldAtClient(y, e, gone, id); } else { HoldOutside(y, e, gone, id); }
    }
  }

  lemma KeysStay(y: Sys, e: Event, gone: set<nat>)
    requires Possible(y, e)
    requires CInv(y)
    ensures Next(y, e, gone).clients.Keys == y.clients.Keys && Next(y, e, gone).l.cfg == y.l.cfg
  {
    hide CInv, Possible, Next;
    LedgerFacts(y);
    Keeps(y, e, gone);
    LedgerFacts(Next(y, e, gone));
    ConfigStays(y, e, gone);
  }

  lemma ConfigStays(y: Sys, e: Event, gone: set<nat>)
    requires Possible(y, e)
    requires CInv(y)
    ensures Next(y, e, gone).l.cfg == y.l.cfg
  {
    hide CInv, Possible, Next, LedgerLaws.LedgerOK, LedgerLaws.Known, LedgerLaws.Apply, HappeningOf;
    LedgerStep(y, e, gone);
    if HappeningOf(y, e).Some? {
      HappeningIsKnown(y, e);
      LedgerLaws.ApplyOK(y.l, HappeningOf(y, e).value);
    }
  }

  // ---------------------------------------------------------------- what the planner may count too low

  /** The planner counts less than its peak for a model in doubt. */
  ghost predicate Understated(y: Sys, id: Model) {
    && InDoubt(y, id) && id in y.l.cfg.models
    && var b := BoundFor(y.l, StatesOf(y.clients), id);
       b.Some? && b.value < y.l.cfg.models[id].peak
  }

  /** The head is being failed, or is ready, and so will not have anything loaded or unloaded. */
  ghost predicate WillNotAct(y: Sys) {
    && y.s.queued != []
    && ((y.s.phase.Recover? && y.s.session.sawResources)
        || (y.s.phase.Idle? && y.s.queued[0].model in y.clients && y.clients[y.s.queued[0].model].state.Ready?))
  }

  /** Having heard of a model that is still counted too low, the head will not act. */
  ghost predicate SoundFor(y: Sys, id: Model) {
    y.s.queued != [] && id != y.s.queued[0].model && (y.s.queued[0].id, id) in y.s.out.noted && Understated(y, id) ==>
      WillNotAct(y)
  }

  ghost predicate Sound(y: Sys) {
    forall id :: id in y.clients ==> SoundFor(y, id)
  }

  lemma ExcuseHere(y: Sys, gone: set<nat>)
    requires y.s.queued != []
    ensures Excused(y.s, HostOf(y, gone)) <==> WillNotAct(y)
  {
    hide Decide;
  }

  /** Outside the clients only a failed unload puts a model in doubt that is counted too low. */
  lemma UnderstatedStays(y: Sys, e: Event, gone: set<nat>, id: Model)
    requires Possible(y, e) && !AtClient(e) && !e.UnloadFails? && id in y.clients
    requires CInv(y)
    ensures var r := Next(y, e, gone);
      Understated(r, id) ==>
        Understated(y, id) && id in r.clients && r.clients[id] == y.clients[id]
        && (Asks(y, e, id) ==> SaysNothing(y, e))
  {
    hide CInv, Next, Possible, HostOf, RecoverMode, MarkerGoes;
    ClientsStay(y, e, gone);
    UnloadFailMoves(y, e, gone);
    HoldAfter(y, e, gone, id);
    if Asks(y, e, id) {
      if SaysNothing(y, e) {
        ProbedClient(y, e, gone);
      } else {
        LiftedByResult(y, e, gone, id);
      }
    }
  }

  /** The story of the head, spelled out for one model. */
  ghost predicate HeardAs(base: Sched, r: Sys, id: Model) {
    r.s.queued != [] && (r.s.queued[0].id, id) in r.s.out.noted ==>
      && base.queued != [] && r.s.queued[0] == base.queued[0] && (base.queued[0].id, id) in base.out.noted
      && (Excused(base, HostOf(r, {})) ==> WillNotAct(r))
  }

  lemma StoryTold(y: Sys, e: Event, gone: set<nat>, id: Model)
    requires Possible(y, e) && !AtClient(e)
    requires CInv(y)
    ensures HeardAs(StoryBase(y, e), Next(y, e, gone), id)
  {
    hide CInv, Next, Possible, Taken, FairAction, Evidence, HostOf, Excused, StoryBase, WillNotAct;
    Keeps(y, e, gone);
    var r := Next(y, e, gone);
    if r.s.queued != [] {
      ExcuseHere(r, gone);
      ExcuseHost(StoryBase(y, e), r, gone);
    }
  }

  lemma ExcuseHost(s: Sched, r: Sys, gone: set<nat>)
    ensures Excused(s, HostOf(r, {})) <==> Excused(s, HostOf(r, gone))
  {
    hide Decide;
  }

  lemma UnheardHead(y: Sys, id: Model)
    requires y.s.queued != [] && y.s.queued[0].id !in y.s.book.seen
    requires CInv(y)
    ensures (y.s.queued[0].id, id) !in y.s.out.noted
  {
    hide CoreInv, SessionInv, LiveInv, AskInv, TargetInv, AroundOK, HostOf, SeenBy;
  }

  lemma ProbedHead(y: Sys)
    requires y.s.queued != [] && y.s.out.probes != [] && !y.s.phase.Recover?
    requires CInv(y)
    ensures y.s.queued[0].id !in y.s.book.seen
  {
    hide CoreInv, SessionInv, LiveInv, AskInv, TargetInv, AroundOK, HostOf, SeenBy;
  }

  lemma WorkingHead(y: Sys)
    requires y.s.queued != [] && (y.s.phase.Loading? || y.s.phase.Unloading?)
    requires CInv(y)
    ensures y.s.swap.target == Some(y.s.queued[0].model) || y.s.queued[0].id !in y.s.book.seen
  {
    hide CoreInv, SessionInv, LiveInv, AskInv, SeenInv, AroundOK, HostOf, SeenBy;
  }

  /** Events that bring no result and end no unload in failure. */
  lemma SoundOther(y: Sys, e: Event, gone: set<nat>, id: Model)
    requires Possible(y, e) && !AtClient(e) && !e.UnloadFails? && !e.ProbeReturns? && id in y.clients && SoundFor(y, id)
    requires CInv(y)
    ensures SoundFor(Next(y, e, gone), id)
  {
    hide CInv, Next, HostOf, Understated, Usable, ClearedBy, MarkAll, Possible;
    StoryTold(y, e, gone, id);
    UnderstatedStays(y, e, gone, id);
    ClientsStay(y, e, gone);
    var r := Next(y, e, gone);
    if y.s.queued != [] && WillNotAct(y) { ExcuseStays(y, r, StoryBase(y, e)); }
  }

  lemma ExcuseStays(y: Sys, r: Sys, base: Sched)
    requires y.s.queued != [] && WillNotAct(y) && r.clients == y.clients
    requires base.queued == y.s.queued && base.phase == y.s.phase && base.session == y.s.session
    ensures Excused(base, HostOf(r, {}))
  {
    hide Decide;
  }

  lemma SoundFails(y: Sys, e: Event, gone: set<nat>, id: Model)
    requires Possible(y, e) && e.UnloadFails?
    requires CInv(y)
    ensures SoundFor(Next(y, e, gone), id)
  {
    hide CInv, Next, HostOf, Understated, WillNotAct, Excused;
    StoryTold(y, e, gone, id);
    FailedHead(y, e.i, e.error, id);
  }

  /** A failed unload sends the head away, and nothing has come back for the next. */
  lemma FailedHead(y: Sys, i: nat, error: Fault, id: Model)
    requires i < |y.s.out.unloads|
    requires CInv(y)
    ensures var s := FailUnload(TakeUnload(y.s, i), error); s.queued != [] ==> (s.queued[0].id, id) !in s.out.noted
  {
    hide CoreInv, SessionInv, LiveInv, AskInv, TargetInv, AroundOK, HostOf, SeenBy, Elements;
    var s := FailUnload(TakeUnload(y.s, i), error);
    if y.s.queued != [] { NewHead(y.s, s); }
  }

  lemma SessionHead(y: Sys)
    requires y.s.phase.Recover?
    requires CInv(y)
    ensures y.s.queued != [] && y.s.session.owner == y.s.queued[0].id && y.s.session.model == y.s.queued[0].model
  {
    hide CoreInv, LiveInv, AskInv, SeenInv, TargetInv, AroundOK, HostOf, SeenBy;
  }

  lemma VerdictExcuses(s: Sched, i: nat, ev: Result)
    requires i < |s.out.probes|
    ensures var b := Absorb(Noted(s, i), NoteOf(ev, Current, Applied));
      && b.queued == s.queued && b.phase == s.phase
      && b.out.noted == s.out.noted + {(s.session.owner, s.out.probes[i].model)}
      && (s.session.sawResources || (ev.kind.EndpointDown? && ev.model != s.session.model) ==> b.session.sawResources)
  {
    hide ApplyBackend;
  }

  lemma SoundProbe(y: Sys, e: Event, gone: set<nat>, id: Model)
    requires Possible(y, e) && e.ProbeReturns? && id in y.clients && SoundFor(y, id)
    requires CInv(y)
    ensures SoundFor(Next(y, e, gone), id)
  {
    hide CInv, Next, HostOf, Understated, Absorb, Noted;
    StoryTold(y, e, gone, id);
    UnderstatedStays(y, e, gone, id);
    var ev := ResultOf(y.s.out.probes[e.i], e.kind, e.rec, e.active, e.at);
    if RecoverMode(y.s, ev.token).Current? {
      SessionHead(y);
      VerdictExcuses(y.s, e.i, ev);
    } else if y.s.queued != [] {
      if !y.s.phase.Recover? { ProbedHead(y); } else { RecoverIsCurrent(y, e.i); }
      UnheardHead(y, id);
    }
  }

  lemma RecoverIsCurrent(y: Sys, i: nat)
    requires y.s.phase.Recover? && i < |y.s.out.probes|
    requires CInv(y)
    ensures RecoverMode(y.s, y.s.out.probes[i].token).Current?
  {
    hide CoreInv, SessionInv, AskInv, SeenInv, TargetInv, AroundOK, HostOf, Suspects;
  }

  // ---------------------------------------------------------------- the same inside a client

  /** The model whose client an event is about. */
  ghost function Moved(y: Sys, e: Event): Model {
    if !Possible(y, e) then 0
    else
      match e
      case EnsureCalled(i, _) => y.s.out.loads[i].model
      case OpReturns(m, _) => m
      case StopStarts(i) => y.s.out.unloads[i].ids[0]
      case StopReturns(i, _) => y.s.out.unloads[i].ids[0]
      case _ => 0
  }

  lemma AtClientSame(y: Sys, e: Event, gone: set<nat>)
    requires Possible(y, e) && AtClient(e)
    ensures OnlyAt(y, Next(y, e, gone), Moved(y, e))
  {
    hide HostOf, OnlyAt, AfterEnsure, AfterOp, AfterStopStarts, AfterStopReturns;
    match e
    case EnsureCalled(i, call) => EnsureOnly(y, i, call);
    case OpReturns(m, fault) => OpOnly(y, m, fault);
    case StopStarts(i) => StopOnly(y, i, None);
    case StopReturns(i, fault) => StopOnly(y, i, fault);
  }

  /** Nothing changed but the jobs' stages and the client of m. */
  ghost predicate OnlyAt(y: Sys, r: Sys, m: Model) {
    && r.s == y.s.(out := y.s.out.(loads := r.s.out.loads, unloads := r.s.out.unloads))
    && r.l == y.l && m in y.clients && r.clients.Keys == y.clients.Keys
    && forall id :: id in y.clients && id != m ==> r.clients[id] == y.clients[id]
  }

  lemma EnsureOnly(y: Sys, i: nat, call: nat)
    requires i < |y.s.out.loads| && y.s.out.loads[i].model in y.clients
    ensures OnlyAt(y, AfterEnsure(y, i, call), y.s.out.loads[i].model)
  {
    hide OnReady;
  }

  lemma OpOnly(y: Sys, m: Model, fault: Option<Fault>)
    requires m in y.clients && ClientOf(y, m).op.Some?
    ensures OnlyAt(y, AfterOp(y, m, fault), m)
  {
    hide OnOpDone;
  }

  lemma StopOnly(y: Sys, i: nat, fault: Option<Fault>)
    requires UnloadAt(y, i)
    ensures OnlyAt(y, AfterStopStarts(y, i), y.s.out.unloads[i].ids[0])
    ensures OnlyAt(y, AfterStopReturns(y, i, fault), y.s.out.unloads[i].ids[0])
  {
    hide BeginStop, EndStop;
  }

  lemma ExcuseAtClient(y: Sys, e: Event, gone: set<nat>)
    requires Possible(y, e) && AtClient(e) && y.s.queued != [] && WillNotAct(y)
    requires CInv(y)
    ensures WillNotAct(Next(y, e, gone))
  {
    hide CInv, Next, HostOf, CallsInv;
    AtClientSame(y, e, gone);
    OneJob(y);
    ClientFacts(y, Moved(y, e));
  }

  lemma OpUnderstates(y: Sys, m: Model, fault: Option<Fault>)
    requires m in y.clients && ClientOf(y, m).op.Some? && !ClientOf(y, m).stopping && HoldOK(y, m)
    requires CInv(y)
    ensures Understated(AfterOp(y, m, fault), m) ==> LoadOf(y.s, m)
  {
    hide CInv, CallsInv, JobOK;
    ClientFacts(y, m);
    hide UnloadsOK;
  }

  lemma EnsureUnderstates(y: Sys, i: nat, call: nat)
    requires i < |y.s.out.loads| && y.s.out.loads[i].model in y.clients
    requires CInv(y)
    ensures var m := y.s.out.loads[i].model;
      Understated(AfterEnsure(y, i, call), m) ==> Understated(y, m)
  {
    hide CInv, CallsInv;
    ClientFacts(y, y.s.out.loads[i].model);
    hide UnloadsOK;
  }

  lemma StopFacts(y: Sys, i: nat)
    requires UnloadAt(y, i) && HoldOK(y, y.s.out.unloads[i].ids[0])
    requires CInv(y)
    ensures var v := y.s.out.unloads[i].ids[0];
      && v !in y.s.unloadFail && !LoadOf(y.s, v) && ClientInv(ClientOf(y, v))
      && (y.s.out.unloads[i].stage.Stopping? ==>
            ClientOf(y, v).stopping && (v in y.l.reserved ==> LedgerLaws.AtPeak(y.l, v)))
  {
    hide CInv, CallsInv;
    OneJob(y);
    UnloadTarget(y, i);
    ClientFacts(y, y.s.out.unloads[i].ids[0]);
  }

  lemma StopUnderstates(y: Sys, i: nat, fault: Option<Fault>)
    requires UnloadAt(y, i) && HoldOK(y, y.s.out.unloads[i].ids[0])
    requires CInv(y)
    ensures var v := y.s.out.unloads[i].ids[0];
      && (!ClientOf(y, v).stopping ==> !Understated(AfterStopStarts(y, i), v))
      && (y.s.out.unloads[i].stage.Stopping? ==> !Understated(AfterStopReturns(y, i, fault), v))
  {
    hide CInv, CallsInv, HoldOK, UnloadsOK;
    StopFacts(y, i);
  }

  lemma MovedUnderstated(y: Sys, e: Event, gone: set<nat>)
    requires Possible(y, e) && AtClient(e) && HoldInv(y)
    requires CInv(y)
    ensures Understated(Next(y, e, gone), Moved(y, e)) ==> Understated(y, Moved(y, e)) || LoadOf(y.s, Moved(y, e))
  {
    hide CInv, HostOf, HoldOK, Understated, AfterEnsure, AfterOp, AfterStopStarts, AfterStopReturns, LoadOf;
    match e
    case EnsureCalled(i, call) => EnsureUnderstates(y, i, call);
    case OpReturns(m, fault) => OpUnderstates(y, m, fault);
    case StopStarts(i) => StopUnderstates(y, i, None);
    case StopReturns(i, fault) => StopUnderstates(y, i, fault);
  }

  lemma OthersUnderstated(y: Sys, r: Sys, id: Model)
    requires id in y.clients && id in r.clients && ClientOf(r, id) == ClientOf(y, id) && r.l == y.l
    requires r.s.unloadFail == y.s.unloadFail
    ensures Understated(r, id) == Understated(y, id)
  {
  }

  lemma SoundAtClient(y: Sys, e: Event, gone: set<nat>, id: Model)
    requires Possible(y, e) && AtClient(e) && HoldInv(y) && id in y.clients && SoundFor(y, id)
    requires CInv(y)
    ensures SoundFor(Next(y, e, gone), id)
  {
    hide CInv, Next, HostOf, Understated, WillNotAct, HoldInv, Moved;
    AtClientSame(y, e, gone);
    var r := Next(y, e, gone);
    if id == Moved(y, e) {
      MovedUnderstated(y, e, gone);
      OneJob(y);
      if y.s.queued != [] && LoadOf(y.s, id) {
        WorkingHead(y);
        if y.s.queued[0].id !in y.s.book.seen { UnheardHead(y, id); }
      }
    } else {
      OthersUnderstated(y, r, id);
    }
    if y.s.queued != [] && WillNotAct(y) { ExcuseAtClient(y, e, gone); }
  }

  lemma SoundKeeps(y: Sys, e: Event, gone: set<nat>)
    requires Possible(y, e) && HoldInv(y) && Sound(y)
    requires CInv(y)
    ensures Sound(Next(y, e, gone))
  {
    hide CInv, Possible, Next, HoldInv, SoundFor;
    KeysStay(y, e, gone);
    var r := Next(y, e, gone);
    forall id | id in r.clients
      ensures SoundFor(r, id)
    {
      if AtClient(e) { SoundAtClient(y, e, gone, id); }
      else if e.UnloadFails? { SoundFails(y, e, gone, id); }
      else if e.ProbeReturns? { SoundProbe(y, e, gone, id); }
      else { SoundOther(y, e, gone, id); }
    }
  }

  // ---------------------------------------------------------------- the worst that may come

  lemma HeavyOutside(y: Sys, e: Event, gone: set<nat>, id: Model)
    requires Possible(y, e) && !AtClient(e) && id in y.clients
    requires CInv(y)
    ensures var r := Next(y, e, gone);
      Heavy(r, id) ==> Heavy(y, id) || (NewLoadAt(y, e, r) && LoadOf(r.s, id))
  {
    hide CInv, Next, HostOf, Taken, MarkerGoes;
    ClientsStay(y, e, gone);
    UnloadFailMoves(y, e, gone);
    JobsAfter(y, e, gone);
    NewVictim(y, e, gone, id);
    if Asks(y, e, id) { ProbedAlone(y, e.i); }
    hide Possible;
  }

  lemma MovedIsHeavy(y: Sys, e: Event)
    requires Possible(y, e) && AtClient(e)
    requires CInv(y)
    ensures Heavy(y, Moved(y, e))
  {
    hide CInv, CallsInv;
    OneJob(y);
    if e.OpReturns? { ClientFacts(y, e.m); }
  }

  /** The same models are being loaded and unloaded. */
  ghost predicate SameTargets(s: Sched, r: Sched) {
    && |r.out.loads| == |s.out.loads| && |r.out.unloads| == |s.out.unloads|
    && (forall i :: 0 <= i < |s.out.loads| ==> r.out.loads[i].model == s.out.loads[i].model)
    && (forall i :: 0 <= i < |s.out.unloads| ==> r.out.unloads[i].ids == s.out.unloads[i].ids)
  }

  lemma EnsureTargets(y: Sys, i: nat, call: nat)
    requires i < |y.s.out.loads| && y.s.out.loads[i].model in y.clients
    ensures SameTargets(y.s, AfterEnsure(y, i, call).s)
  {
    hide OnReady;
  }

  lemma OpTargets(y: Sys, m: Model, fault: Option<Fault>)
    requires m in y.clients && ClientOf(y, m).op.Some?
    ensures SameTargets(y.s, AfterOp(y, m, fault).s)
  {
    hide OnOpDone;
  }

  lemma StopTargets(y: Sys, i: nat, fault: Option<Fault>)
    requires UnloadAt(y, i)
    ensures SameTargets(y.s, AfterStopStarts(y, i).s) && SameTargets(y.s, AfterStopReturns(y, i, fault).s)
  {
    hide BeginStop, EndStop;
  }

  lemma SameJobs(y: Sys, e: Event, gone: set<nat>, id: Model)
    requires Possible(y, e) && AtClient(e)
    ensures LoadOf(Next(y, e, gone).s, id) == LoadOf(y.s, id) && UnloadOf(Next(y, e, gone).s, id) == UnloadOf(y.s, id)
  {
    hide HostOf, AfterEnsure, AfterOp, AfterStopStarts, AfterStopReturns;
    match e
    case EnsureCalled(i, call) => EnsureTargets(y, i, call);
    case OpReturns(m, fault) => OpTargets(y, m, fault);
    case StopStarts(i) => StopTargets(y, i, None);
    case StopReturns(i, fault) => StopTargets(y, i, fault);
  }

  lemma HeavyAtClient(y: Sys, e: Event, gone: set<nat>, id: Model)
    requires Possible(y, e) && AtClient(e) && id in y.clients
    requires CInv(y)
    ensures Heavy(Next(y, e, gone), id) ==> Heavy(y, id)
  {
    hide CInv, Next, Possible, LoadOf, UnloadOf, Live, Moved;
    AtClientSame(y, e, gone);
    SameJobs(y, e, gone, id);
    MovedIsHeavy(y, e);
  }

  /** What falls was held before. */
  lemma FallingHeld(y: Sys, e: Event, id: Model)
    requires Possible(y, e) && MarkerGoes(y, e, id) && !Heavy(y, id)
    requires CInv(y)
    ensures id in y.l.marker
  {
    hide CInv, Usable;
    OneJob(y);
    if e.UnloadReturns? { UnloadTarget(y, e.i); }
  }

  lemma LiftedIsHeavy(y: Sys, e: Event, id: Model)
    requires Possible(y, e) && LiftsAt(y, e, id)
    requires CInv(y)
    ensures Heavy(y, id)
  {
    hide CInv, CallsInv;
    OneJob(y);
    if e.GateAsked? { ClientFacts(y, id); }
    if e.ProbeReturns? { ProbedAlone(y, e.i); }
  }

  lemma HeldMoves(y: Sys, e: Event, gone: set<nat>, id: Model)
    requires Possible(y, e) && id in y.clients && HoldOK(y, id) && !Heavy(y, id) && id in y.l.cfg.models
    requires CInv(y)
    ensures LedgerLaws.Held(Next(y, e, gone).l, id) <= LedgerLaws.Held(y.l, id)
  {
    hide CInv, Next, Possible, Heavy, LiftsAt, MarkerGoes, PeakOK, JobOK;
    LedgerFacts(y);
    HoldAfter(y, e, gone, id);
    if LiftsAt(y, e, id) { LiftedIsHeavy(y, e, id); }
    if MarkerGoes(y, e, id) { FallingHeld(y, e, id); }
  }

  lemma WorstWithin(y: Sys, id: Model)
    requires id in y.l.cfg.models && LedgerLaws.LedgerOK(y.l)
    ensures 0 <= LedgerLaws.Held(y.l, id) <= y.l.cfg.models[id].peak && 0 <= Worst(y, id) <= y.l.cfg.models[id].peak
  {
    hide Heavy;
  }

  /** Nothing gets worse, except by starting to load a model. */
  lemma WorstMoves(y: Sys, e: Event, gone: set<nat>, id: Model)
    requires Possible(y, e) && id in y.clients && HoldOK(y, id) && id in y.l.cfg.models
    requires CInv(y)
    ensures var r := Next(y, e, gone);
      && r.l.cfg == y.l.cfg
      && (Worst(r, id) <= Worst(y, id) || (!AtClient(e) && NewLoadAt(y, e, r) && LoadOf(r.s, id) && !Heavy(y, id)))
  {
    hide CInv, Next, Possible, Heavy, HoldOK, LedgerLaws.LedgerOK, LedgerLaws.Held, NewLoadAt;
    KeysStay(y, e, gone);
    Keeps(y, e, gone);
    LedgerFacts(y);
    LedgerFacts(Next(y, e, gone));
    WorstWithin(Next(y, e, gone), id);
    if AtClient(e) { HeavyAtClient(y, e, gone, id); } else { HeavyOutside(y, e, gone, id); }
    if !Heavy(y, id) { HeldMoves(y, e, gone, id); }
  }

  // ---------------------------------------------------------------- a load that starts

  /** What the planner counts covers the worst, unless it counts a model in doubt too low. */
  lemma HoldsCoverWorst(r: Sys, m: Model, id: Model)
    requires LedgerLaws.LedgerOK(r.l) && id in r.l.cfg.models && id in r.clients && HoldOK(r, id)
    requires AllBound(r.l, StatesOf(r.clients), m) && !Understated(r, id)
    requires LoadOf(r.s, m) && r.s.out.unloads == []
    ensures id != m ==> Worst(r, id) <= Holds(r.l, StatesOf(r.clients), m)[id]
  {
    hide JobOK;
    if id != m { assert BoundFor(r.l, StatesOf(r.clients), id).Some?; }
  }

  lemma TargetCovers(r: Sys, m: Model)
    requires m in r.l.cfg.models && LedgerLaws.LedgerOK(r.l)
    ensures Worst(r, m) <= Holds(r.l, StatesOf(r.clients), m)[m]
  {
    hide Heavy;
  }

  lemma WorstsCovered(r: Sys, m: Model)
    requires LedgerLaws.LedgerOK(r.l) && HoldInv(r) && r.clients.Keys == r.l.cfg.models.Keys
    requires AllBound(r.l, StatesOf(r.clients), m) && LoadOf(r.s, m) && r.s.out.unloads == []
    requires forall id :: id in r.clients && id != m ==> !Understated(r, id)
    ensures Total(Worsts(r)) <= Total(Holds(r.l, StatesOf(r.clients), m))
  {
    hide LedgerLaws.LedgerOK, HoldOK, Understated, AllBound, Total, Worst;
    var hs := Holds(r.l, StatesOf(r.clients), m);
    forall id | id in r.l.cfg.models
      ensures 0 <= Worst(r, id) <= hs[id]
    {
      WorstWithin(r, id);
      if id == m { TargetCovers(r, m); } else { HoldsCoverWorst(r, m, id); }
    }
    TotalMono(Worsts(r), hs);
  }

  /** The head a load was started for has heard about every model in doubt, or joins a load in progress. */
  ghost predicate Started(r: Sys, m: Model) {
    && LoadOf(r.s, m) && r.s.out.unloads == [] && r.s.phase.Loading?
    && r.s.queued != [] && r.s.queued[0].model == m && m in r.clients && !r.clients[m].state.Ready?
    && Decide(r.l, StatesOf(r.clients), r.now, m) == Evict([])
    && (r.clients[m].state.Starting?
        || forall id: Model :: InDoubt(r, id) ==> (r.s.queued[0].id, id) in r.s.out.noted)
  }

  lemma StartedSound(y: Sys, e: Event, gone: set<nat>, m: Model)
    requires Possible(y, e) && !AtClient(e)
    requires CInv(y)
    ensures var r := Next(y, e, gone); NewLoadAt(y, e, r) && LoadOf(r.s, m) ==> Started(r, m)
  {
    hide CInv, Next, Possible, Taken, Decide, HostOf, Story, StoryBase, Inv, Evidence, FairUnload, InDoubt;
    var r := Next(y, e, gone);
    if NewLoadAt(y, e, r) && LoadOf(r.s, m) {
      Keeps(y, e, gone);
      JobsAfter(y, e, gone);
      OneJob(r);
      EvidenceMeans(r, gone);
      DecidedHere(r, gone, m);
    }
  }

  lemma DecidedHere(r: Sys, gone: set<nat>, m: Model)
    requires m in r.clients
    ensures DecideOf(HostOf(r, gone), m) == Decide(r.l, StatesOf(r.clients), r.now, m)
  {
    hide Decide;
  }

  ghost predicate SnapOK(l: Ledger, total: int) {
    l.boot ==> l.snap.ok && LedgerLaws.Sized(total, l.snap)
  }

  /** So everything that may come of it fits. */
  lemma StartedFits(r: Sys, m: Model, total: int)
    requires Started(r, m) && !ClientOf(r, m).state.Starting? && HoldInv(r) && Sound(r) && SnapOK(r.l, total)
    requires LedgerLaws.LedgerOK(r.l) && r.clients.Keys == r.l.cfg.models.Keys
    ensures Total(Worsts(r)) <= total - r.l.cfg.margin
  {
    hide HoldInv, LedgerLaws.LedgerOK, Understated, InDoubt, Total, Worsts, Holds, AllBound, AdmitWithoutEvict,
         FitsIfRestResidual, Heavy;
    forall id | id in r.clients && id != m
      ensures !Understated(r, id)
    {
      HeardIsSound(r, m, id);
    }
    LedgerLaws.AdmissibleFits(r.l, StatesOf(r.clients), m);
    WorstsCovered(r, m);
  }

  lemma HeardIsSound(r: Sys, m: Model, id: Model)
    requires Started(r, m) && !ClientOf(r, m).state.Starting? && Sound(r) && id in r.clients && id != m
    ensures !Understated(r, id)
  {
    hide InDoubt, Decide, LoadOf;
    assert SoundFor(r, id);
    assert Understated(r, id) ==> InDoubt(r, id);
    hide Understated;
  }

  /** A model that is not heavy and whose load starts was not loading already. */
  lemma FreshLoad(y: Sys, e: Event, gone: set<nat>, m: Model)
    requires Possible(y, e) && !AtClient(e) && m in y.clients && !Heavy(y, m)
    requires CInv(y)
    ensures m in Next(y, e, gone).clients && !ClientOf(Next(y, e, gone), m).state.Starting?
  {
    hide CInv, Next;
    ClientsStay(y, e, gone);
    if Asks(y, e, m) { ProbedAlone(y, e.i); }
    hide Possible;
  }

  // ---------------------------------------------------------------- over every run

  /** The worst that may come fits into the device, less the margin. */
  ghost predicate Bounded(y: Sys, total: int) {
    HoldInv(y) && Sound(y) && SnapOK(y.l, total) && Total(Worsts(y)) <= total - y.l.cfg.margin
  }

  lemma SnapKeeps(y: Sys, e: Event, gone: set<nat>, total: int)
    requires Possible(y, e) && SnapOK(y.l, total) && Samples(e, total)
    requires CInv(y)
    ensures SnapOK(Next(y, e, gone).l, total)
  {
    hide CInv, Next, LedgerLaws.LedgerOK, LedgerLaws.Sized, RecoverMode, AskClient, UnloadAt, ClearedBy, MarkAll;
    LedgerStep(y, e, gone);
    if HappeningOf(y, e).Some? { SnapStep(y.l, HappeningOf(y, e).value, total); }
  }

  lemma SnapStep(l: Ledger, h: LedgerLaws.Happening, total: int)
    requires SnapOK(l, total) && LedgerLaws.SampleSized(total, h)
    ensures SnapOK(LedgerLaws.Apply(l, h), total)
  {
    hide AdmitWithoutEvict, GpuFresh, Lowered, ClearedBy, EnsurePeak, AppliedResult, TimeOf, LedgerLaws.Sized;
    if h.Probe? {
      LedgerLaws.EnsurePeakSpec(l, h.ev.model);
      LedgerLaws.AppliedSpec(l, h.now, h.ev);
    }
  }

  lemma NoWorse(y: Sys, r: Sys)
    requires LedgerLaws.LedgerOK(y.l) && r.l.cfg == y.l.cfg
    requires forall id :: id in y.l.cfg.models ==> Worst(r, id) <= Worst(y, id)
    ensures Total(Worsts(r)) <= Total(Worsts(y))
  {
    hide Worst, LedgerLaws.LedgerOK, Total;
    forall id | id in y.l.cfg.models ensures Worst(y, id) >= 0 { WorstWithin(y, id); }
    TotalMono(Worsts(r), Worsts(y));
  }

  /** Every event keeps it so. */
  lemma BoundedKeeps(y: Sys, e: Event, gone: set<nat>, total: int)
    requires Possible(y, e) && Bounded(y, total) && Samples(e, total)
    requires CInv(y)
    ensures Bounded(Next(y, e, gone), total)
  {
    hide CInv, Next, Possible, HoldOK, Sound, SnapOK, Worst, Worsts, Total, LedgerLaws.LedgerOK, Samples, Heavy,
         NewLoadAt, LoadOf, Started;
    var r := Next(y, e, gone);
    Keeps(y, e, gone);
    LedgerFacts(y);
    LedgerFacts(r);
    HoldKeeps(y, e, gone);
    SoundKeeps(y, e, gone);
    SnapKeeps(y, e, gone, total);
    KeysStay(y, e, gone);
    if m :| m in y.clients && !AtClient(e) && NewLoadAt(y, e, r) && LoadOf(r.s, m) && !Heavy(y, m) {
      StartedSound(y, e, gone, m);
      FreshLoad(y, e, gone, m);
      StartedFits(r, m, total);
    } else {
      forall id | id in y.l.cfg.models
        ensures Worst(r, id) <= Worst(y, id)
      {
        WorstMoves(y, e, gone, id);
      }
      NoWorse(y, r);
    }
  }

  lemma {:induction false} BoundedAlways(y: Sys, run: seq<Step>, total: int)
    requires Bounded(y, total) && OnDevice(run, total)
    requires IsRun(y, run) && CInv(y)
    ensures Bounded(After(y, run), total) && CInv(After(y, run)) && After(y, run).l.cfg == y.l.cfg
    decreases |run|
  {
    hide CInv, Possible, Next, Bounded, Samples;
    if run != [] {
      Keeps(y, run[0].event, run[0].gone);
      BoundedKeeps(y, run[0].event, run[0].gone, total);
      ConfigStays(y, run[0].event, run[0].gone);
      assert forall i :: 0 <= i < |run| - 1 ==> run[1..][i] == run[i + 1];
      BoundedAlways(Next(y, run[0].event, run[0].gone), run[1..], total);
    }
  }

  // ---------------------------------------------------------------- from boot

  /** The peaks of the models that were ready, loading, failed or unknown at boot. */
  function Stake(y: Sys): map<Model, int> {
    map id | id in y.l.cfg.models ::
      if id in y.clients && Live(y.clients[id].state) then y.l.cfg.models[id].peak else 0
  }

  lemma BootBounded(y: Sys, total: int)
    requires SnapOK(y.l, total) && Total(Stake(y)) <= total - y.l.cfg.margin
    requires Boot(y)
    ensures Bounded(y, total)
  {
    hide Boot, Total, Live, Slots, HoldOK, SoundFor, Busy;
    BootFresh(y);
    forall id | id in y.clients ensures HoldOK(y, id) { BootHold(y, id); }
    forall id | id in y.clients ensures SoundFor(y, id) { BootSound(y, id); }
    BootWorst(y);
  }

  lemma BootHold(y: Sys, id: Model)
    requires id in y.clients && y.l.reserved == map[] && y.l.marker == map[] && y.s.out.loads == []
    requires y.s.out.unloads == []
    ensures HoldOK(y, id)
  {
  }

  lemma BootSound(y: Sys, id: Model)
    requires y.s.queued == []
    ensures SoundFor(y, id)
  {
  }

  lemma BootWorst(y: Sys)
    requires y.l.reserved == map[] && y.s.out.loads == [] && y.s.out.unloads == [] && y.s.unloadFail == {}
    ensures Worsts(y) == Stake(y)
  {
  }

  ghost predicate StaysWithin(y: Sys, total: int) {
    forall run :: IsRun(y, run) && OnDevice(run, total) ==> LedgerLaws.WithinDevice(After(y, run).l, total)
  }

  /**
   If the peaks of the models that were ready, loading, failed or unknown at boot fit into
   the device together, less the margin, then in every run so do the reservations: whatever
   is loaded, unloaded, failed, found by recovery or adopted from a backend on the way.
   */
  lemma ReservationsStayWithinDevice(y: Sys, run: seq<Step>, total: int)
    requires SnapOK(y.l, total) && Total(Stake(y)) <= total - y.l.cfg.margin
    requires OnDevice(run, total)
    requires Boot(y) && IsRun(y, run)
    ensures LedgerLaws.WithinDevice(After(y, run).l, total)
  {
    hide Boot, CInv, IsRun, After, Worsts, Total, Stake, HoldInv, Sound, LedgerLaws.LedgerOK;
    BootHolds(y);
    BootBounded(y, total);
    BoundedAlways(y, run, total);
    LedgerFacts(After(y, run));
    ReservedWithinWorst(After(y, run));
  }
}
