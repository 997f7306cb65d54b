/** Eviction over runs: unless something gets in its way, the head is made room for in a bounded number of unloads. */
module SystemEviction {
  import opened Types
  import opened Admission
  import opened Scheduler
  import opened SchedulerLaws
  import opened SchedulerHandlers
  import opened SchedulerRecovery
  import opened Ledger
  import opened ClientLoop
  import LedgerLaws
  import opened System
  import opened SystemLaws
  import opened SystemRuns
  import opened SystemGate
  import opened SystemCapacity
  import opened SystemFrozen
  import opened SystemRounds
  import opened SystemOvercommit
  import opened SystemUnloads
  import opened SystemFree

  // ---------------------------------------------------------------- an eviction in progress

  /** The model is being unloaded, or is ready and has no calls, or is unloaded already. */
  ghost predicate Yields(y: Sys, id: Model)
    requires id in y.clients && id in y.l.cfg.models
  {
    || UnloadOf(y.s, id)
    || (y.clients[id].state.Ready? && !Busy(y.s.work, id))
    || AtResidual(y.l, StatesOf(y.clients), id)
  }

  /** The one model being unloaded. */
  function VictimOf(s: Sched): Model {
    if s.out.unloads != [] && s.out.unloads[0].ids != [] then s.out.unloads[0].ids[0] else 0
  }

  /** An unload for the head is in flight; the head has room once all others are unloaded, and nobody is in doubt. */
  ghost predicate MakingRoom(y: Sys, head: Req, total: int) {
    && y.s.phase.Unloading? && y.s.swap.began && y.s.queued != [] && y.s.queued[0] == head
    && |y.s.out.unloads| == 1 && y.s.out.unloads[0].ids == [VictimOf(y.s)] && y.s.swap.evict == [VictimOf(y.s)]
    && y.s.gates.closed <= {VictimOf(y.s)} && y.s.unloadFail == {} && y.s.out.loads == [] && VictimOf(y.s) in y.clients
    && HeadFits(y, head.model, total)
    && y.l.marker == map[] && !y.clients[VictimOf(y.s)].state.Starting?
    && forall id :: id in y.clients ==> Undoubted(y, head.model, id)
  }

  ghost predicate HeadFits(y: Sys, t: Model, total: int) {
    && t in y.clients && !y.clients[t].state.Ready? && !UnloadOf(y.s, t) && Slots(y.s.work, t) < Limit(y.s.cfg, t)
    && RoomFor(y.l.cfg, t, total)
  }

  ghost predicate Undoubted(y: Sys, t: Model, id: Model)
    requires id in y.clients
  {
    !Doubtful(y.clients[id]) && id in y.l.cfg.models && (id != t ==> Yields(y, id))
  }

  /** The others that are ready or being unloaded. */
  function Todo(y: Sys, t: Model): set<Model> {
    set id | id in y.clients && id != t && (UnloadOf(y.s, id) || y.clients[id].state.Ready?)
  }

  /** Ready, and not being unloaded yet. */
  ghost predicate InLine(y: Sys, t: Model, id: Model) {
    id in y.clients && id != t && y.clients[id].state.Ready? && !UnloadOf(y.s, id)
  }

  /** The model whose backend a status read reports active. */
  function Louder(y: Sys, e: Event): set<Model> {
    match e
    case StatusReturns(i, count) =>
      if i < |y.statuses| && count.Some? && count.value > 0 then {y.statuses[i].model} else {}
    case _ => {}
  }

  /**
   The head stays, its model's own load does not end, no stop fails, the unload is reported
   with a fresh sample of the device, and no model in line is reported active.
   */
  ghost predicate Undisturbed(y: Sys, e: Event, head: Req, total: int) {
    && (forall id :: id in Louder(y, e) ==> !InLine(y, head.model, id))
    && match e
       case Cancel(id) => id != head.id
       case TimesOut(id) => id != head.id
       case OpReturns(m, _) => m != head.model
       case StopReturns(_, fault) => fault.None?
       case UnloadFails(_, _) => false
       case UnloadReturns(_, sample, _) => sample.total == total && Fresh(sample, y.now, ObserveAge(y.l.cfg))
       case _ => true
  }

  // ---------------------------------------------------------------- events that leave it in progress

  /** No model has more calls, and none but those in `louder` becomes busy. */
  ghost predicate Eases(w: Work, w': Work, louder: set<Model>) {
    forall m :: Slots(w', m) <= Slots(w, m) && (Busy(w', m) && m !in louder ==> Busy(w, m))
  }

  /** The scheduler waits on: only the tail of the queue and finished work may have changed. */
  ghost predicate WaitsOn(s: Sched, r: Sched, louder: set<Model>) {
    && r.phase == s.phase && r.swap == s.swap && r.cfg == s.cfg && r.unloadFail == s.unloadFail
    && r.gates.closed == s.gates.closed
    && s.queued != [] && r.queued != [] && r.queued[0] == s.queued[0] && SameTargets(s, r)
    && Eases(s.work, r.work, louder)
  }

  /** The eviction goes on: of the clients only the victim's moved, of what is held only t's. */
  ghost predicate GoesOn(y: Sys, r: Sys, t: Model, louder: set<Model>) {
    && WaitsOn(y.s, r.s, louder) && ClientsOn(y, r)
    && r.l.cfg == y.l.cfg && r.l.marker == y.l.marker && forall id :: id != t ==> LedgerLaws.SameHold(y.l, r.l, id)
  }

  ghost predicate ClientsOn(y: Sys, r: Sys) {
    && r.clients.Keys == y.clients.Keys
    && (forall m :: m in y.clients && !UnloadOf(y.s, m) ==> r.clients[m] == y.clients[m])
    && (forall m :: m in y.clients && UnloadOf(y.s, m) ==> !Doubtful(r.clients[m]) && !r.clients[m].state.Starting?)
  }

  lemma StaysUndoubted(y: Sys, r: Sys, t: Model, id: Model, louder: set<Model>)
    requires id in y.clients && id in r.clients && GoesOn(y, r, t, louder) && Undoubted(y, t, id)
    requires id in louder ==> !InLine(y, t, id)
    ensures Undoubted(r, t, id)
  {
    hide Slots, Busy;
    assert id != t ==> LedgerLaws.SameHold(y.l, r.l, id);
    assert id in StatesOf(r.clients);
  }

  lemma StaysMaking(y: Sys, r: Sys, head: Req, total: int, louder: set<Model>)
    requires MakingRoom(y, head, total) && GoesOn(y, r, head.model, louder)
    requires forall id :: id in louder ==> !InLine(y, head.model, id)
    ensures MakingRoom(r, head, total) && Todo(r, head.model) == Todo(y, head.model)
  {
    hide Slots, Busy, RoomFor, Limit, Undoubted;
    assert UnloadOf(y.s, VictimOf(y.s));
    forall id | id in r.clients
      ensures Undoubted(r, head.model, id)
    {
      assert Undoubted(y, head.model, id);
      StaysUndoubted(y, r, head.model, id, louder);
    }
  }

  /** While an unload is in flight dispatch does nothing. */
  lemma Waits(s: Sched, h: Host)
    requires s.phase.Unloading? && s.swap.began
    ensures TryDispatch(s, h) == s
  {
  }

  lemma RequestWaits(s: Sched, h: Host, req: Req, left: bool)
    requires s.phase.Unloading? && s.swap.began && s.queued != [] && req.id != 0
    ensures WaitsOn(s, OnRequest(s, h, req, left), {})
  {
    hide TryDispatch;
    Waits(Admit(s, req), h);
  }

  lemma LeavingWaits(s: Sched, h: Host, id: nat)
    requires s.phase.Unloading? && s.swap.began && s.queued != [] && s.queued[0].id != id
    ensures WaitsOn(s, OnCancel(s, h, id), {}) && WaitsOn(s, OnQueueTimeout(s, h, id), {})
  {
    hide TryDispatch;
    var i := IndexOf(s.queued, id);
    if i < |s.queued| {
      assert i > 0;
      var x := s.(queued := RemoveAt(s.queued, i));
      Waits(x.(out := s.out.(cancelled := s.out.cancelled + multiset{id})), h);
      Waits(x.(out := Answer(s.out, id, Errored(QueueTimeout))), h);
    }
  }

  lemma CancelEases(w: Work, m: Model)
    ensures Eases(w, CancelGranted(w, m), {})
  {
  }

  lemma ServeEases(w: Work, m: Model)
    ensures Eases(w, ServeDone(w, m), {})
  {
  }

  lemma BackendEases(w: Work, m: Model)
    ensures Eases(w, w.(backend := w.backend - {m}), {})
  {
  }

  lemma StatusEases(w: Work, m: Model, active: nat, proof: nat)
    ensures Eases(w, ApplyBackend(w, m, active, proof), if active > 0 then {m} else {})
  {
  }

  lemma WorkWaits(s: Sched, h: Host, m: Model, count: Option<nat>, gen: nat)
    requires s.phase.Unloading? && s.swap.began && s.queued != []
    ensures WaitsOn(s, OnCancelGranted(s, h, m), {}) && WaitsOn(s, OnServeDone(s, h, m), {})
    ensures WaitsOn(s, OnBackendDone(s, h, m), {})
    ensures WaitsOn(s, OnStatus(s, h, m, count, gen), if count.Some? && count.value > 0 then {m} else {})
  {
    hide TryDispatch, CancelGranted, ServeDone, ApplyBackend, Eases;
    CancelEases(s.work, m);
    ServeEases(s.work, m);
    BackendEases(s.work, m);
    Waits(s.(work := CancelGranted(s.work, m)), h);
    Waits(s.(work := ServeDone(s.work, m)), h);
    Waits(s.(work := s.work.(backend := s.work.backend - {m})), h);
    if count.Some? {
      StatusEases(s.work, m, count.value, gen);
      Waits(s.(work := ApplyBackend(s.work, m, count.value, gen)), h);
    }
    assert Eases(s.work, s.work, {}) by { SameEases(s.work); }
  }

  lemma SameEases(w: Work)
    ensures Eases(w, w, {})
  {
  }

  lemma ProxyWaits(s: Sched, m: Model)
    requires s.queued != []
    ensures WaitsOn(s, OnProxyStart(s, m).0, {})
  {
  }

  lemma RemindWaits(s: Sched, h: Host, i: nat)
    requires s.phase.Unloading? && s.swap.began && s.queued != [] && i < |s.out.reminders|
    ensures WaitsOn(s, OnRemind(TakeReminder(s, i), h), {})
  {
    hide TryDispatch;
    var x := TakeReminder(s, i);
    Waits(x.(gates := x.gates.(armed := false)), h);
  }

  /** A sample clears no marker, a result is dropped. */
  lemma ResultWaits(s: Sched, h: Host)
    requires s.phase.Unloading? && s.queued != []
    ensures ClearMarkers(s, h, []) == s && SampleFailed(s, h) == s && WaitsOn(s, s, {})
  {
    SameWaits(s);
  }

  lemma DropWaits(s: Sched, i: nat, token: nat)
    requires s.phase.Unloading? && s.queued != [] && i < |s.out.probes|
    ensures RecoverMode(s, token).Drop? && WaitsOn(s, Returned(s, i), {})
  {
    SameEases(s.work);
    hide Eases;
  }

  lemma InProgress(y: Sys, head: Req, total: int)
    requires MakingRoom(y, head, total)
    ensures y.s.phase.Unloading? && y.s.swap.began && y.s.queued != [] && y.s.queued[0] == head && y.s.out.loads == []
    ensures y.l.marker == map[] && ClientsOn(y, y)
  {
    forall m | m in y.clients && UnloadOf(y.s, m)
      ensures !Doubtful(y.clients[m]) && !y.clients[m].state.Starting?
    {
      assert Undoubted(y, head.model, m);
    }
  }

  lemma SampleLedger(l: Ledger, sample: Snapshot)
    requires l.marker == map[]
    ensures var r := Observe(l, sample); r == l.(snap := r.snap, boot := r.boot)
    ensures ClearedBy(l.marker, sample) == {}
  {
  }

  lemma ListsNothing(order: seq<Model>)
    requires Lists(order, {})
    ensures order == []
  {
    HasElement(order);
    assert forall m :: m in order ==> m in Elements(order);
  }

  lemma UngrantWaits(s: Sched, m: Model, r: Sched)
    requires WaitsOn(Ungrant(s, m), r, {})
    ensures WaitsOn(s, r, {})
  {
    hide Eases;
  }

  /** Events of the queue, of calls and of their backends. */
  lemma QueueGoesOn(y: Sys, e: Event, gone: set<nat>, head: Req, total: int)
    requires Possible(y, e) && Undisturbed(y, e, head, total) && MakingRoom(y, head, total)
    requires e.Request? || e.Cancel? || e.TimesOut? || e.ProxyStarts? || e.GrantCancelled? || e.StatusReturns?
             || e.BackendEnds?
             || e.Reminder? || e.Tick?
    ensures GoesOn(y, Next(y, e, gone), head.model, Louder(y, e))
  {
    hide HostOf, OnRequest, OnCancel, OnQueueTimeout, OnCancelGranted, OnStatus, OnBackendDone, OnRemind,
         OnProxyStart, Ungrant, MakingRoom, WaitsOn, ClientsOn;
    InProgress(y, head, total);
    var h := HostOf(y, gone);
    match e {
      case Request(req, left) => RequestWaits(y.s, h, req, left);
      case Cancel(id) => LeavingWaits(y.s, h, id);
      case TimesOut(id) => LeavingWaits(y.s, h, id);
      case ProxyStarts(m) => ProxyGoesOn(y.s, m);
      case GrantCancelled(m) => GivenUpGoesOn(y.s, h, m);
      case StatusReturns(i, count) => WorkWaits(y.s, h, y.statuses[i].model, count, y.statuses[i].gen);
      case BackendEnds(m) => WorkWaits(y.s, h, m, None, 0);
      case Reminder(i) => RemindWaits(y.s, h, i);
      case Tick(_) => SameWaits(y.s);
    }
    SameClients(y, Next(y, e, gone));
  }

  lemma ProxyGoesOn(s: Sched, m: Model)
    requires s.queued != []
    ensures WaitsOn(s, OnProxyStart(Ungrant(s, m), m).0, {})
  {
    hide WaitsOn, OnProxyStart;
    ProxyWaits(Ungrant(s, m), m);
    UngrantWaits(s, m, OnProxyStart(Ungrant(s, m), m).0);
  }

  lemma GivenUpGoesOn(s: Sched, h: Host, m: Model)
    requires s.phase.Unloading? && s.swap.began && s.queued != []
    ensures WaitsOn(s, OnCancelGranted(Ungrant(s, m), h, m), {})
  {
    hide WaitsOn, OnCancelGranted;
    WorkWaits(Ungrant(s, m), h, m, None, 0);
    UngrantWaits(s, m, OnCancelGranted(Ungrant(s, m), h, m));
  }

  lemma SameWaits(s: Sched)
    requires s.queued != []
    ensures WaitsOn(s, s, {})
  {
    SameEases(s.work);
  }

  lemma ServeGoesOn(y: Sys, m: Model, gone: set<nat>, head: Req, total: int)
    requires MakingRoom(y, head, total)
    ensures GoesOn(y, AfterServe(y, gone, m), head.model, {})
  {
    hide HostOf, OnServeDone, MakingRoom, WaitsOn, ClientsOn;
    InProgress(y, head, total);
    var y1 := y.(l := NoteUse(y.l, y.now, m), serving := y.serving - multiset{m});
    WorkWaits(y.s, HostOf(y1, gone), m, None, 0);
    assert ClientsOn(y, AfterServe(y, gone, m)) by { SameClients(y, AfterServe(y, gone, m)); }
  }

  lemma SameClients(y: Sys, r: Sys)
    requires ClientsOn(y, y) && r.clients == y.clients
    ensures ClientsOn(y, r)
  {
  }

  lemma SampleGoesOn(y: Sys, sample: Snapshot, order: seq<Model>, gone: set<nat>, head: Req, total: int)
    requires MakingRoom(y, head, total) && (Usable(y.l.cfg, sample) ==> Lists(order, ClearedBy(y.l.marker, sample)))
    ensures GoesOn(y, AfterSample(y, gone, sample, order), head.model, {})
  {
    hide HostOf, ClearMarkers, SampleFailed, MakingRoom, WaitsOn, ClientsOn, Observe, Usable, ClearedBy, Lists;
    InProgress(y, head, total);
    SampleLedger(y.l, sample);
    if Usable(y.l.cfg, sample) { ListsNothing(order); }
    ResultWaits(y.s, HostOf(y.(l := Observe(y.l, sample)), gone));
    SameClients(y, AfterSample(y, gone, sample, order));
  }

  lemma ProbeGoesOn(y: Sys, i: nat, ev: Result, gone: set<nat>, head: Req, total: int)
    requires i < |y.s.out.probes| && ev.model in y.clients && MakingRoom(y, head, total)
    ensures GoesOn(y, AfterProbe(y, gone, i, ev), head.model, {})
  {
    hide HostOf, NoteProbe, MakingRoom, WaitsOn, ClientsOn, RecoverMode, Digested, Returned;
    InProgress(y, head, total);
    DropWaits(y.s, i, ev.token);
    SameClients(y, AfterProbe(y, gone, i, ev));
  }

  /** Only the head's model can have an operation in flight. */
  lemma NoOtherOps(y: Sys, head: Req, total: int, m: Model)
    requires MakingRoom(y, head, total) && m in y.clients && ClientOf(y, m).op.Some?
    requires CInv(y)
    ensures m == head.model
  {
    hide CInv, CallsInv, HeadFits, Busy;
    ClientFacts(y, m);
    hide UnloadsOK;
    assert Undoubted(y, head.model, m);
  }

  lemma GateGoesOn(y: Sys, m: Model, head: Req, total: int)
    requires MakingRoom(y, head, total) && m in y.clients && ClientOf(y, m).op.Some?
    requires CInv(y)
    ensures GoesOn(y, y.(l := AdmitLoad(y.l, StatesOf(y.clients), y.now, false, m).0), head.model, {})
  {
    hide CInv, MakingRoom, WaitsOn, ClientsOn, AdmitWithoutEvict, GpuFresh;
    NoOtherOps(y, head, total, m);
    InProgress(y, head, total);
    SameWaits(y.s);
    SameClients(y, y.(l := AdmitLoad(y.l, StatesOf(y.clients), y.now, false, m).0));
  }

  /** The victim's client is the one that moves. */
  lemma StopMoves(y: Sys, e: Event, gone: set<nat>, head: Req, total: int)
    requires Possible(y, e) && MakingRoom(y, head, total) && (e.StopStarts? || e.StopReturns?)
    ensures Moved(y, e) == VictimOf(y.s) && OnlyAt(y, Next(y, e, gone), VictimOf(y.s))
    ensures SameTargets(y.s, Next(y, e, gone).s)
  {
    hide HostOf, Next, HeadFits, Undoubted, SameTargets, OnlyAt;
    AtClientSame(y, e, gone);
    StopKeepsTargets(y, e, gone);
  }

  lemma StopKeepsTargets(y: Sys, e: Event, gone: set<nat>)
    requires Possible(y, e) && (e.StopStarts? || e.StopReturns?)
    ensures SameTargets(y.s, Next(y, e, gone).s)
  {
    hide HostOf, AfterStopStarts, AfterStopReturns, SameTargets;
    if e.StopStarts? { StopTargets(y, e.i, None); } else { StopTargets(y, e.i, e.fault); }
  }

  /** A stop that starts or ends well leaves nobody in doubt. */
  lemma StopKnown(y: Sys, e: Event, gone: set<nat>)
    requires Possible(y, e) && (e.StopStarts? || (e.StopReturns? && e.fault.None?))
    requires var m := Moved(y, e); m in y.clients && !Doubtful(ClientOf(y, m)) && !ClientOf(y, m).state.Starting?
    ensures var r := Next(y, e, gone);
      var m := Moved(y, e);
      m in r.clients && !Doubtful(ClientOf(r, m)) && !ClientOf(r, m).state.Starting?
  {
    hide HostOf, AnswerLoads;
  }

  lemma StopGoesOn(y: Sys, e: Event, gone: set<nat>, head: Req, total: int)
    requires Possible(y, e) && Undisturbed(y, e, head, total) && MakingRoom(y, head, total)
    requires (e.StopStarts? || e.StopReturns?)
    ensures GoesOn(y, Next(y, e, gone), head.model, {})
  {
    hide Next, Possible, HeadFits, Undoubted, Slots, Busy, Doubtful, SameTargets, Moved;
    StopMoves(y, e, gone, head, total);
    InProgress(y, head, total);
    assert UnloadOf(y.s, VictimOf(y.s));
    StopKnown(y, e, gone);
    SameEases(y.s.work);
  }

  /** Nothing else can happen. */
  lemma NothingElse(y: Sys, e: Event, head: Req, total: int)
    requires Possible(y, e) && Undisturbed(y, e, head, total) && MakingRoom(y, head, total)
    requires CInv(y)
    ensures !e.EnsureCalled? && !e.LoadReturns? && !e.OpReturns? && !e.UnloadFails?
  {
    hide CInv, MakingRoom, Usable, ClearedBy, MarkAll, UnloadAt;
    InProgress(y, head, total);
    if e.OpReturns? { NoOtherOps(y, head, total, e.m); }
  }

  lemma OtherGoesOn(y: Sys, e: Event, gone: set<nat>, head: Req, total: int)
    requires Possible(y, e) && Undisturbed(y, e, head, total) && MakingRoom(y, head, total)
    requires e.ServeEnds? || e.Observes? || e.ProbeReturns? || e.GateAsked?
    requires CInv(y)
    ensures GoesOn(y, Next(y, e, gone), head.model, {})
  {
    hide CInv, MakingRoom, GoesOn, AfterServe, AfterSample, AfterProbe, AdmitLoad, Usable, ClearedBy, Lists;
    match e {
      case ServeEnds(m) => ServeGoesOn(y, m, gone, head, total);
      case Observes(sample, order) => SampleGoesOn(y, sample, order, gone, head, total);
      case ProbeReturns(i, kind, rec, active, at) =>
        ProbeGoesOn(y, i, ResultOf(y.s.out.probes[i], kind, rec, active, at), gone, head, total);
      case GateAsked(m) => GateGoesOn(y, m, head, total);
    }
  }

  /** Every undisturbed event but the unload's report leaves the eviction in progress. */
  lemma EvictionGoesOn(y: Sys, e: Event, gone: set<nat>, head: Req, total: int)
    requires Possible(y, e) && Undisturbed(y, e, head, total) && MakingRoom(y, head, total) && !e.UnloadReturns?
    requires CInv(y)
    ensures MakingRoom(Next(y, e, gone), head, total) && Todo(Next(y, e, gone), head.model) == Todo(y, head.model)
  {
    hide CInv, Next, Possible, MakingRoom, GoesOn, Todo, InLine;
    NothingElse(y, e, head, total);
    if e.StopStarts? || e.StopReturns? { StopGoesOn(y, e, gone, head, total); }
    else if e.ServeEnds? || e.Observes? || e.ProbeReturns? || e.GateAsked? { OtherGoesOn(y, e, gone, head, total); }
    else { QueueGoesOn(y, e, gone, head, total); }
    StaysMaking(y, Next(y, e, gone), head, total, Louder(y, e));
  }

  // ---------------------------------------------------------------- the unload's report

  /** The world the report leaves for dispatch. */
  function Reported(y: Sys, sample: Snapshot): Sys {
    if y.s.out.unloads == [] || !y.s.out.unloads[0].stage.Confirmed? then y
    else y.(l := UnloadReported(y.l, [VictimOf(y.s)], y.s.out.unloads[0].stage.at, sample))
  }

  /** What the world looks like to the planner then: the victim is unloaded, a fresh sample is there. */
  ghost predicate Relieved(y: Sys, x: Sys, v: Model, total: int) {
    && x == y.(l := x.l) && v in y.clients && y.clients[v].state.Stopped? && v in y.l.cfg.models
    && x.l == y.l.(reserved := y.l.reserved[v := y.l.cfg.models[v].residual], snap := x.l.snap, boot := true)
    && GpuFresh(x.l, x.now) && x.l.snap.total == total
  }

  ghost predicate Reportable(y: Sys, i: nat, sample: Snapshot, order: seq<Model>) {
    && |y.s.out.unloads| == 1 && i == 0 && y.s.out.unloads[0].stage.Confirmed?
    && y.s.out.unloads[0].ids == [VictimOf(y.s)]
    && Usable(y.l.cfg, sample) && sample.at > y.s.out.unloads[0].stage.at && VictimOf(y.s) in y.l.cfg.models
    && y.l.marker == map[]
    && Lists(order, ClearedBy(MarkAll(y.l, [VictimOf(y.s)], y.s.out.unloads[0].stage.at).marker, sample))
  }

  lemma ReportComes(y: Sys, i: nat, sample: Snapshot, order: seq<Model>, head: Req, total: int)
    requires Possible(y, UnloadReturns(i, sample, order)) && MakingRoom(y, head, total)
    ensures Reportable(y, i, sample, order)
  {
    hide HeadFits, Usable, ClearedBy, MarkAll, Lists, Yields;
    assert Undoubted(y, head.model, VictimOf(y.s));
  }

  lemma ConfirmedStopped(y: Sys, i: nat, sample: Snapshot, order: seq<Model>)
    requires Reportable(y, i, sample, order) && VictimOf(y.s) in y.clients
    requires CInv(y)
    ensures ClientOf(y, VictimOf(y.s)).state.Stopped?
  {
    hide CInv, ClientInv, Usable, Lists;
    ClientFacts(y, VictimOf(y.s));
  }

  lemma ReportLists(y: Sys, i: nat, sample: Snapshot, order: seq<Model>)
    requires Reportable(y, i, sample, order)
    ensures Elements(order) == {VictimOf(y.s)} && Distinct(order)
    ensures Reported(y, sample).l
         == y.l.(reserved := y.l.reserved[VictimOf(y.s) := y.l.cfg.models[VictimOf(y.s)].residual],
                 snap := sample, boot := true)
  {
    hide Usable, ClearedBy, MarkAll, UnloadReported, VictimOf;
    ReportLedger(y.l, VictimOf(y.s), y.s.out.unloads[0].stage.at, sample);
  }

  lemma ReportRelieves(y: Sys, i: nat, sample: Snapshot, order: seq<Model>, total: int)
    requires Reportable(y, i, sample, order) && VictimOf(y.s) in y.clients && ClientOf(y, VictimOf(y.s)).state.Stopped?
    requires sample.total == total && Fresh(sample, y.now, ObserveAge(y.l.cfg))
    ensures Relieved(y, Reported(y, sample), VictimOf(y.s), total)
  {
    ReportLists(y, i, sample, order);
    hide Usable, UnloadReported, VictimOf, Lists, Fresh;
  }

  lemma RelievedYields(y: Sys, x: Sys, t: Model, id: Model, total: int)
    requires Relieved(y, x, VictimOf(y.s), total) && id in y.clients && id != t && Undoubted(y, t, id)
    requires y.l.marker == map[]
    requires |y.s.out.unloads| == 1 && y.s.out.unloads[0].ids == [VictimOf(y.s)] && !ClientOf(y, id).state.Shutdown?
    ensures Residable(x.l, StatesOf(x.clients), id)
    ensures ClientOf(x, id).state.Ready? || AtResidual(x.l, StatesOf(x.clients), id)
  {
    hide GpuFresh, Slots, Busy, VictimOf;
  }

  lemma RelievedRest(y: Sys, x: Sys, head: Req, total: int)
    requires MakingRoom(y, head, total) && Relieved(y, x, VictimOf(y.s), total)
    requires x.clients.Keys == x.l.cfg.models.Keys && forall id :: id in x.clients ==> !ClientOf(x, id).state.Shutdown?
    ensures forall id :: id in x.l.cfg.models && id != head.model ==>
              Residable(x.l, StatesOf(x.clients), id)
              && (ClientOf(x, id).state.Ready? || AtResidual(x.l, StatesOf(x.clients), id))
  {
    hide GpuFresh, HeadFits, Undoubted, Residable, AtResidual, VictimOf;
    forall id | id in x.l.cfg.models && id != head.model
      ensures Residable(x.l, StatesOf(x.clients), id)
      ensures (x.clients[id].state.Ready? || AtResidual(x.l, StatesOf(x.clients), id))
    {
      assert Undoubted(y, head.model, id);
      RelievedYields(y, x, head.model, id, total);
    }
  }

  lemma RelievedCan(y: Sys, x: Sys, head: Req, total: int)
    requires MakingRoom(y, head, total) && Relieved(y, x, VictimOf(y.s), total)
    requires LedgerLaws.LedgerOK(x.l) && x.clients.Keys == x.l.cfg.models.Keys
    requires forall id :: id in x.clients ==> !ClientOf(x, id).state.Shutdown?
    ensures LedgerLaws.CanMakeRoom(x.l, StatesOf(x.clients), x.now, head.model)
  {
    hide LedgerLaws.LedgerOK, GpuFresh, Total, RestHolds, Residable, AtResidual, Undoubted, Slots, VictimOf;
    DeviceOK(x.l);
    RelievedRest(y, x, head, total);
    RoomPositive(x.l.cfg, head.model, total);
    BesideAll(x.l, head.model);
  }

  /** So the head is admitted, or another of the ready ones is to be unloaded. */
  lemma RelievedDecides(y: Sys, x: Sys, head: Req, total: int) returns (d: seq<Model>)
    requires MakingRoom(y, head, total) && Relieved(y, x, VictimOf(y.s), total)
    requires LedgerLaws.CanMakeRoom(x.l, StatesOf(x.clients), x.now, head.model)
    ensures Decide(x.l, StatesOf(x.clients), x.now, head.model) == Evict(d)
    ensures d == [] || (|d| == 1 && d[0] in Todo(y, head.model) && d[0] != VictimOf(y.s) && !Busy(y.s.work, d[0])
                        && d[0] in x.clients && ClientOf(x, d[0]).state.Ready?)
  {
    hide Decide, LedgerLaws.CanMakeRoom, AdmitWithoutEvict, FitsIfRestResidual, GpuFresh, Slots, Busy, HeadFits;
    LedgerLaws.RoomDecides(x.l, StatesOf(x.clients), x.now, head.model);
    LedgerLaws.DecideEvicts(x.l, StatesOf(x.clients), x.now, head.model);
    d := Decide(x.l, StatesOf(x.clients), x.now, head.model).ids;
    if d != [] {
      assert d[0] in y.clients && y.clients[d[0]].state.Ready?;
      assert Undoubted(y, head.model, d[0]);
    }
  }

  lemma RelievedHost(y: Sys, x: Sys, head: Req, total: int, gone: set<nat>)
    requires MakingRoom(y, head, total) && Relieved(y, x, VictimOf(y.s), total)
    ensures var h := HostOf(x, gone);
      && Suspects(h, {}) == {} && Marked(h) == {} && StateOf(h, head.model) == ClientOf(x, head.model).state
      && DecideOf(h, head.model) == Decide(x.l, StatesOf(x.clients), x.now, head.model)
  {
    hide Decide, GpuFresh, Slots, Yields;
    var h := HostOf(x, gone);
    forall id | id in h.states
      ensures !h.states[id].Failed? && !h.states[id].Unknown?
    {
      assert Undoubted(y, head.model, id);
    }
  }

  /** What the scheduler is like when the report has been taken in, just before it dispatches. */
  lemma ReadyToDispatch(s: Sched, h: Host, order: seq<Model>, v: Model)
    requires s.phase.Unloading? && s.swap.evict == [v] && s.gates.closed <= {v} && s.gates.at.Keys == s.gates.closed
    requires Distinct(order) && Elements(order) == {v} && |s.out.unloads| == 1 && s.unloadFail == {}
    ensures var x := EndUnload(ClearMarkers(TakeUnload(s, 0), h, order), h);
      && OnUnloadDone(ClearMarkers(TakeUnload(s, 0), h, order), h, None) == TryDispatch(x, h)
      && x.phase.Idle? && x.queued == s.queued && x.gates.closed == {} && x.gates.at.Keys == {} && x.unloadFail == {}
      && x.out.unloads == [] && x.out.loads == s.out.loads && x.work == s.work && x.cfg == s.cfg
  {
    hide TryDispatch, ClearMarkers, NeededGates;
    ClearMarkersOrder(TakeUnload(s, 0), h, order);
    assert Elements([v]) == {v};
  }

  lemma DispatchLoads(s: Sched, h: Host)
    requires s.phase.Idle? && s.queued != [] && Suspects(h, s.unloadFail) == {} && Marked(h) == {} && s.out.loads == []
    requires DecideOf(h, s.queued[0].model) == Evict([]) && !StateOf(h, s.queued[0].model).Ready?
    requires Slots(s.work, s.queued[0].model) < Limit(s.cfg, s.queued[0].model)
    ensures TryDispatch(s, h).out.loads == [LoadJob(s.queued[0].model, Called)]
  {
    hide Suspects, Marked, Slots, MustRecover, TryDispatch;
    NothingAsked(s, h, s.queued[0]);
    LoadTurn(s, h);
  }

  lemma DispatchEvicts(s: Sched, h: Host, w: Model)
    requires s.phase.Idle? && s.queued != [] && Suspects(h, s.unloadFail) == {} && Marked(h) == {} && s.cfg.drain > 0
    requires s.gates.closed == {} && s.gates.at.Keys == {} && s.out.unloads == [] && s.unloadFail == {}
    requires !Busy(s.work, w)
    requires DecideOf(h, s.queued[0].model) == Evict([w])
    requires Slots(s.work, s.queued[0].model) < Limit(s.cfg, s.queued[0].model)
    ensures Evicting(s, TryDispatch(s, h), w)
  {
    hide Suspects, Marked, Slots, Busy, MustRecover, TryDispatch, Evicting;
    NothingAsked(s, h, s.queued[0]);
    EvictsFor(s, h, w);
  }

  /** The next victim is on its way; the one before is unloaded. */
  ghost predicate NextVictim(y: Sys, x: Sys, r: Sys, w: Model) {
    && r == x.(s := r.s) && r.s.phase.Unloading? && r.s.swap.began && r.s.swap.evict == [w] && r.s.gates.closed == {w}
    && |r.s.out.unloads| == 1 && r.s.out.unloads[0].ids == [w] && r.s.out.loads == [] && r.s.unloadFail == {}
    && r.s.queued == y.s.queued && r.s.cfg == y.s.cfg && r.s.work == y.s.work
    && w in y.clients && y.clients[w].state.Ready? && !Busy(y.s.work, w)
  }

  lemma NextMaking(y: Sys, x: Sys, r: Sys, w: Model, head: Req, total: int)
    requires MakingRoom(y, head, total) && Relieved(y, x, VictimOf(y.s), total) && NextVictim(y, x, r, w)
    requires w != VictimOf(y.s) && w in Todo(y, head.model)
    ensures MakingRoom(r, head, total) && Todo(r, head.model) == Todo(y, head.model) - {VictimOf(y.s)}
    ensures |Todo(r, head.model)| == |Todo(y, head.model)| - 1
  {
    hide Slots, Busy, RoomFor, GpuFresh, Limit;
    var v := VictimOf(y.s);
    assert y.s.out.unloads[0].ids == [v] && Elements([w]) == {w};
    assert UnloadOf(y.s, v) && v in Todo(y, head.model);
    forall id | id in r.clients
      ensures Undoubted(r, head.model, id)
    {
      assert Undoubted(y, head.model, id);
    }
  }

  lemma ReportIs(y: Sys, i: nat, sample: Snapshot, order: seq<Model>, gone: set<nat>)
    requires Possible(y, UnloadReturns(i, sample, order)) && Reportable(y, i, sample, order)
    ensures var x := Reported(y, sample);
      var h := HostOf(x, gone);
      Next(y, UnloadReturns(i, sample, order), gone)
      == x.(s := OnUnloadDone(ClearMarkers(TakeUnload(y.s, 0), h, order), h, None))
  {
    hide HostOf, OnUnloadDone, ClearMarkers, UnloadReported, Usable, ClearedBy, MarkAll, VictimOf;
  }

  lemma AfterReport(r: Sys)
    requires CInv(r)
    ensures LedgerLaws.LedgerOK(r.l) && r.clients.Keys == r.l.cfg.models.Keys
    ensures forall id :: id in r.clients ==> !ClientOf(r, id).state.Shutdown?
  {
    hide CInv, LedgerLaws.LedgerOK;
    LedgerFacts(r);
    forall id | id in r.clients ensures !r.clients[id].state.Shutdown? { NoShutdown(r, id); }
  }

  /** What dispatch does then: it starts the head's load, or has another victim unloaded. */
  lemma RelievedTurn(y: Sys, x: Sys, gone: set<nat>, order: seq<Model>, head: Req, total: int) returns (d: seq<Model>)
    requires MakingRoom(y, head, total) && Relieved(y, x, VictimOf(y.s), total)
    requires LedgerLaws.CanMakeRoom(x.l, StatesOf(x.clients), x.now, head.model)
    requires y.s.gates.at.Keys == y.s.gates.closed && y.s.cfg.drain > 0 && Elements(order) == {VictimOf(y.s)}
    requires Distinct(order)
    ensures var h := HostOf(x, gone);
      var r := x.(s := OnUnloadDone(ClearMarkers(TakeUnload(y.s, 0), h, order), h, None));
      && (d == [] ==> r.s.out.loads == [LoadJob(head.model, Called)])
      && (d != [] ==> NextVictim(y, x, r, d[0]) && d[0] != VictimOf(y.s) && d[0] in Todo(y, head.model))
  {
    hide HostOf, OnUnloadDone, ClearMarkers, Decide, Suspects, Marked, Slots, Busy, Undoubted, LedgerLaws.CanMakeRoom,
         EndUnload, TryDispatch, Todo, RoomFor, VictimOf, GpuFresh, Limit;
    var h := HostOf(x, gone);
    RelievedHost(y, x, head, total, gone);
    d := RelievedDecides(y, x, head, total);
    ReadyToDispatch(y.s, h, order, VictimOf(y.s));
    var z := EndUnload(ClearMarkers(TakeUnload(y.s, 0), h, order), h);
    if d == [] {
      DispatchLoads(z, h);
    } else {
      assert d == [d[0]];
      DispatchEvicts(z, h, d[0]);
    }
  }

  /** The report of the unload has the head's load started, or the next of the ready ones unloaded. */
  lemma ReportGoesOn(y: Sys, e: Event, gone: set<nat>, head: Req, total: int)
    requires Possible(y, e) && Undisturbed(y, e, head, total) && MakingRoom(y, head, total) && e.UnloadReturns?
    requires CInv(y)
    ensures var r := Next(y, e, gone);
      || r.s.out.loads == [LoadJob(head.model, Called)]
      || (MakingRoom(r, head, total) && |Todo(r, head.model)| == |Todo(y, head.model)| - 1)
  {
    hide CInv, Next, Possible, HostOf, MakingRoom, Todo, Reportable, Relieved, LedgerLaws.LedgerOK,
         LedgerLaws.CanMakeRoom, NextVictim, Reported, OnUnloadDone, ClearMarkers, VictimOf, Fresh;
    ReportComes(y, e.i, e.sample, e.order, head, total);
    VictimIsModel(y, head, total);
    ConfirmedStopped(y, e.i, e.sample, e.order);
    ReportRelieves(y, e.i, e.sample, e.order, total);
    ReportLists(y, e.i, e.sample, e.order);
    ReportIs(y, e.i, e.sample, e.order, gone);
    RestGates(y);
    assert e == UnloadReturns(e.i, e.sample, e.order);
    Keeps(y, e, gone);
    AfterReport(Next(y, e, gone));
    var x := Reported(y, e.sample);
    RelievedCan(y, x, head, total);
    var d := RelievedTurn(y, x, gone, e.order, head, total);
    if d != [] { NextMaking(y, x, Next(y, e, gone), d[0], head, total); }
  }

  lemma VictimIsModel(y: Sys, head: Req, total: int)
    requires MakingRoom(y, head, total)
    ensures VictimOf(y.s) in y.clients
  {
  }

  // ---------------------------------------------------------------- over runs

  ghost predicate UndisturbedRun(y: Sys, run: seq<Step>, head: Req, total: int)
    decreases |run|
  {
    run == [] || (Undisturbed(y, run[0].event, head, total)
                  && UndisturbedRun(Next(y, run[0].event, run[0].gone), run[1..], head, total))
  }

  /** The number of unloads that have reported. */
  function UnloadsReported(run: seq<Step>): nat
    decreases |run|
  {
    if run == [] then 0 else (if run[0].event.UnloadReturns? then 1 else 0) + UnloadsReported(run[1..])
  }

  /** Somewhere in the run the load of m is started. */
  ghost predicate LoadStarted(y: Sys, run: seq<Step>, m: Model)
    decreases |run|
  {
    || y.s.out.loads == [LoadJob(m, Called)]
    || (run != [] && LoadStarted(Next(y, run[0].event, run[0].gone), run[1..], m))
  }

  /**
   While the head is being made room for, whatever comes and goes behind it: once as many
   unloads have reported as there were others ready or being unloaded, its load has started.
   */
  lemma {:induction false} EvictionEnds(y: Sys, run: seq<Step>, head: Req, total: int)
    requires MakingRoom(y, head, total) && UndisturbedRun(y, run, head, total)
    requires UnloadsReported(run) >= |Todo(y, head.model)|
    requires IsRun(y, run) && CInv(y)
    ensures LoadStarted(y, run, head.model)
    decreases |run|
  {
    hide CInv, Possible, Next, MakingRoom, Todo, Undisturbed;
    VictimIsTodo(y, head, total);
    var e, gone := run[0].event, run[0].gone;
    var r := Next(y, e, gone);
    Keeps(y, e, gone);
    if e.UnloadReturns? {
      ReportGoesOn(y, e, gone, head, total);
      if r.s.out.loads == [LoadJob(head.model, Called)] { return; }
    } else {
      EvictionGoesOn(y, e, gone, head, total);
    }
    EvictionEnds(r, run[1..], head, total);
  }

  lemma VictimIsTodo(y: Sys, head: Req, total: int)
    requires MakingRoom(y, head, total)
    ensures |Todo(y, head.model)| > 0
  {
    hide Undoubted, RoomFor;
    assert VictimOf(y.s) in Todo(y, head.model);
  }

  // ---------------------------------------------------------------- from rest

  lemma RestRest(y: Sys, t: Model)
    requires AllPlaced(y) && StoppingAt(y) <= {t} && y.clients.Keys == y.l.cfg.models.Keys
    ensures forall id :: id in y.l.cfg.models && id != t ==>
              ClientOf(y, id).state.Ready? || AtResidual(y.l, StatesOf(y.clients), id)
  {
    hide Busy;
    forall id | id in y.l.cfg.models && id != t
      ensures y.clients[id].state.Ready? || AtResidual(y.l, StatesOf(y.clients), id)
    {
      assert Placed(y, id) && id !in StoppingAt(y);
    }
  }

  lemma RestCan(y: Sys, t: Model, total: int)
    requires AllPlaced(y) && StoppingAt(y) <= {t} && y.clients.Keys == y.l.cfg.models.Keys && LedgerLaws.LedgerOK(y.l)
    requires t in y.clients && !ClientOf(y, t).state.Ready? && RoomFor(y.l.cfg, t, total)
    requires GpuFresh(y.l, y.now) && y.l.snap.total == total
    ensures LedgerLaws.CanMakeRoom(y.l, StatesOf(y.clients), y.now, t)
  {
    hide LedgerLaws.LedgerOK, GpuFresh, Total, RestHolds, AllResidable, AllBound, AtResidual, Placed, StoppingAt;
    DeviceOK(y.l);
    RestRest(y, t);
    PlacedResidable(y, t);
    RoomPositive(y.l.cfg, t, total);
  }

  /** What the request's unload is, for the eviction. */
  lemma UnloadsFacts(y: Sys, r: Sys, t: Model, w: Model, next: nat)
    requires Unloads(y, r, t, w, next) && y.s.queued == [] && y.s.out.loads == [] && y.s.unloadFail == {}
    ensures r == y.(s := r.s) && VictimOf(r.s) == w && r.s.out.unloads != [] && r.s.out.unloads[0].ids == [w]
    ensures r.s.phase.Unloading? && r.s.swap.began && r.s.queued == [Req(next, t)] && |r.s.out.unloads| == 1
    ensures r.s.swap.evict == [w] && r.s.gates.closed == {w} && r.s.unloadFail == {} && r.s.out.loads == []
    ensures r.s.work == y.s.work && r.s.cfg == y.s.cfg
  {
    hide CInv;
  }

  lemma PlacedYields(y: Sys, r: Sys, t: Model, id: Model)
    requires r.clients == y.clients && r.l == y.l && r.s.work == y.s.work
    requires id in y.clients && id in y.l.cfg.models && Placed(y, id)
    requires id != t ==> ClientOf(y, id).state.Ready? || AtResidual(y.l, StatesOf(y.clients), id)
    ensures Undoubted(r, t, id)
  {
    hide Busy, AtResidual, UnloadOf;
  }

  lemma UnloadsMaking(y: Sys, r: Sys, t: Model, w: Model, next: nat, total: int)
    requires Unloads(y, r, t, w, next) && Victim(y, t, w) && AllPlaced(y) && StoppingAt(y) <= {t}
    requires y.clients.Keys == y.l.cfg.models.Keys && y.s.queued == [] && y.s.out.loads == [] && y.s.unloadFail == {}
    requires RoomFor(y.l.cfg, t, total)
    ensures MakingRoom(r, Req(next, t), total) && Todo(r, t) == ReadyAt(y)
  {
    hide Unloads, Decide, Slots, Busy, RoomFor, AtResidual, Undoubted, Placed, VictimOf, StoppingAt;
    RestRest(y, t);
    UnloadsFacts(y, r, t, w, next);
    forall id | id in r.clients
      ensures Undoubted(r, t, id)
    {
      assert Placed(y, id);
      PlacedYields(y, r, t, id);
    }
    assert Slots(r.s.work, t) < Limit(r.s.cfg, t);
  }

  /** At rest with everything accounted for, a request that has room has its load started or is being made room for. */
  lemma RequestStarts(y: Sys, next: nat, t: Model, total: int)
    requires AllPlaced(y) && StoppingAt(y) <= {t} && GpuFresh(y.l, y.now) && y.l.snap.total == total
    requires t in y.clients && !ClientOf(y, t).state.Ready? && RoomFor(y.l.cfg, t, total)
    requires AtRest(y, {}, next)
    ensures var e := Request(Req(next, t), false);
      && Possible(y, e)
      && (Next(y, e, {}).s.out.loads == [LoadJob(t, Called)]
          || (MakingRoom(Next(y, e, {}), Req(next, t), total) && Todo(Next(y, e, {}), t) == ReadyAt(y)))
  {
    hide CInv, AtRest, AllPlaced, GpuFresh, Next, Possible, Decide, LedgerLaws.LedgerOK, LedgerLaws.CanMakeRoom, Todo,
         MakingRoom, ReadyAt, StoppingAt, RoomFor, Unloads, Victim, AdmitWithoutEvict, FitsIfRestResidual;
    RestLedger(y, {}, next);
    RestSched(y, {}, next);
    RestCan(y, t, total);
    LedgerLaws.RoomDecides(y.l, StatesOf(y.clients), y.now, t);
    LedgerLaws.DecideEvicts(y.l, StatesOf(y.clients), y.now, t);
    var d := Decide(y.l, StatesOf(y.clients), y.now, t).ids;
    if d == [] {
      PlacedLoadable(y, t);
      LoadsNow(y, next, t);
    } else {
      assert d == [d[0]];
      PlacedVictim(y, t, d[0]);
      RequestUnloads(y, next, t, d[0]);
      UnloadsMaking(y, Next(y, Request(Req(next, t), false), {}), t, d[0], next, total);
    }
  }

  lemma PlacedLoadable(y: Sys, t: Model)
    requires AllPlaced(y) && t in y.clients && !ClientOf(y, t).state.Ready?
    requires Decide(y.l, StatesOf(y.clients), y.now, t) == Evict([])
    ensures Loadable(y, t)
  {
    hide Decide, Busy, Slots;
    assert Placed(y, t);
    IdleHasSlots(y.s.work, t);
  }

  lemma PlacedVictim(y: Sys, t: Model, w: Model)
    requires AllPlaced(y) && t in y.clients && !ClientOf(y, t).state.Ready? && Candidate(StatesOf(y.clients), t, w)
    requires Decide(y.l, StatesOf(y.clients), y.now, t) == Evict([w])
    ensures Victim(y, t, w)
  {
    hide Decide, Busy, Slots;
    assert Placed(y, t) && Placed(y, w);
    IdleHasSlots(y.s.work, t);
  }

  /**
   So from rest, for a request that has room: once as many unloads have reported as there
   were ready models, its load has started, whatever comes and goes behind it.
   */
  lemma RequestIsMadeRoomFor(y: Sys, next: nat, t: Model, total: int, run: seq<Step>)
    requires AllPlaced(y) && StoppingAt(y) <= {t} && GpuFresh(y.l, y.now) && y.l.snap.total == total
    requires t in y.clients && !ClientOf(y, t).state.Ready? && RoomFor(y.l.cfg, t, total)
    requires run != [] && run[0] == Step(Request(Req(next, t), false), {})
    requires UndisturbedRun(Next(y, run[0].event, run[0].gone), run[1..], Req(next, t), total)
    requires UnloadsReported(run) >= |ReadyAt(y)|
    requires AtRest(y, {}, next) && IsRun(y, run)
    ensures LoadStarted(y, run, t)
  {
    hide CInv, AtRest, AllPlaced, GpuFresh, Next, Possible, Todo, MakingRoom, ReadyAt, StoppingAt, RoomFor,
         UndisturbedRun;
    RestLedger(y, {}, next);
    RequestStarts(y, next, t, total);
    Keeps(y, run[0].event, run[0].gone);
    var r := Next(y, run[0].event, run[0].gone);
    if r.s.out.loads != [LoadJob(t, Called)] { EvictionEnds(r, run[1..], Req(next, t), total); }
  }
}
