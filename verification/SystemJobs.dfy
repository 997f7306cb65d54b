/** The jobs, the clients and the ledger across one event: what each event may change of them. */
module SystemJobs {
  import opened Types
  import opened Admission
  import opened Scheduler
  import opened SchedulerLaws
  import opened SchedulerHandlers
  import opened SchedulerRecovery
  import opened SchedulerFrames
  import opened Ledger
  import opened System
  import opened SystemLaws

  /** At most one load and one unload are new. */
  ghost predicate NewJobs(s: Sched, r: Sched) {
    NewLoad(s, r) && NewUnload(s, r) && r.cfg == s.cfg
  }

  lemma CalmJobs(s: Sched, x: Sched, r: Sched)
    requires Calm(x, r) && x.out.loads == s.out.loads && x.out.unloads == s.out.unloads && x.cfg == s.cfg
    ensures NewJobs(s, r)
  {
  }

  lemma QueueJobs(y: Sys, e: Event, gone: set<nat>)
    requires Possible(y, e)
    requires e.Request? || e.Cancel? || e.TimesOut? || e.GrantCancelled? || e.BackendEnds? || e.Reminder?
    ensures NewJobs(y.s, Next(y, e, gone).s)
  {
    hide TryDispatch, OnRequest, OnCancel, OnQueueTimeout, OnBackendDone, OnRemind, OnCancelGranted, HostOf, RemoveAt,
         Calm, NewJobs;
    var h := HostOf(y, gone);
    match e
    case Request(req, left) =>
      RequestCalm(y.s, h, req, left);
      var r := OnRequest(y.s, h, req, left);
      CalmJobs(y.s, y.s.(out := y.s.out.(admitted := r.out.admitted)), r);
    case Cancel(id) => CancelCalm(y.s, h, id); CalmJobs(y.s, y.s, OnCancel(y.s, h, id));
    case TimesOut(id) => TimeoutCalm(y.s, h, id); CalmJobs(y.s, y.s, OnQueueTimeout(y.s, h, id));
    case GrantCancelled(k) =>
      CancelGrantedCalm(Ungrant(y.s, k), h, k);
      CalmJobs(y.s, Ungrant(y.s, k), OnCancelGranted(Ungrant(y.s, k), h, k));
    case BackendEnds(k) => BackendCalm(y.s, h, k); CalmJobs(y.s, y.s, OnBackendDone(y.s, h, k));
    case Reminder(i) =>
      RemindCalm(TakeReminder(y.s, i), h);
      CalmJobs(y.s, TakeReminder(y.s, i), OnRemind(TakeReminder(y.s, i), h));
  }

  lemma ServeJobs(y: Sys, m: Model, gone: set<nat>)
    ensures NewJobs(y.s, AfterServe(y, gone, m).s)
  {
    hide HostOf, OnServeDone, Calm, NewJobs, ServeDone;
    var h := HostOf(y.(l := NoteUse(y.l, y.now, m), serving := y.serving - multiset{m}), gone);
    ServeCalm(y.s, h, m);
    AfterServeIs(y, m, gone);
    UseHost(y, m, gone);
    CalmJobs(y.s, y.s.(work := ServeDone(y.s.work, m)), OnServeDone(y.s, h, m));
  }

  lemma UseHost(y: Sys, m: Model, gone: set<nat>)
    ensures HostOf(y.(l := NoteUse(y.l, y.now, m), serving := y.serving - multiset{m}), gone)
         == HostOf(y.(l := NoteUse(y.l, y.now, m)), gone)
  {
    SameHost(y.(l := NoteUse(y.l, y.now, m), serving := y.serving - multiset{m}),
             y.(l := NoteUse(y.l, y.now, m)), gone);
  }

  lemma StatusJobs(y: Sys, i: nat, count: Option<nat>, gone: set<nat>)
    requires i < |y.statuses|
    ensures NewJobs(y.s, Next(y, StatusReturns(i, count), gone).s)
  {
    hide HostOf, OnStatus, ApplyBackend, NewJobs, Calm;
    StatusDigest(y.s, HostOf(y, gone), y.statuses[i].model, count, y.statuses[i].gen);
    var r := OnStatus(y.s, HostOf(y, gone), y.statuses[i].model, count, y.statuses[i].gen);
    CalmJobs(y.s, y.s.(work := y.s.work.(unresolved := r.work.unresolved)), r);
  }

  lemma LoadJobs(y: Sys, i: nat, gone: set<nat>)
    requires i < |y.s.out.loads| && y.s.out.loads[i].stage.Answered?
    ensures NewJobs(TakeLoad(y.s, i), AfterLoad(y, gone, i).s)
  {
    hide HostOf, OnSwapDone, LoadReported, NewJobs, Calm;
    var j := y.s.out.loads[i];
    var h := HostOf(y.(l := LoadReported(y.l, y.now, j.model, j.stage.fault)), gone);
    SwapCalm(TakeLoad(y.s, i), h, j.model, j.stage.fault);
    CalmJobs(TakeLoad(y.s, i), TakeLoad(y.s, i), OnSwapDone(TakeLoad(y.s, i), h, j.model, j.stage.fault));
  }

  lemma UnloadFailJobs(y: Sys, i: nat, error: Fault, gone: set<nat>)
    requires i < |y.s.out.unloads|
    ensures NewJobs(TakeUnload(y.s, i), OnUnloadDone(TakeUnload(y.s, i), HostOf(y, gone), Some(error)))
  {
    hide HostOf, OnUnloadDone, NewJobs, Calm;
    var r := OnUnloadDone(TakeUnload(y.s, i), HostOf(y, gone), Some(error));
    UnloadCalm(TakeUnload(y.s, i), HostOf(y, gone), Some(error));
    CalmJobs(TakeUnload(y.s, i), TakeUnload(y.s, i).(unloadFail := r.unloadFail), r);
  }

  lemma UnloadJobs(y: Sys, i: nat, sample: Snapshot, order: seq<Model>, gone: set<nat>)
    requires i < |y.s.out.unloads| && y.s.out.unloads[i].stage.Confirmed? && Distinct(order)
    requires CInv(y)
    ensures NewJobs(TakeUnload(y.s, i), AfterUnload(y, gone, i, sample, order).s)
    ensures AfterUnload(y, gone, i, sample, order).s.unloadFail == y.s.unloadFail - Elements(order)
  {
    hide CInv, HostOf, OnUnloadDone, UnloadReported, ClearMarkers, NewJobs, Calm, TryDispatch;
    UnloadTarget(y, i);
    var j := y.s.out.unloads[i];
    var h := HostOf(y.(l := UnloadReported(y.l, j.ids, j.stage.at, sample)), gone);
    var s0 := TakeUnload(y.s, i);
    ClearMarkersOrder(s0, h, order);
    var x := Unmarked(s0, Elements(order));
    UnloadEndsCalm(x, h);
    CalmJobs(s0, x, OnUnloadDone(x, h, None));
    CalmFails(x, OnUnloadDone(x, h, None));
  }

  lemma CalmFails(s: Sched, r: Sched)
    requires Calm(s, r)
    ensures r.unloadFail == s.unloadFail
  {
  }

  lemma UnloadEndsCalm(s: Sched, h: Host)
    ensures Calm(s, OnUnloadDone(s, h, None))
  {
    hide TryDispatch, ReopenUnusedGates, OpenGates;
    if s.phase.Unloading? {
      ReopenCalm(s.(gates := OpenGates(s.gates, Elements(s.swap.evict)), phase := Idle,
                   swap := Swap(None, [], false)), h);
      DispatchCalm(EndUnload(s, h), h);
    }
  }

  lemma SampleJobs(y: Sys, sample: Snapshot, order: seq<Model>, gone: set<nat>)
    requires Usable(y.l.cfg, sample) ==> Lists(order, ClearedBy(y.l.marker, sample))
    requires CInv(y)
    ensures NewJobs(y.s, AfterSample(y, gone, sample, order).s)
  {
    hide CInv, HostOf, SampleFailed, Observe, ClearMarkers, Usable, NewJobs, Calm;
    NeedsAreMarkers(y);
    var h := HostOf(y.(l := Observe(y.l, sample)), gone);
    if Usable(y.l.cfg, sample) {
      assert Elements(order) <= y.l.marker.Keys;
      ClearMarkersCalm(y.s, h, order);
      CalmJobs(y.s, y.s.(unloadFail := y.s.unloadFail - Elements(order)), ClearMarkers(y.s, h, order));
    } else {
      SampleFailedCalm(y.s, h);
      CalmJobs(y.s, y.s, SampleFailed(y.s, h));
    }
  }

  lemma ProbeJobs(y: Sys, i: nat, ev: Result, gone: set<nat>)
    requires i < |y.s.out.probes| && ev.model in y.clients
    ensures NewJobs(y.s, AfterProbe(y, gone, i, ev).s)
  {
    hide HostOf, NoteProbe, Digested, RecoverMode, ApplyBackend, AskClient, NewJobs, Calm;
    var mode := RecoverMode(y.s, ev.token);
    if mode.Drop? {
      assert NewJobs(y.s, Returned(y.s, i)) by { ReturnedNew(y.s, i); }
    } else {
      var n := NoteOf(ev, mode, AskClient(y.clients[ev.model], ev).1);
      var r := NoteProbe(TakeProbe(y.s, i), HostOf(Digested(y, ev), gone), n);
      NoteDigest(TakeProbe(y.s, i), HostOf(Digested(y, ev), gone), n);
      var x := TakeProbe(y.s, i);
      CalmJobs(y.s, x.(work := x.work.(unresolved := r.work.unresolved), unloadFail := r.unloadFail), r);
    }
  }

  lemma ReturnedNew(s: Sched, i: nat)
    requires i < |s.out.probes|
    ensures NewJobs(s, Returned(s, i))
  {
  }

  /** Outside the clients, an event takes its own report and starts at most one load or unload. */
  lemma JobsMove(y: Sys, e: Event, gone: set<nat>)
    requires Possible(y, e) && !AtClient(e)
    requires CInv(y)
    ensures NewJobs(Taken(y, e), Next(y, e, gone).s)
  {
    hide CInv, AfterServe, AfterLoad, AfterUnload, AfterSample, AfterProbe, OnUnloadDone, HostOf, AdmitLoad, Usable,
         ClearedBy, MarkAll, OnRequest, OnCancel, OnQueueTimeout, OnCancelGranted, OnBackendDone, OnRemind, OnStatus,
         NewJobs, TakeLoad, TakeUnload;
    match e
    case ProxyStarts(m) => ProxyNew(y, m);
    case ServeEnds(k) => ServeJobs(y, k, gone);
    case StatusReturns(i, count) => StatusJobs(y, i, count, gone);
    case LoadReturns(i) => LoadJobs(y, i, gone);
    case UnloadFails(i, error) => UnloadFailJobs(y, i, error, gone);
    case UnloadReturns(i, sample, order) => UnloadJobs(y, i, sample, order, gone);
    case Observes(sample, order) => SampleJobs(y, sample, order, gone);
    case ProbeReturns(i, kind, rec, active, at) =>
      ProbeJobs(y, i, ResultOf(y.s.out.probes[i], kind, rec, active, at), gone);
    case GateAsked(_) => SameNew(y.s);
    case Tick(_) => SameNew(y.s);
    case _ => QueueJobs(y, e, gone);
  }

  lemma SameNew(s: Sched)
    ensures NewJobs(s, s)
  {
  }

  lemma ProxyNew(y: Sys, m: Model)
    ensures NewJobs(y.s, AfterProxy(y, m).s)
  {
  }
}
