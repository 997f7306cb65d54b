/**
 The router's event loop (internal/router/base.go, run) with everything it talks to: the
 scheduler, the ledger, one client a model, and the messages in flight between them. One
 event is one pass of the loop, or one step of a goroutine that will send to it.
 */
module System {
  import opened Types
  import opened Admission
  import opened RuntimeStatus
  import opened Scheduler
  import opened SchedulerLaws
  import opened SchedulerHandlers
  import opened SchedulerRecovery
  import opened Ledger
  import opened ClientLoop

  /**
   A status read begun after a serve. `gen` is the proof it carries; `grants` and `busy`
   record the model's grants so far and its local calls when it began, and nothing reads them.
   */
  datatype StatusRead = StatusRead(model: Model, gen: nat, grants: nat, busy: nat)

  datatype Sys = Sys(
    s: Sched,
    l: Ledger,
    clients: map<Model, Client>,
    serving: multiset<Model>,      // handler functions inside ServeHTTP
    statuses: seq<StatusRead>,
    now: int)

  datatype Event =
    | Request(req: Req, left: bool)
    | Cancel(id: nat)
    | TimesOut(id: nat)
    | ProxyStarts(m: Model)
    | GrantCancelled(m: Model)
    | ServeEnds(m: Model)
    | StatusReturns(i: nat, count: Option<nat>)
    | BackendEnds(m: Model)
    | Reminder(i: nat)
    | EnsureCalled(i: nat, call: nat)
    | OpReturns(m: Model, fault: Option<Fault>)
    | LoadReturns(i: nat)
    | GateAsked(m: Model)
    | StopStarts(i: nat)
    | StopReturns(i: nat, fault: Option<Fault>)
    | UnloadFails(i: nat, error: Fault)
    | UnloadReturns(i: nat, sample: Snapshot, order: seq<Model>)
    | Observes(sample: Snapshot, order: seq<Model>)
    | ProbeReturns(i: nat, kind: ErrKind, rec: Class, active: nat, at: int)
    | Tick(now: int)

  /** The client of a model; of an unknown one, a client that has not reconciled. */
  function ClientOf(y: Sys, m: Model): Client {
    if m in y.clients then y.clients[m] else NEW_CLIENT
  }

  function StatesOf(clients: map<Model, Client>): States {
    map m | m in clients :: clients[m].state
  }

  /** What the scheduler can read while the loop handles an event. */
  function HostOf(y: Sys, gone: set<nat>): Host {
    var st := StatesOf(y.clients);
    Host(st,
         map m | m in y.clients :: y.clients[m].gen,
         y.l.marker.Keys,
         set m | m in y.clients && y.clients[m].op.Some?,
         map m | m in y.clients :: Decide(y.l, st, y.now, m),
         y.now,
         gone)
  }

  // ---------------------------------------------------------------- jobs in flight

  function SetLoad(s: Sched, i: nat, stage: LoadStage): Sched {
    if i < |s.out.loads| then s.(out := s.out.(loads := s.out.loads[i := s.out.loads[i].(stage := stage)])) else s
  }

  function SetUnload(s: Sched, i: nat, stage: UnloadStage): Sched {
    if i < |s.out.unloads| then s.(out := s.out.(unloads := s.out.unloads[i := s.out.unloads[i].(stage := stage)]))
    else s
  }

  /** The client of model m answers everyone waiting for it. */
  function AnswerLoads(s: Sched, m: Model, fault: Option<Fault>): Sched {
    s.(out := s.out.(loads := seq(|s.out.loads|, i requires 0 <= i < |s.out.loads| =>
      if s.out.loads[i].model == m && s.out.loads[i].stage.Waiting?
      then s.out.loads[i].(stage := Answered(fault)) else s.out.loads[i])))
  }

  // ---------------------------------------------------------------- what may happen

  ghost predicate Lists(order: seq<Model>, cleared: set<Model>) {
    Distinct(order) && Elements(order) == cleared
  }

  predicate UnloadAt(y: Sys, i: nat) {
    i < |y.s.out.unloads| && |y.s.out.unloads[i].ids| == 1 && y.s.out.unloads[i].ids[0] in y.clients
  }

  ghost predicate Possible(y: Sys, e: Event) {
    match e
    case Request(req, _) => req.id != 0 && req.id !in y.s.out.admitted
    case ProxyStarts(m) => m in y.s.out.granted
    case GrantCancelled(m) => m in y.s.out.granted
    case ServeEnds(m) => m in y.serving
    case StatusReturns(i, _) => i < |y.statuses|
    case Reminder(i) => i < |y.s.out.reminders|
    case EnsureCalled(i, _) =>
      i < |y.s.out.loads| && y.s.out.loads[i].stage.Called? && y.s.out.loads[i].model in y.clients
      && !y.clients[y.s.out.loads[i].model].stopping
    case OpReturns(m, _) => m in y.clients && y.clients[m].op.Some? && !y.clients[m].stopping
    case GateAsked(m) => m in y.clients && y.clients[m].op.Some?
    case LoadReturns(i) => i < |y.s.out.loads| && y.s.out.loads[i].stage.Answered?
    case StopStarts(i) =>
      UnloadAt(y, i) && y.s.out.unloads[i].stage.Draining? && !y.clients[y.s.out.unloads[i].ids[0]].stopping
    case StopReturns(i, _) => UnloadAt(y, i) && y.s.out.unloads[i].stage.Stopping?
    case UnloadFails(i, error) =>
      i < |y.s.out.unloads| && !y.s.out.unloads[i].stage.Stopping?
      && (y.s.out.unloads[i].stage.Broken? ==> y.s.out.unloads[i].stage.fault == error)
    case UnloadReturns(i, sample, order) =>
      && i < |y.s.out.unloads| && y.s.out.unloads[i].stage.Confirmed?
      && Usable(y.l.cfg, sample) && sample.at > y.s.out.unloads[i].stage.at
      && Lists(order, ClearedBy(MarkAll(y.l, y.s.out.unloads[i].ids, y.s.out.unloads[i].stage.at).marker, sample))
    case Observes(sample, order) => Usable(y.l.cfg, sample) ==> Lists(order, ClearedBy(y.l.marker, sample))
    case ProbeReturns(i, kind, rec, _, _) =>
      i < |y.s.out.probes| && y.s.out.probes[i].model in y.clients && (!kind.NoErr? ==> rec.RecInvalid?)
    case Tick(now) => now >= y.now
    case _ => true
  }

  // ---------------------------------------------------------------- what happens

  /** A delivered handler function is called, or given up. */
  function Ungrant(s: Sched, m: Model): Sched {
    s.(out := s.out.(granted := s.out.granted - multiset{m}))
  }

  function AfterProxy(y: Sys, m: Model): Sys {
    var (r, ok) := OnProxyStart(Ungrant(y.s, m), m);
    y.(s := r, serving := if ok then y.serving + multiset{m} else y.serving)
  }

  function AfterServe(y: Sys, gone: set<nat>, m: Model): Sys {
    var y1 := y.(l := NoteUse(y.l, y.now, m), serving := y.serving - multiset{m});
    var r := OnServeDone(y.s, HostOf(y1, gone), m);
    y1.(s := r, statuses := y.statuses + [StatusRead(m, Get(r.work.quietGen, m), Get(r.work.dispatchGen, m),
                                                     Get(r.work.pending, m) + Get(r.work.httpIn, m))])
  }

  function AfterLoad(y: Sys, gone: set<nat>, i: nat): Sys {
    if !(i < |y.s.out.loads| && y.s.out.loads[i].stage.Answered?) then y
    else
      var j := y.s.out.loads[i];
      var y1 := y.(l := LoadReported(y.l, y.now, j.model, j.stage.fault));
      y1.(s := OnSwapDone(TakeLoad(y.s, i), HostOf(y1, gone), j.model, j.stage.fault))
  }

  function AfterUnload(y: Sys, gone: set<nat>, i: nat, sample: Snapshot, order: seq<Model>): Sys {
    if !(i < |y.s.out.unloads| && y.s.out.unloads[i].stage.Confirmed?) then y
    else
      var j := y.s.out.unloads[i];
      var y1 := y.(l := UnloadReported(y.l, j.ids, j.stage.at, sample));
      var h := HostOf(y1, gone);
      y1.(s := OnUnloadDone(ClearMarkers(TakeUnload(y.s, i), h, order), h, None))
  }

  function AfterSample(y: Sys, gone: set<nat>, sample: Snapshot, order: seq<Model>): Sys {
    var y1 := y.(l := Observe(y.l, sample));
    var h := HostOf(y1, gone);
    y1.(s := if Usable(y.l.cfg, sample) then ClearMarkers(y.s, h, order) else SampleFailed(y.s, h))
  }

  function ResultOf(p: Probe, kind: ErrKind, rec: Class, active: nat, at: int): Result {
    Result(p.token, p.model, p.gen, at, kind, rec, active, p.proof)
  }

  /** The client's part: asked only about a believable result. */
  function AskClient(c: Client, ev: Result): (Client, Ack) {
    if CallsClient(ev) then OnApply(c, ev.gen, ev.rec) else (c, Applied)
  }

  function NoteOf(ev: Result, mode: Mode, ack: Ack): Note {
    Note(ev.token, ev.model, mode, ev.rec, ev.kind, ack, ev.active, ev.proof, CallsClient(ev) && ack.Applied?)
  }

  /** The client and the ledger after a result that is not dropped. */
  function Digested(y: Sys, ev: Result): Sys {
    if ev.model !in y.clients then y
    else
      var (c, ack) := AskClient(y.clients[ev.model], ev);
      y.(clients := y.clients[ev.model := c], l := Recovered(y.l, y.now, ev, ack))
  }

  /** onRecover. */
  function AfterProbe(y: Sys, gone: set<nat>, i: nat, ev: Result): Sys {
    if !(i < |y.s.out.probes| && ev.model in y.clients) then y
    else
      var mode := RecoverMode(y.s, ev.token);
      if mode.Drop? then y.(s := Returned(y.s, i))
      else
        var y1 := Digested(y, ev);
        var ack := AskClient(y.clients[ev.model], ev).1;
        y1.(s := NoteProbe(TakeProbe(y.s, i), HostOf(y1, gone), NoteOf(ev, mode, ack)))
  }

  function EnsureStage(c: Client): LoadStage {
    if c.state.Ready? then Answered(None)
    else if c.state.Shutdown? then Answered(Some(Coded(ShuttingDown)))
    else Waiting
  }

  /** A load's EnsureReady reaches its client. */
  function AfterEnsure(y: Sys, i: nat, call: nat): Sys {
    if !(i < |y.s.out.loads| && y.s.out.loads[i].model in y.clients) then y
    else
      var m := y.s.out.loads[i].model;
      y.(s := SetLoad(y.s, i, EnsureStage(y.clients[m])), clients := y.clients[m := OnReady(y.clients[m], call)])
  }

  function AfterOp(y: Sys, m: Model, fault: Option<Fault>): Sys {
    if !(m in y.clients && y.clients[m].op.Some?) then y
    else
      y.(s := AnswerLoads(y.s, m, fault), clients := y.clients[m := OnOpDone(y.clients[m], fault.None?)])
  }

  function AfterStopStarts(y: Sys, i: nat): Sys {
    if !UnloadAt(y, i) then y
    else
      var m := y.s.out.unloads[i].ids[0];
      y.(s := SetUnload(y.s, i, UnloadStage.Stopping), clients := y.clients[m := BeginStop(y.clients[m])])
  }

  function AfterStopReturns(y: Sys, i: nat, fault: Option<Fault>): Sys {
    if !UnloadAt(y, i) then y
    else
      var m := y.s.out.unloads[i].ids[0];
      var stage := match fault case None => Confirmed(y.now) case Some(f) => Broken(f);
      y.(s := AnswerLoads(SetUnload(y.s, i, stage), m, fault),
         clients := y.clients[m := EndStop(y.clients[m], fault.None?)])
  }

  /** `gone`: the queued requests whose caller has gone away. What cannot happen changes nothing. */
  ghost function Next(y: Sys, e: Event, gone: set<nat>): Sys {
    if !Possible(y, e) then y
    else
      var h := HostOf(y, gone);
      match e
      case Request(req, left) => y.(s := OnRequest(y.s, h, req, left))
      case Cancel(id) => y.(s := OnCancel(y.s, h, id))
      case TimesOut(id) => y.(s := OnQueueTimeout(y.s, h, id))
      case ProxyStarts(m) => AfterProxy(y, m)
      case GrantCancelled(m) => y.(s := OnCancelGranted(Ungrant(y.s, m), h, m))
      case ServeEnds(m) => AfterServe(y, gone, m)
      case StatusReturns(i, count) =>
        y.(s := OnStatus(y.s, h, y.statuses[i].model, count, y.statuses[i].gen),
           statuses := RemoveAt(y.statuses, i))
      case BackendEnds(m) => y.(s := OnBackendDone(y.s, h, m))
      case Reminder(i) => y.(s := OnRemind(TakeReminder(y.s, i), h))
      case EnsureCalled(i, call) => AfterEnsure(y, i, call)
      case OpReturns(m, fault) => AfterOp(y, m, fault)
      case LoadReturns(i) => AfterLoad(y, gone, i)
      case GateAsked(m) => y.(l := AdmitLoad(y.l, h.states, y.now, false, m).0)
      case StopStarts(i) => AfterStopStarts(y, i)
      case StopReturns(i, fault) => AfterStopReturns(y, i, fault)
      case UnloadFails(i, error) => y.(s := OnUnloadDone(TakeUnload(y.s, i), h, Some(error)))
      case UnloadReturns(i, sample, order) => AfterUnload(y, gone, i, sample, order)
      case Observes(sample, order) => AfterSample(y, gone, sample, order)
      case ProbeReturns(i, kind, rec, active, at) =>
        AfterProbe(y, gone, i, ResultOf(y.s.out.probes[i], kind, rec, active, at))
      case Tick(now) => y.(now := now)
  }

  // ---------------------------------------------------------------- boot

  /** A client that has reconciled; a load it then waited for may already have ended. */
  ghost predicate Booted(c: Client) {
    || (exists wire: Option<Wire> :: c == OnReconcile(NEW_CLIENT, wire))
    || (exists ok: bool :: c == OnOpDone(OnReconcile(NEW_CLIENT, Some(WireLoading)), ok))
  }

  /** The router as it is once every client has reconciled with its backend. */
  ghost predicate Boot(y: Sys) {
    && y.s == NewSched(y.s.cfg) && y.s.cfg.drain > 0 && y.s.cfg.maxQ > 0
    && BudgetOK(y.l.cfg) && y.l.reserved == map[] && y.l.marker == map[] && y.l.serial.None?
    && y.l.lastUse == map[] && y.l.loadedAt == map[]
    && y.clients.Keys == y.l.cfg.models.Keys
    && (forall m :: m in y.clients ==> Booted(y.clients[m]))
    && y.serving == multiset{} && y.statuses == []
  }

  // ---------------------------------------------------------------- runs

  datatype Step = Step(event: Event, gone: set<nat>)

  ghost predicate IsRun(y: Sys, run: seq<Step>)
    decreases |run|
  {
    run == [] || (Possible(y, run[0].event) && IsRun(Next(y, run[0].event, run[0].gone), run[1..]))
  }

  ghost function After(y: Sys, run: seq<Step>): Sys
    decreases |run|
  {
    if run == [] then y else After(Next(y, run[0].event, run[0].gone), run[1..])
  }
}
