/**
 The FIFO swap scheduler as functions on values: what each handler of
 internal/router/scheduler/fifo.go and recover.go does to the scheduler's state,
 given what the router answers during that event (`Host`). The class in Fifo.dfy
 is proved against these functions.
 */
module Scheduler {
  import opened Types
  import opened RuntimeStatus

  datatype Phase = Idle | Unloading | Loading | Recover | Sample

  datatype Req = Req(id: nat, model: Model)

  /** The planner's answer for a target. `Evict([])` admits it without unloading. */
  datatype Decision = Refuse(cause: Cause) | Evict(ids: seq<Model>)

  /**
   What the scheduler can read while it handles one event: local states, client
   generations, residual markers, loads in flight, the planner's answers, the clock,
   and the queued requests whose caller has gone.
   */
  datatype Host = Host(
    states: map<Model, State>,
    gens: map<Model, nat>,
    markers: set<Model>,
    inFlight: set<Model>,
    decide: map<Model, Decision>,
    now: int,
    gone: set<nat>)

  datatype Config = Config(limits: map<Model, int>, maxQ: nat, drain: int)

  /** Work counters and the generations that prove a backend idle. */
  datatype Work = Work(
    pending: map<Model, nat>,
    httpIn: map<Model, nat>,
    backend: map<Model, nat>,
    unresolved: map<Model, nat>,
    dispatchGen: map<Model, nat>,
    quietGen: map<Model, nat>)

  datatype Gates = Gates(closed: set<Model>, at: map<Model, int>, armed: bool)

  datatype Swap = Swap(target: Option<Model>, evict: seq<Model>, began: bool)

  datatype Session = Session(
    token: nat,
    owner: nat,
    model: Model,
    order: seq<Model>,
    pos: nat,
    needSample: set<Model>,
    checked: set<Model>,
    sawResources: bool,
    sawLifecycle: bool,
    skipRest: bool,
    current: Option<Model>)

  datatype Book = Book(
    tokenSeq: nat,
    started: map<Model, nat>,
    late: set<nat>,
    seen: map<nat, set<Model>>)

  datatype LoadStage = Called | Waiting | Answered(fault: Option<Fault>)
  datatype LoadJob = LoadJob(model: Model, stage: LoadStage)

  datatype UnloadStage = Draining | Stopping | Confirmed(at: int) | Broken(fault: Fault)
  datatype UnloadJob = UnloadJob(ids: seq<Model>, deadline: int, stage: UnloadStage)

  /**
   A status read begun for recovery. `gen` and `proof` are what the router captures;
   `grants` and `busy` record the model's grants so far and its local calls at that
   moment, and nothing reads them.
   */
  datatype Probe = Probe(token: nat, model: Model, gen: nat, proof: nat, grants: nat, busy: nat)

  datatype Outcome = Served | Gone | Errored(cause: Cause)

  /**
   What the scheduler has asked of its `Effects`: the jobs and messages it put in
   flight, and the history of its answers.
   */
  datatype Outbox = Outbox(
    loads: seq<LoadJob>,
    unloads: seq<UnloadJob>,
    probes: seq<Probe>,
    reminders: seq<int>,
    granted: multiset<Model>,          // handler functions delivered, not yet started
    admitted: seq<nat>,                // requests let into the queue, in order
    answered: multiset<nat>,           // every GrantServe and GrantError to an admitted request
    outcomes: map<nat, Outcome>,
    served: seq<nat>,                  // every GrantServe, in order
    cancelled: multiset<nat>,
    rejected: seq<(nat, Cause)>,       // requests refused at the door
    begun: multiset<(nat, Model)>,     // every BeginProbe, with the request that owned it
    noted: set<(nat, Model)>,          // probe results delivered to a session, with its owner
    actions: nat,                      // loads, unloads and probes started
    droppedAt: map<nat, nat>)          // per dropped session token, the actions at that moment

  datatype Sched = Sched(
    cfg: Config,
    nextID: nat,
    queued: seq<Req>,
    work: Work,
    gates: Gates,
    unloadFail: set<Model>,
    phase: Phase,
    swap: Swap,
    session: Session,
    book: Book,
    out: Outbox)

  const EMPTY_WORK := Work(map[], map[], map[], map[], map[], map[])
  const NO_SESSION := Session(0, 0, 0, [], 0, {}, {}, false, false, false, None)
  const EMPTY_OUTBOX :=
    Outbox([], [], [], [], multiset{}, [], multiset{}, map[], [], multiset{}, [], multiset{}, {}, 0, map[])

  /** NewFIFO. */
  function NewSched(cfg: Config): Sched {
    Sched(cfg, 0, [], EMPTY_WORK, Gates({}, map[], false), {}, Idle, Swap(None, [], false), NO_SESSION,
          Book(0, map[], {}, map[]), EMPTY_OUTBOX)
  }

  // ---------------------------------------------------------------- queries

  function StateOf(h: Host, m: Model): State {
    if m in h.states then h.states[m] else Unknown
  }

  function DecideOf(h: Host, m: Model): Decision {
    if m in h.decide then h.decide[m] else Refuse(Resources)
  }

  /** EvictionFor: a refusal names no victim. */
  function EvictionFor(h: Host, m: Model): seq<Model> {
    match DecideOf(h, m) case Refuse(_) => [] case Evict(ids) => ids
  }

  function Slots(w: Work, m: Model): nat {
    Get(w.pending, m) + Get(w.httpIn, m) + Get(w.unresolved, m)
  }

  function Limit(cfg: Config, m: Model): nat {
    if m in cfg.limits && cfg.limits[m] > 0 then cfg.limits[m] else 1
  }

  predicate Busy(w: Work, m: Model) {
    Slots(w, m) + Get(w.backend, m) > 0
  }

  predicate AnyBusy(w: Work, ids: seq<Model>) {
    exists i :: 0 <= i < |ids| && Busy(w, ids[i])
  }

  predicate AnyFailed(failed: set<Model>, ids: seq<Model>) {
    exists i :: 0 <= i < |ids| && ids[i] in failed
  }

  function Earlier(a: int, b: int): int { if a < b then a else b }

  function DrainDeadline(at: map<Model, int>, drain: int, ids: seq<Model>, now: int): int {
    if ids == [] then now + drain
    else
      var rest := DrainDeadline(at, drain, ids[1..], now);
      if ids[0] in at then Earlier(at[ids[0]] + drain, rest) else rest
  }

  predicate DrainExpired(at: map<Model, int>, drain: int, ids: seq<Model>, now: int) {
    drain > 0 && exists i :: 0 <= i < |ids| && ids[i] in at && now >= at[ids[i]] + drain
  }

  function SeenBy(b: Book, id: nat): set<Model> {
    if id in b.seen then b.seen[id] else {}
  }

  /** The models that planRecovery wants to ask about. */
  function Suspects(h: Host, unloadFail: set<Model>): set<Model> {
    set m | m in h.states
            && !(m in h.inFlight && h.states[m].Starting?)
            && (h.states[m].Failed? || h.states[m].Unknown? || m in unloadFail)
            && m !in h.markers
  }

  function Marked(h: Host): set<Model> {
    set m | m in h.states && m in h.markers
  }

  /** The target first, then the others in id order. */
  function StatusOrder(h: Host, unloadFail: set<Model>, target: Model): (order: seq<Model>)
    ensures Elements(order) == Suspects(h, unloadFail)
  {
    var want := Suspects(h, unloadFail);
    var rest := Sorted(want - {target});
    if target in want then
      assert forall x :: x in [target] + rest <==> x == target || x in Elements(rest);
      assert Elements([target] + rest) == want;
      [target] + rest
    else
      assert want - {target} == want;
      rest
  }

  function Unseen(s: Sched, h: Host, head: Req): seq<Model> {
    Without(StatusOrder(h, s.unloadFail, head.model), SeenBy(s.book, head.id))
  }

  /** Whether a waiting head needs recovery before it may be dispatched. */
  predicate MustRecover(s: Sched, h: Host, head: Req) {
    !StateOf(h, head.model).Ready?
    && !(StateOf(h, head.model).Starting? && head.model in h.inFlight)
    && (Unseen(s, h, head) != [] || Marked(h) != {})
  }

  function FirstLive(order: seq<Model>, started: map<Model, nat>): (r: Option<Model>)
    ensures r.Some? ==> r.value in order && r.value in started
    ensures r.None? ==> forall m :: m in order ==> m !in started
  {
    if order == [] then None
    else if order[0] in started then Some(order[0])
    else FirstLive(order[1..], started)
  }

  function NextFresh(order: seq<Model>, pos: nat, checked: set<Model>): (p: nat)
    ensures pos <= p
    ensures p < |order| ==> order[p] !in checked
    ensures forall i :: pos <= i < p && i < |order| ==> order[i] in checked
    decreases |order| - pos
  {
    if pos < |order| && order[pos] in checked then NextFresh(order, pos + 1, checked) else pos
  }

  // ---------------------------------------------------------------- small updates

  function SetPhase(s: Sched, p: Phase): Sched {
    if p.Idle? then s.(phase := p) else s.(phase := p, book := s.book.(late := {}))
  }

  function EndSession(s: Sched): Sched {
    s.(phase := Idle, session := s.session.(token := 0, owner := 0))
  }

  function Answer(out: Outbox, id: nat, outcome: Outcome): Outbox {
    out.(answered := out.answered + multiset{id}, outcomes := out.outcomes[id := outcome])
  }

  function FailHead(s: Sched, cause: Cause): Sched
    requires s.queued != []
  {
    s.(queued := s.queued[1..], out := Answer(s.out, s.queued[0].id, Errored(cause)))
  }

  function CloseGates(g: Gates, ids: seq<Model>, now: int): Gates
    decreases |ids|
  {
    if ids == [] then g
    else
      var g' := if ids[0] in g.closed then g
                else g.(closed := g.closed + {ids[0]}, at := g.at[ids[0] := now]);
      CloseGates(g', ids[1..], now)
  }

  function OpenGates(g: Gates, ids: set<Model>): Gates {
    g.(closed := g.closed - ids, at := g.at - ids)
  }

  function NeededGates(s: Sched, h: Host): set<Model> {
    (if s.queued != [] && s.phase.Idle? then Elements(EvictionFor(h, s.queued[0].model)) else {})
    + (if !s.phase.Idle? && s.swap.began then Elements(s.swap.evict) else {})
  }

  function ReopenUnusedGates(s: Sched, h: Host): Sched {
    if s.swap.began && !s.phase.Idle? then s
    else s.(gates := OpenGates(s.gates, s.gates.closed - NeededGates(s, h)))
  }

  // ---------------------------------------------------------------- dispatch

  function GrantHead(s: Sched, h: Host): Sched
    requires s.queued != []
  {
    var head := s.queued[0];
    var s1 := s.(queued := s.queued[1..]);
    if head.id in h.gone then
      s1.(out := Answer(s.out, head.id, Gone).(served := s.out.served + [head.id]))
    else
      var w := s.work;
      s1.(work := w.(dispatchGen := Bump(w.dispatchGen, head.model),
                     quietGen := w.quietGen - {head.model},
                     pending := Bump(w.pending, head.model)),
          out := Answer(s.out, head.id, Served).(served := s.out.served + [head.id],
                                                 granted := s.out.granted + multiset{head.model}))
  }

  function StartLoad(s: Sched, m: Model): Sched {
    SetPhase(s, Loading).(swap := s.swap.(target := Some(m)),
                          out := s.out.(loads := s.out.loads + [LoadJob(m, Called)],
                                        actions := s.out.actions + 1))
  }

  function StartUnload(s: Sched, h: Host, target: Model, ids: seq<Model>): Sched {
    var deadline := DrainDeadline(s.gates.at, s.cfg.drain, ids, h.now);
    SetPhase(s, Unloading).(
      swap := Swap(Some(target), ids, true),
      gates := s.gates.(armed := false),
      out := s.out.(unloads := s.out.unloads + [UnloadJob(ids, deadline, Draining)],
                    actions := s.out.actions + 1))
  }

  function ArmDrain(s: Sched, h: Host, ids: seq<Model>): Sched {
    if s.gates.armed then s
    else s.(gates := s.gates.(armed := true),
            out := s.out.(reminders := s.out.reminders
                            + [DrainDeadline(s.gates.at, s.cfg.drain, ids, h.now)]))
  }

  /** failDrain up to its call of tryDispatch. */
  function FailDrain(s: Sched, ids: seq<Model>): Sched
    requires s.queued != []
  {
    FailHead(s.(gates := OpenGates(s.gates, Elements(ids)).(armed := false)), DrainTimeout)
  }

  /** launchProbe at a position whose model is to be asked. */
  function BeginProbeAt(s: Sched, h: Host, pos: nat): Sched
    requires pos < |s.session.order|
  {
    var m := s.session.order[pos];
    var probe := Probe(s.session.token, m, Get(h.gens, m), Get(s.work.quietGen, m),
                       Get(s.work.dispatchGen, m), Get(s.work.pending, m) + Get(s.work.httpIn, m));
    s.(session := s.session.(pos := pos, current := Some(m)),
       book := MarkSeen(s.book, s.session.owner, m).(started := s.book.started[m := s.session.token]),
       out := s.out.(probes := s.out.probes + [probe],
                     begun := s.out.begun + multiset{(s.session.owner, m)},
                     actions := s.out.actions + 1))
  }

  function MarkSeen(b: Book, id: nat, m: Model): Book {
    if id == 0 then b else b.(seen := b.seen[id := SeenBy(b, id) + {m}])
  }

  function OpenSession(s: Sched, h: Host, token: nat, current: Option<Model>): Sched
    requires s.queued != []
  {
    var head := s.queued[0];
    SetPhase(s, Recover).(session := Session(token, head.id, head.model, Unseen(s, h, head), 0,
                                             Marked(h), {}, false, false, false, current))
  }

  function FreshSession(s: Sched, h: Host): Sched
    requires s.queued != []
  {
    var token := s.book.tokenSeq + 1;
    var s1 := OpenSession(s, h, token, None);
    s1.(book := s1.book.(tokenSeq := token))
  }

  /** maybeRecover once it has found something to recover. */
  function BeginSession(s: Sched, h: Host): Sched
    requires s.queued != []
  {
    var order := Unseen(s, h, s.queued[0]);
    match FirstLive(order, s.book.started)
    case Some(m) => OpenSession(s, h, s.book.started[m], Some(m))
    case None =>
      var s1 := FreshSession(s, h);
      if order == [] then SetPhase(s1, Sample) else BeginProbeAt(s1, h, 0)
  }

  /** One pass of tryDispatch: either it stops, or it goes round with a shorter queue. */
  datatype Turn = Halt(s: Sched) | Again(s: Sched)

  function EvictTurn(s: Sched, h: Host, ids: seq<Model>): Turn
    requires s.queued != []
  {
    if DrainExpired(s.gates.at, s.cfg.drain, ids, h.now) then Again(FailDrain(s, ids))
    else if AnyBusy(s.work, ids) then Halt(ArmDrain(s, h, ids))
    else if AnyFailed(s.unloadFail, ids) then Again(FailHead(s, UnloadBlocked))
    else Halt(StartUnload(s, h, s.queued[0].model, ids))
  }

  function HeadTurn(s: Sched, h: Host): Turn
    requires s.queued != []
  {
    var m := s.queued[0].model;
    if AnyFailed(s.unloadFail, EvictionFor(h, m)) then Again(FailHead(s, UnloadBlocked))
    else if Slots(s.work, m) >= Limit(s.cfg, m) then Halt(s)
    else
      match DecideOf(h, m)
      case Refuse(cause) => Again(FailHead(s, cause))
      case Evict(ids) =>
        if ids != [] then EvictTurn(s.(gates := CloseGates(s.gates, ids, h.now)), h, ids)
        else if StateOf(h, m).Ready? then Again(GrantHead(s, h))
        else Halt(StartLoad(s, m))
  }

  function TakeTurn(s: Sched, h: Host): (t: Turn)
    ensures t.Again? ==> |t.s.queued| < |s.queued|
  {
    if s.phase.Recover? || s.phase.Sample? then Halt(s)
    else if s.phase.Idle? && s.queued != [] && MustRecover(s, h, s.queued[0]) then
      Halt(BeginSession(s, h))
    else
      var s1 := ReopenUnusedGates(s, h);
      if s1.queued == [] || !s1.phase.Idle? then Halt(s1) else HeadTurn(s1, h)
  }

  function TryDispatch(s: Sched, h: Host): Sched
    decreases |s.queued|
  {
    match TakeTurn(s, h)
    case Halt(s') => s'
    case Again(s') => TryDispatch(s', h)
  }

  // ---------------------------------------------------------------- request handlers

  function Admit(s: Sched, req: Req): Sched {
    s.(queued := s.queued + [req], out := s.out.(admitted := s.out.admitted + [req.id]))
  }

  function Reject(s: Sched, req: Req, cause: Cause): Sched {
    s.(out := s.out.(rejected := s.out.rejected + [(req.id, cause)]))
  }

  /** `left`: the caller went away before it could be admitted. */
  function OnRequest(s: Sched, h: Host, req: Req, left: bool): Sched {
    var s1 := if req.id == 0 then s.(nextID := s.nextID + 1) else s;
    var r := if req.id == 0 then req.(id := s1.nextID) else req;
    if r.model !in h.states then Reject(s1, r, ModelNotFound)
    else if |s1.queued| >= s1.cfg.maxQ then Reject(s1, r, QueueFull)
    else if left then s1
    else TryDispatch(Admit(s1, r), h)
  }

  function IndexOf(q: seq<Req>, id: nat): (i: nat)
    ensures i <= |q|
    ensures i < |q| ==> q[i].id == id
    ensures forall j :: 0 <= j < i ==> q[j].id != id
  {
    if q == [] || q[0].id == id then 0 else 1 + IndexOf(q[1..], id)
  }

  function DropOwner(s: Sched, id: nat): Sched {
    if s.session.owner != id || !(s.phase.Recover? || s.phase.Sample?) then s
    else
      var t := s.session.token;
      var s1 := if t == 0 then s
                else s.(book := s.book.(late := s.book.late + {t}),
                        out := s.out.(droppedAt := s.out.droppedAt[t := s.out.actions]));
      EndSession(s1)
  }

  function OnCancel(s: Sched, h: Host, id: nat): Sched {
    var i := IndexOf(s.queued, id);
    if i == |s.queued| then s
    else
      var s1 := s.(queued := RemoveAt(s.queued, i),
                   out := s.out.(cancelled := s.out.cancelled + multiset{id}));
      TryDispatch(DropOwner(s1, id), h)
  }

  function OnQueueTimeout(s: Sched, h: Host, id: nat): Sched {
    var i := IndexOf(s.queued, id);
    if i == |s.queued| then s
    else
      var s1 := DropOwner(s.(queued := RemoveAt(s.queued, i)), id);
      TryDispatch(s1.(out := Answer(s1.out, id, Errored(QueueTimeout))), h)
  }

  // ---------------------------------------------------------------- work handlers

  function OnProxyStart(s: Sched, m: Model): (Sched, bool) {
    if Get(s.work.pending, m) > 0 then
      (s.(work := s.work.(pending := Lower(s.work.pending, m), httpIn := Bump(s.work.httpIn, m))), true)
    else (s, false)
  }

  function CancelGranted(w: Work, m: Model): Work {
    if Get(w.pending, m) > 0 then w.(pending := Lower(w.pending, m)) else w
  }

  function OnCancelGranted(s: Sched, h: Host, m: Model): Sched {
    TryDispatch(s.(work := CancelGranted(s.work, m)), h)
  }

  function ServeDone(w: Work, m: Model): Work {
    if Get(w.httpIn, m) > 0 then
      var w1 := w.(httpIn := Lower(w.httpIn, m), unresolved := Bump(w.unresolved, m));
      if Get(w1.pending, m) == 0 && Get(w1.httpIn, m) == 0
      then w1.(quietGen := w1.quietGen[m := Get(w1.dispatchGen, m)]) else w1
    else w
  }

  function OnServeDone(s: Sched, h: Host, m: Model): Sched {
    TryDispatch(s.(work := ServeDone(s.work, m)), h)
  }

  /** Shared by OnStatus and applyBackend: the reported activity and the idle proof. */
  function ApplyBackend(w: Work, m: Model, active: nat, proof: nat): Work {
    var w1 := w.(backend := if active == 0 then w.backend - {m} else w.backend[m := active]);
    if active == 0 && Get(w.pending, m) == 0 && Get(w.httpIn, m) == 0
       && proof != 0 && proof == Get(w.dispatchGen, m) && proof == Get(w.quietGen, m)
    then w1.(unresolved := w.unresolved - {m}) else w1
  }

  /** `active` is None when the status read failed. */
  function OnStatus(s: Sched, h: Host, m: Model, active: Option<nat>, gen: nat): Sched {
    match active
    case None => s
    case Some(n) => TryDispatch(s.(work := ApplyBackend(s.work, m, n, gen)), h)
  }

  function OnBackendDone(s: Sched, h: Host, m: Model): Sched {
    TryDispatch(s.(work := s.work.(backend := s.work.backend - {m})), h)
  }

  // ---------------------------------------------------------------- swap handlers

  function FailUnload(s: Sched, fault: Fault): Sched {
    var drained := fault == Coded(DrainTimeout);
    var s1 := s.(unloadFail := if drained then s.unloadFail else s.unloadFail + Elements(s.swap.evict),
                 phase := Idle, swap := s.swap.(began := false));
    if s1.queued == [] then s1
    else FailHead(s1, if drained then DrainTimeout else UnloadBlocked)
  }

  function EndUnload(s: Sched, h: Host): Sched {
    ReopenUnusedGates(
      s.(gates := OpenGates(s.gates, Elements(s.swap.evict)), phase := Idle, swap := Swap(None, [], false)), h)
  }

  function OnUnloadDone(s: Sched, h: Host, fault: Option<Fault>): Sched {
    if !s.phase.Unloading? then s
    else
      match fault
      case Some(f) => TryDispatch(FailUnload(s, f), h)
      case None => TryDispatch(EndUnload(s, h), h)
  }

  function EndLoad(s: Sched, fault: Option<Fault>): Sched
    requires s.swap.target.Some?
  {
    var s1 := s.(phase := Idle, swap := Swap(None, [], false));
    match fault
    case Some(f) =>
      if s1.queued != [] && s1.queued[0].model == s.swap.target.value
      then FailHead(s1, match f case Coded(c) => c case Uncoded => LoadFailed) else s1
    case None => s1
  }

  function OnSwapDone(s: Sched, h: Host, m: Model, fault: Option<Fault>): Sched {
    if !s.phase.Loading? || s.swap.target != Some(m) then s
    else TryDispatch(EndLoad(s, fault), h)
  }

  function OnRemind(s: Sched, h: Host): Sched {
    TryDispatch(s.(gates := s.gates.(armed := false)), h)
  }

  function FailAll(out: Outbox, q: seq<Req>, cause: Cause): Outbox
    decreases |q|
  {
    if q == [] then out else FailAll(Answer(out, q[0].id, Errored(cause)), q[1..], cause)
  }

  function OnShutdown(s: Sched, cause: Cause): Sched {
    s.(queued := [], out := FailAll(s.out, s.queued, cause))
  }

  // ---------------------------------------------------------------- recovery handlers

  datatype Mode = Drop | Current | Late

  datatype Note = Note(token: nat, model: Model, mode: Mode, rec: Class, kind: ErrKind,
                       ack: Ack, active: nat, proof: nat, applied: bool)

  function RecoverMode(s: Sched, token: nat): Mode {
    if s.phase.Recover? && token == s.session.token then Current
    else if s.phase.Idle? && token in s.book.late then Late
    else Drop
  }

  function Forget(b: Book, m: Model): Book { b.(started := b.started - {m}) }

  function ForgetProbe(s: Sched, m: Model): Sched { s.(book := Forget(s.book, m)) }

  function FailOwner(s: Sched, h: Host, cause: Cause): Sched {
    var s1 := EndSession(s).(session := s.session.(token := 0, owner := 0, current := None));
    TryDispatch(if s.queued != [] && s.queued[0].id == s.session.owner then FailHead(s1, cause) else s1, h)
  }

  /** What a settled probe tells its session, besides the backend's activity. */
  function Verdict(ses: Session, n: Note): Session {
    if n.kind.EndpointDown? then
      if n.model != ses.model then ses.(sawResources := true) else ses
    else if n.kind.OtherErr? || n.rec.RecInvalid? then ses.(sawResources := true)
    else
      match n.rec
      case ReadyIdle =>
        ses.(needSample := if n.applied then ses.needSample - {n.model} else ses.needSample,
             skipRest := ses.skipRest || n.model == ses.model)
      case UnloadedIdle | FailedNotResidentIdle =>
        if n.applied then ses.(needSample := ses.needSample + {n.model}) else ses
      case ReadyBusy | InProgress => ses.(sawLifecycle := true)
      case _ => ses.(sawResources := true)
  }

  predicate Settles(n: Note) {
    n.kind.NoErr? && !n.rec.RecInvalid? && n.applied
  }

  function Absorb(s: Sched, n: Note): Sched {
    s.(session := Verdict(s.session, n),
       work := if Settles(n) then ApplyBackend(s.work, n.model, n.active, n.proof) else s.work,
       unloadFail := if Settles(n) && n.rec.ReadyIdle? then s.unloadFail - {n.model} else s.unloadFail)
  }

  function NoteLate(s: Sched, h: Host, n: Note): Sched {
    if n.ack.Stale? then s
    else
      var s1 := if !n.applied then s
                else s.(work := ApplyBackend(s.work, n.model, n.active, n.proof),
                        unloadFail := if n.rec.ReadyIdle? then s.unloadFail - {n.model} else s.unloadFail);
      if s1.phase.Idle? then TryDispatch(s1, h) else s1
  }

  function FinishProbes(s: Sched, h: Host): Sched {
    if s.session.skipRest then TryDispatch(EndSession(s), h)
    else if s.session.sawResources then FailOwner(s, h, Resources)
    else if s.session.sawLifecycle then FailOwner(s, h, LifecyclePending)
    else if s.session.needSample != {} then SetPhase(s, Sample)
    else TryDispatch(EndSession(s), h)
  }

  function LaunchProbe(s: Sched, h: Host): Sched {
    var p := NextFresh(s.session.order, s.session.pos, s.session.checked);
    if p < |s.session.order| then BeginProbeAt(s, h, p)
    else FinishProbes(s.(session := s.session.(pos := p)), h)
  }

  /** What a session does with its probe's result. */
  function Conclude(s: Sched, h: Host, n: Note): Sched {
    match n.ack
    case Stale => FailOwner(s, h, Resources)
    case AckBusy =>
      if n.model == s.session.model && StateOf(h, n.model).Starting? then TryDispatch(EndSession(s), h)
      else FailOwner(s, h, LifecyclePending)
    case Applied =>
      var s1 := Absorb(s, n);
      if s1.session.skipRest then TryDispatch(EndSession(s1), h)
      else LaunchProbe(s1.(session := s1.session.(pos := s1.session.pos + 1)), h)
  }

  function NoteProbe(s: Sched, h: Host, n: Note): Sched {
    var s1 := ForgetProbe(s, n.model);
    if n.mode.Late? then NoteLate(s1, h, n)
    else
      var s2 := s1.(book := MarkSeen(s1.book, s1.session.owner, n.model));
      if !s2.phase.Recover? || n.token != s2.session.token then s2
      else Conclude(s2.(session := s2.session.(checked := s2.session.checked + {n.model}, current := None),
                        out := s2.out.(noted := s2.out.noted + {(s2.session.owner, n.model)})), h, n)
  }

  function MarkerCleared(s: Sched, h: Host, m: Model): Sched {
    var s1 := s.(session := s.session.(needSample := s.session.needSample - {m}),
                 unloadFail := s.unloadFail - {m});
    if s1.phase.Sample? && s1.session.needSample == {} then TryDispatch(EndSession(s1), h) else s1
  }

  function SampleFailed(s: Sched, h: Host): Sched {
    if !s.phase.Sample? then s else FailOwner(s, h, NotBooted)
  }
}
