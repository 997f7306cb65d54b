/** What every event of the router keeps, across the scheduler, the ledger and the clients. */
module SystemLaws {
  import opened Types
  import opened Admission
  import opened RuntimeStatus
  import opened Scheduler
  import opened SchedulerLaws
  import opened SchedulerDispatch
  import opened SchedulerHandlers
  import opened SchedulerRecovery
  import opened SchedulerHosts
  import opened SchedulerFrames
  import opened Ledger
  import opened ClientLoop
  import LedgerLaws
  import opened System

  // ---------------------------------------------------------------- the invariant

  ghost predicate ClientsOK(clients: map<Model, Client>, cfg: Budget) {
    && clients.Keys == cfg.models.Keys
    && forall m :: m in clients ==> ClientInv(clients[m]) && !clients[m].state.Shutdown?
  }

  /** Only a stopped model waits for a sample. */
  ghost predicate MarkedOK(clients: map<Model, Client>, marker: map<Model, int>) {
    forall m :: m in marker ==> m in clients && clients[m].state.Stopped?
  }

  predicate StoppingNow(jobs: seq<UnloadJob>, m: Model) {
    |jobs| == 1 && jobs[0].stage.Stopping? && jobs[0].ids == [m]
  }

  /** A client is inside a stop exactly when the unload in flight says so; a confirmed victim is stopped. */
  ghost predicate UnloadsOK(clients: map<Model, Client>, jobs: seq<UnloadJob>) {
    && (forall m :: m in clients ==> (clients[m].stopping <==> StoppingNow(jobs, m)))
    && (forall i, v :: 0 <= i < |jobs| && jobs[i].stage.Confirmed? && v in jobs[i].ids ==>
          v in clients && clients[v].state.Stopped?)
  }

  /** A status read carries a proof only if no call was out when it began. */
  ghost predicate ReadsOK(out: seq<StatusRead>) {
    forall i :: 0 <= i < |out| && out[i].gen != 0 ==> out[i].gen == out[i].grants && out[i].busy == 0
  }

  ghost predicate ServingOK(w: Work, serving: multiset<Model>) {
    forall m :: Get(w.httpIn, m) == serving[m]
  }

  ghost predicate OnceOK(admitted: seq<nat>) {
    forall id :: multiset(admitted)[id] <= 1
  }

  /** What concerns the ledger, the clients and the messages. */
  ghost predicate AroundOK(y: Sys) {
    && LedgerLaws.LedgerOK(y.l) && ClientsOK(y.clients, y.l.cfg) && MarkedOK(y.clients, y.l.marker)
    && UnloadsOK(y.clients, y.s.out.unloads)
    && ReadsOK(y.statuses) && ServingOK(y.s.work, y.serving) && OnceOK(y.s.out.admitted)
    && Awake(y.s)
  }

  ghost predicate CInv(y: Sys) {
    AroundOK(y) && Inv(y.s, HostOf(y, {}))
  }

  // ---------------------------------------------------------------- what the scheduler sees

  lemma HostIsOK(y: Sys, gone: set<nat>)
    requires LedgerLaws.LedgerOK(y.l) && ClientsOK(y.clients, y.l.cfg) && MarkedOK(y.clients, y.l.marker)
    ensures HostOK(HostOf(y, gone))
  {
    var h := HostOf(y, gone);
    hide LedgerLaws.LedgerOK;
    forall t | t in h.decide
      ensures h.decide[t].Evict? && h.decide[t].ids != [] ==>
                |h.decide[t].ids| == 1 && h.decide[t].ids[0] in h.states
                && h.states[h.decide[t].ids[0]].Ready? && !StateOf(h, t).Ready?
      ensures StateOf(h, t).Ready? ==> h.decide[t] == Evict([])
    {
      LedgerLaws.DecideEvicts(y.l, h.states, y.now, t);
      hide Decide;
    }
  }

  /** The loop is about to run a handler: the ledger may have changed what it would decide. */
  lemma Before(y: Sys, y1: Sys, gone: set<nat>)
    requires y1.clients == y.clients && y1.now == y.now
    requires LedgerLaws.LedgerOK(y1.l) && y1.l.cfg == y.l.cfg && y1.l.marker.Keys == y.l.marker.Keys
    requires CInv(y)
    ensures HostOK(HostOf(y1, gone)) && Inv(y.s, HostOf(y1, gone))
  {
    hide Inv, LedgerLaws.LedgerOK, UnloadsOK, ReadsOK, ServingOK, OnceOK;
    assert MarkedOK(y1.clients, y1.l.marker) by { assert forall m :: m in y1.l.marker ==> m in y.l.marker; }
    HostIsOK(y1, gone);
    hide MarkedOK, ClientsOK;
    LaterInv(y.s, HostOf(y, {}), HostOf(y1, gone));
  }

  /** The same when the ledger has not changed. */
  lemma Here(y: Sys, gone: set<nat>)
    requires CInv(y)
    ensures HostOK(HostOf(y, gone)) && Inv(y.s, HostOf(y, gone)) && Awake(y.s)
  {
    hide Inv, LedgerLaws.LedgerOK, HostOf, HostOK, Awake;
    Before(y, y, gone);
  }

  /** The handler has run: nothing it saw depends on the scheduler. */
  lemma Behind(y': Sys, gone: set<nat>)
    requires Inv(y'.s, HostOf(y', gone)) && AroundOK(y')
    ensures CInv(y')
  {
    hide Inv, AroundOK;
    LaterInv(y'.s, HostOf(y', gone), HostOf(y', {}));
  }

  /** At most one unload is in flight, so a new one is alone and has not begun to stop anything. */
  lemma UnloadsKept(y: Sys, s: Sched, r: Sched)
    requires UnloadsOK(y.clients, s.out.unloads) && NewUnload(s, r)
    requires |r.out.unloads| <= 1
    ensures UnloadsOK(y.clients, r.out.unloads)
  {
    if r.out.unloads != s.out.unloads {
      assert s.out.unloads == [] && r.out.unloads[0].stage.Draining?;
    }
  }

  lemma OneUnload(s: Sched, h: Host)
    requires Inv(s, h)
    ensures |s.out.unloads| <= 1 && |s.out.loads| <= 1
    ensures s.out.unloads != [] ==>
              s.phase.Unloading? && |s.out.unloads[0].ids| == 1
              && s.out.unloads[0].ids[0] in h.states
              && s.out.unloads[0].ids == s.swap.evict
    ensures s.out.loads != [] ==> s.phase.Loading? && s.swap.target == Some(s.out.loads[0].model)
  {
    hide WorkInv, QueueInv, TallyInv, GateInv, LateInv, SessionInv, LiveInv, AskInv, SeenInv;
  }

  /** An event that is one handler of the scheduler. */
  lemma HandlerKeeps(y: Sys, y1: Sys, gone: set<nat>, s: Sched, y': Sys)
    requires y1.clients == y.clients && y1.now == y.now
    requires LedgerLaws.LedgerOK(y1.l) && y1.l.cfg == y.l.cfg && y1.l.marker == y.l.marker
    requires y' == y1.(s := y'.s, statuses := y'.statuses, serving := y'.serving)
    requires UnloadsOK(y.clients, s.out.unloads) && NewUnload(s, y'.s)
    requires ReadsOK(y'.statuses) && ServingOK(y'.s.work, y'.serving) && OnceOK(y'.s.out.admitted) && Awake(y'.s)
    requires Inv(y'.s, HostOf(y1, gone))
    requires CInv(y)
    ensures CInv(y') && HostOf(y', gone) == HostOf(y1, gone)
  {
    hide Inv, LedgerLaws.LedgerOK, ReadsOK, ServingOK, OnceOK, NewUnload, UnloadsOK, ClientsOK, MarkedOK;
    assert HostOf(y', gone) == HostOf(y1, gone);
    OneUnload(y'.s, HostOf(y1, gone));
    UnloadsKept(y, s, y'.s);
    Behind(y', gone);
  }

  // ---------------------------------------------------------------- requests and work

  lemma OnceMore(admitted: seq<nat>, id: nat)
    requires OnceOK(admitted) && id !in admitted
    ensures OnceOK(admitted + [id])
  {
  }

  lemma RequestKeeps(y: Sys, req: Req, left: bool, gone: set<nat>)
    requires req.id != 0 && req.id !in y.s.out.admitted
    requires CInv(y)
    ensures var y' := y.(s := OnRequest(y.s, HostOf(y, gone), req, left));
      CInv(y') && Settled(y.s, y'.s, HostOf(y', gone))
  {
    hide Inv, FairAction, Story, Awake, HostOK, HostOf, OnRequest, LedgerLaws.LedgerOK, ClientsOK, MarkedOK, UnloadsOK,
         ReadsOK, OnceOK;
    Before(y, y, gone);
    var h := HostOf(y, gone);
    RequestInv(y.s, h, req, left);
    RequestCalm(y.s, h, req, left);
    OnceMore(y.s.out.admitted, req.id);
    HandlerKeeps(y, y, gone, y.s, y.(s := OnRequest(y.s, h, req, left)));
  }

  /** A handler that only moves the queue and the gates. */
  lemma CalmKeeps(y: Sys, gone: set<nat>, r: Sched)
    requires Calm(y.s, r) && Inv(r, HostOf(y, gone)) && Awake(r)
    requires CInv(y)
    ensures CInv(y.(s := r)) && HostOf(y.(s := r), gone) == HostOf(y, gone)
  {
    hide Inv, HostOf, LedgerLaws.LedgerOK, ClientsOK, MarkedOK, UnloadsOK, ReadsOK, OnceOK, NewUnload;
    HandlerKeeps(y, y, gone, y.s, y.(s := r));
  }

  lemma QueueKeeps(y: Sys, e: Event, gone: set<nat>)
    requires Possible(y, e)
    requires e.Cancel? || e.TimesOut? || e.BackendEnds? || e.Reminder? || e.GrantCancelled?
    requires CInv(y)
    ensures CInv(Next(y, e, gone)) && Settled(y.s, Next(y, e, gone).s, HostOf(Next(y, e, gone), gone))
  {
    hide CInv, FairAction, Story, Awake, HostOK, HostOf, OnCancel, OnQueueTimeout, OnBackendDone, OnRemind,
         OnCancelGranted, Inv;
    Here(y, gone);
    var h := HostOf(y, gone);
    match e
    case Cancel(id) => CancelInv(y.s, h, id); CancelCalm(y.s, h, id); CalmKeeps(y, gone, OnCancel(y.s, h, id));
    case TimesOut(id) =>
      TimeoutInv(y.s, h, id); TimeoutCalm(y.s, h, id); CalmKeeps(y, gone, OnQueueTimeout(y.s, h, id));
    case BackendEnds(m) =>
      BackendDoneInv(y.s, h, m); BackendCalm(y.s, h, m); CalmKeeps(y, gone, OnBackendDone(y.s, h, m));
    case Reminder(i) =>
      RemindInv(y.s, h, i);
      RemindCalm(TakeReminder(y.s, i), h);
      CalmKeeps(y, gone, OnRemind(TakeReminder(y.s, i), h));
    case GrantCancelled(m) =>
      CancelGrantedInv(y.s, h, m);
      CancelGrantedCalm(Ungrant(y.s, m), h, m);
      CalmKeeps(y, gone, OnCancelGranted(Ungrant(y.s, m), h, m));
  }

  /** A call that starts moves from pending to in progress, and is counted as served. */
  lemma ProxyServing(y: Sys, m: Model)
    requires ServingOK(y.s.work, y.serving) && Awake(y.s)
    ensures var r := AfterProxy(y, m); ServingOK(r.s.work, r.serving) && Awake(r.s)
  {
  }

  lemma ProxyRest(y: Sys, m: Model)
    ensures var r := AfterProxy(y, m);
      r.l == y.l && r.clients == y.clients && r.now == y.now && r.statuses == y.statuses
      && r.s.out.unloads == y.s.out.unloads && r.s.out.admitted == y.s.out.admitted
  {
    hide Lower, Bump, Get;
  }

  lemma ProxyAround(y: Sys, m: Model, gone: set<nat>)
    requires AroundOK(y)
    ensures AroundOK(AfterProxy(y, m)) && HostOf(AfterProxy(y, m), gone) == HostOf(y, gone)
  {
    hide LedgerLaws.LedgerOK, ClientsOK, MarkedOK, UnloadsOK, ReadsOK, OnceOK, ServingOK, Awake, HostOf, AfterProxy;
    ProxyServing(y, m);
    ProxyRest(y, m);
    SameHost(y, AfterProxy(y, m), gone);
  }

  lemma ProxyKeeps(y: Sys, m: Model, gone: set<nat>)
    requires m in y.s.out.granted
    requires CInv(y)
    ensures CInv(AfterProxy(y, m))
  {
    hide AroundOK, HostOf, HostOK, Inv;
    var h := HostOf(y, gone);
    Here(y, gone);
    ProxyStartInv(y.s, h, m);
    ProxyAround(y, m, gone);
    Behind(AfterProxy(y, m), gone);
  }

  // ---------------------------------------------------------------- serving and its status reads

  lemma ServeServing(w: Work, serving: multiset<Model>, m: Model)
    requires ServingOK(w, serving) && m in serving
    ensures ServingOK(ServeDone(w, m), serving - multiset{m})
  {
  }

  lemma ServeReads(s: Sched, h: Host, out: seq<StatusRead>, m: Model)
    requires WorkInv(s) && ReadsOK(out)
    ensures ReadsOK(out + [StatusRead(m, Get(s.work.quietGen, m), Get(s.work.dispatchGen, m),
                                      Get(s.work.pending, m) + Get(s.work.httpIn, m))])
  {
    assert QuietOK(s.work, m);
    hide Slots;
  }

  /** The ledger, the calls and the reads after a serve; the handler itself is HandlerKeeps' business. */
  lemma ServeAround(y: Sys, h: Host, m: Model, r: Sched)
    requires ServingOK(y.s.work, y.serving) && m in y.serving && ReadsOK(y.statuses) && OnceOK(y.s.out.admitted)
    requires Inv(r, h) && r == OnServeDone(y.s, h, m)
    ensures ServingOK(r.work, y.serving - multiset{m}) && OnceOK(r.out.admitted) && NewUnload(y.s, r)
    ensures ReadsOK(y.statuses + [StatusRead(m, Get(r.work.quietGen, m), Get(r.work.dispatchGen, m),
                                             Get(r.work.pending, m) + Get(r.work.httpIn, m))])
  {
    assert WorkInv(r);
    hide Inv, OnServeDone, ServeDone, ReadsOK, ServingOK, OnceOK;
    ServeCalm(y.s, h, m);
    ServeServing(y.s.work, y.serving, m);
    ServeReads(r, h, y.statuses, m);
    ServingSame(ServeDone(y.s.work, m), r.work, y.serving - multiset{m});
  }

  lemma AfterServeIs(y: Sys, m: Model, gone: set<nat>)
    ensures var y1 := y.(l := NoteUse(y.l, y.now, m));
      var r := OnServeDone(y.s, HostOf(y1, gone), m);
      AfterServe(y, gone, m)
      == y1.(s := r, serving := y.serving - multiset{m},
             statuses := y.statuses + [StatusRead(m, Get(r.work.quietGen, m), Get(r.work.dispatchGen, m),
                                                  Get(r.work.pending, m) + Get(r.work.httpIn, m))])
  {
    hide OnServeDone, Decide, NoteUse;
    var y1 := y.(l := NoteUse(y.l, y.now, m));
    assert HostOf(y1.(serving := y.serving - multiset{m}), gone) == HostOf(y1, gone);
  }

  lemma UseKeeps(l: Ledger, now: int, m: Model)
    requires LedgerLaws.LedgerOK(l)
    ensures LedgerLaws.LedgerOK(NoteUse(l, now, m)) && NoteUse(l, now, m).cfg == l.cfg
    ensures NoteUse(l, now, m).marker == l.marker
  {
  }

  lemma ServeKeeps(y: Sys, m: Model, gone: set<nat>)
    requires m in y.serving
    requires CInv(y)
    ensures CInv(AfterServe(y, gone, m)) && Settled(y.s, AfterServe(y, gone, m).s, HostOf(AfterServe(y, gone, m), gone))
  {
    hide Inv, FairAction, Story, Awake, HostOf, HostOK, ClientsOK, MarkedOK, UnloadsOK, LedgerLaws.LedgerOK,
         OnServeDone, NewUnload, ReadsOK, ServingOK, NoteUse, OnceOK, AfterServe;
    UseKeeps(y.l, y.now, m);
    var y1 := y.(l := NoteUse(y.l, y.now, m));
    var h := HostOf(y1, gone);
    Before(y, y1, gone);
    ServeDoneInv(y.s, h, m);
    ServeAround(y, h, m, OnServeDone(y.s, h, m));
    AfterServeIs(y, m, gone);
    HandlerKeeps(y, y1, gone, y.s, AfterServe(y, gone, m));
  }

  lemma ServingSame(w: Work, w': Work, serving: multiset<Model>)
    requires ServingOK(w, serving) && w'.httpIn == w.httpIn
    ensures ServingOK(w', serving)
  {
  }

  lemma ReadsRemove(out: seq<StatusRead>, i: nat)
    requires ReadsOK(out) && i < |out|
    ensures ReadsOK(RemoveAt(out, i))
  {
    var r := RemoveAt(out, i);
    assert forall j :: 0 <= j < |r| ==> r[j] == out[if j < i then j else j + 1];
  }

  lemma StatusKeeps(y: Sys, i: nat, count: Option<nat>, gone: set<nat>)
    requires i < |y.statuses|
    requires CInv(y)
    ensures var y' := y.(s := OnStatus(y.s, HostOf(y, gone), y.statuses[i].model, count, y.statuses[i].gen),
                         statuses := RemoveAt(y.statuses, i));
      CInv(y') && Settled(y.s, y'.s, HostOf(y', gone))
  {
    hide Inv, FairAction, Story, Awake, HostOf, HostOK, ClientsOK, MarkedOK, UnloadsOK, LedgerLaws.LedgerOK, OnStatus,
         ReadsOK, ServingOK, OnceOK, RemoveAt, ApplyBackend;
    var h := HostOf(y, gone);
    var m, gen := y.statuses[i].model, y.statuses[i].gen;
    Here(y, gone);
    StatusInv(y.s, h, m, count, gen);
    StatusDigest(y.s, h, m, count, gen);
    ReadsRemove(y.statuses, i);
    var r := OnStatus(y.s, h, m, count, gen);
    ServingSame(y.s.work, r.work, y.serving);
    HandlerKeeps(y, y, gone, y.s, y.(s := r, statuses := RemoveAt(y.statuses, i)));
  }

  // ---------------------------------------------------------------- loads

  lemma LoadLedger(y: Sys, m: Model, fault: Option<Fault>)
    requires LedgerLaws.LedgerOK(y.l)
    ensures var l := LoadReported(y.l, y.now, m, fault);
      LedgerLaws.LedgerOK(l) && l.cfg == y.l.cfg && l.marker == y.l.marker
  {
    hide LedgerLaws.LedgerOK, LoadReported;
    LedgerLaws.ApplyOK(y.l, LedgerLaws.Load(y.now, m, fault));
    LedgerLaws.RaisesOnly(y.l, LedgerLaws.Load(y.now, m, fault));
  }

  lemma LoadKeeps(y: Sys, i: nat, gone: set<nat>)
    requires i < |y.s.out.loads| && y.s.out.loads[i].stage.Answered?
    requires CInv(y)
    ensures var y' := AfterLoad(y, gone, i); CInv(y') && Settled(TakeLoad(y.s, i), y'.s, HostOf(y', gone))
  {
    hide Inv, FairAction, Story, Awake, HostOf, HostOK, ClientsOK, MarkedOK, UnloadsOK, LedgerLaws.LedgerOK,
         LoadReported, OnSwapDone, NewUnload, ReadsOK, ServingOK, OnceOK, RemoveAt;
    var j := y.s.out.loads[i];
    LoadLedger(y, j.model, j.stage.fault);
    var y1 := y.(l := LoadReported(y.l, y.now, j.model, j.stage.fault));
    var h := HostOf(y1, gone);
    Before(y, y1, gone);
    SwapDoneInv(y.s, h, i, j.stage.fault);
    SwapCalm(TakeLoad(y.s, i), h, j.model, j.stage.fault);
    ServingSame(y.s.work, AfterLoad(y, gone, i).s.work, y.serving);
    HandlerKeeps(y, y1, gone, TakeLoad(y.s, i), AfterLoad(y, gone, i));
  }

  lemma GateKeeps(y: Sys, st: States, m: Model)
    requires CInv(y)
    ensures CInv(y.(l := AdmitLoad(y.l, st, y.now, false, m).0))
  {
    hide Inv, HostOK, HostOf, ClientsOK, MarkedOK, UnloadsOK, LedgerLaws.LedgerOK, AdmitLoad, ReadsOK, ServingOK,
         OnceOK;
    LedgerLaws.ApplyOK(y.l, LedgerLaws.Gate(st, y.now, false, m));
    LedgerLaws.RaisesOnly(y.l, LedgerLaws.Gate(st, y.now, false, m));
    var y1 := y.(l := AdmitLoad(y.l, st, y.now, false, m).0);
    Before(y, y1, {});
    Behind(y1, {});
  }

  lemma TickKeeps(y: Sys, now: int)
    requires now >= y.now
    requires CInv(y)
    ensures CInv(y.(now := now))
  {
    hide Inv, ClientsOK, MarkedOK, UnloadsOK, LedgerLaws.LedgerOK, ReadsOK, ServingOK, OnceOK;
    LaterInv(y.s, HostOf(y, {}), HostOf(y.(now := now), {}));
  }

  // ---------------------------------------------------------------- clients

  /** What the scheduler sees of a client that moved. */
  lemma HostMoves(y: Sys, a: Model, c: Client, s: Sched)
    requires a in y.clients
    ensures var h0, h1 := HostOf(y, {}), HostOf(y.(s := s, clients := y.clients[a := c]), {});
      SameBut(h0, h1, a) && h1.markers == h0.markers
  {
    hide Decide;
  }

  lemma ClientAround(y: Sys, a: Model, c: Client, s: Sched)
    requires AroundOK(y) && a in y.clients && UnloadsOK(y.clients[a := c], s.out.unloads)
    requires ClientInv(c) && !c.state.Shutdown? && (a in y.l.marker ==> c.state.Stopped?)
    requires s.work == y.s.work && s.out.admitted == y.s.out.admitted && Awake(s)
    ensures AroundOK(y.(s := s, clients := y.clients[a := c]))
  {
    hide ClientInv, UnloadsOK, LedgerLaws.LedgerOK, ReadsOK, ServingOK, OnceOK;
  }

  /** One client moved; nobody was asking about its model. */
  lemma ClientKeeps(y: Sys, a: Model, c: Client, s: Sched)
    requires a in y.clients
    requires ClientInv(c) && !c.state.Shutdown? && (a in y.l.marker ==> c.state.Stopped?)
    requires a !in y.s.book.started
    requires y.s.phase.Recover? ==> a !in Suspects(HostOf(y, {}), y.s.unloadFail)
    requires s == y.s.(out := y.s.out.(loads := s.out.loads, unloads := s.out.unloads))
    requires |s.out.loads| == |y.s.out.loads| && |s.out.unloads| == |y.s.out.unloads|
    requires forall i :: 0 <= i < |s.out.loads| ==> s.out.loads[i].model == y.s.out.loads[i].model
    requires forall i :: 0 <= i < |s.out.unloads| ==> s.out.unloads[i].ids == y.s.out.unloads[i].ids
    requires UnloadsOK(y.clients[a := c], s.out.unloads)
    requires CInv(y)
    ensures CInv(y.(s := s, clients := y.clients[a := c]))
  {
    hide Inv, Suspects, ClientInv, UnloadsOK, AroundOK, HostOf, SameBut, Awake;
    AwakeNow(y);
    AwakeSame(y.s, s);
    var y' := y.(s := s, clients := y.clients[a := c]);
    ClientAround(y, a, c, s);
    HostMoves(y, a, c, s);
    ClientMovesInv(y.s, HostOf(y, {}), HostOf(y', {}), a);
    JobInv(y.s, HostOf(y', {}), s);
  }

  /** A load in flight is of a model that is neither marked nor being asked about. */
  lemma LoadTarget(y: Sys, i: nat)
    requires i < |y.s.out.loads|
    requires CInv(y)
    ensures y.s.out.loads[i].model !in y.l.marker && y.s.out.loads[i].model !in y.s.book.started
    ensures y.s.phase.Loading? && y.s.out.unloads == []
  {
    hide WorkInv, QueueInv, TallyInv, GateInv, LateInv, SessionInv, LiveInv, AskInv, SeenInv, AroundOK;
  }

  lemma UnloadTarget(y: Sys, i: nat)
    requires i < |y.s.out.unloads|
    requires CInv(y)
    ensures |y.s.out.unloads| == 1 && |y.s.out.unloads[i].ids| == 1 && y.s.out.loads == [] && y.s.phase.Unloading?
    ensures var m := y.s.out.unloads[i].ids[0];
      m in y.clients && m !in y.l.marker && m !in y.s.book.started && y.s.swap.evict == [m]
  {
    hide WorkInv, QueueInv, TallyInv, GateInv, LateInv, SessionInv, LiveInv, AskInv, SeenInv, AroundOK;
  }

  /** A model with an operation in flight is not in doubt. */
  lemma OpTarget(y: Sys, m: Model)
    requires m in y.clients && ClientOf(y, m).op.Some?
    requires CInv(y)
    ensures m !in y.l.marker && m !in y.s.book.started && m !in Suspects(HostOf(y, {}), y.s.unloadFail)
  {
    hide CoreInv, SessionInv, AskInv, SeenInv, TargetInv, CallsInv, LedgerLaws.LedgerOK, UnloadsOK, ReadsOK,
         ServingOK, Decide;
  }

  lemma UnloadsSame(clients: map<Model, Client>, jobs: seq<UnloadJob>, a: Model, c: Client)
    requires UnloadsOK(clients, jobs) && a in clients && c.stopping == clients[a].stopping
    requires clients[a].state.Stopped? && (exists i :: 0 <= i < |jobs| && a in jobs[i].ids) ==> c.state.Stopped?
    ensures UnloadsOK(clients[a := c], jobs)
  {
  }

  lemma EnsureKeeps(y: Sys, i: nat, call: nat)
    requires i < |y.s.out.loads| && y.s.out.loads[i].model in y.clients && !ClientOf(y, y.s.out.loads[i].model).stopping
    requires CInv(y)
    ensures CInv(AfterEnsure(y, i, call))
  {
    hide Inv, HostOf, LedgerLaws.LedgerOK, UnloadsOK, ReadsOK, ServingOK, OnceOK, MarkedOK, StateInv, CallsInv;
    LoadTarget(y, i);
    var m := y.s.out.loads[i].model;
    ClientStep(y.clients[m], Ensure(call));
    UnloadsSame(y.clients, y.s.out.unloads, m, OnReady(y.clients[m], call));
    ClientKeeps(y, m, OnReady(y.clients[m], call), SetLoad(y.s, i, EnsureStage(y.clients[m])));
  }

  lemma ClientFacts(y: Sys, m: Model)
    requires m in y.clients
    requires CInv(y)
    ensures ClientInv(ClientOf(y, m)) && !ClientOf(y, m).state.Shutdown? && UnloadsOK(y.clients, y.s.out.unloads)
  {
    hide Inv, HostOf, LedgerLaws.LedgerOK, UnloadsOK, ReadsOK, ServingOK, OnceOK, MarkedOK, ClientInv;
  }

  lemma OpKeeps(y: Sys, m: Model, fault: Option<Fault>)
    requires m in y.clients && ClientOf(y, m).op.Some? && !ClientOf(y, m).stopping
    requires CInv(y)
    ensures CInv(AfterOp(y, m, fault))
  {
    hide CInv, UnloadsOK, Suspects, CallsInv, HostOf;
    OpTarget(y, m);
    ClientFacts(y, m);
    ClientStep(y.clients[m], OpEnds(fault.None?));
    var c := OnOpDone(y.clients[m], fault.None?);
    UnloadsSame(y.clients, y.s.out.unloads, m, c);
    ClientKeeps(y, m, c, AnswerLoads(y.s, m, fault));
  }

  /** The one job is at its victim's client. */
  lemma JobMoves(clients: map<Model, Client>, job: UnloadJob, a: Model, c: Client, job': UnloadJob)
    requires UnloadsOK(clients, [job]) && a in clients && job.ids == [a] && job'.ids == [a]
    requires c.stopping == job'.stage.Stopping?
    requires job'.stage.Confirmed? ==> c.state.Stopped?
    ensures UnloadsOK(clients[a := c], [job'])
  {
  }

  lemma StopStartsKeeps(y: Sys, i: nat)
    requires UnloadAt(y, i) && y.s.out.unloads[i].stage.Draining? && !ClientOf(y, y.s.out.unloads[i].ids[0]).stopping
    requires CInv(y)
    ensures CInv(AfterStopStarts(y, i))
  {
    hide CInv, UnloadsOK, Suspects, CallsInv, StateInv, HostOf;
    UnloadTarget(y, i);
    var m := y.s.out.unloads[i].ids[0];
    ClientFacts(y, m);
    ClientStep(y.clients[m], StopBegins);
    var c := BeginStop(y.clients[m]);
    var r := SetUnload(y.s, i, UnloadStage.Stopping);
    assert y.s.out.unloads == [y.s.out.unloads[0]] && r.out.unloads == [r.out.unloads[0]];
    JobMoves(y.clients, y.s.out.unloads[0], m, c, r.out.unloads[0]);
    ClientKeeps(y, m, c, r);
  }

  lemma StopReturnsKeeps(y: Sys, i: nat, fault: Option<Fault>)
    requires UnloadAt(y, i) && y.s.out.unloads[i].stage.Stopping?
    requires CInv(y)
    ensures CInv(AfterStopReturns(y, i, fault))
  {
    hide CInv, Suspects, CallsInv, StateInv, HostOf;
    UnloadTarget(y, i);
    var m := y.s.out.unloads[i].ids[0];
    ClientFacts(y, m);
    assert y.clients[m].stopping;
    hide UnloadsOK;
    ClientStep(y.clients[m], StopEnds(fault.None?));
    var c := EndStop(y.clients[m], fault.None?);
    var stage := match fault case None => Confirmed(y.now) case Some(f) => Broken(f);
    var r := AnswerLoads(SetUnload(y.s, i, stage), m, fault);
    assert y.s.out.unloads == [y.s.out.unloads[0]] && r.out.unloads == [r.out.unloads[0]];
    JobMoves(y.clients, y.s.out.unloads[0], m, c, r.out.unloads[0]);
    ClientKeeps(y, m, c, r);
  }

  // ---------------------------------------------------------------- unloads and samples

  /** With no unload left in flight nobody is stopping. */
  lemma NoneStopping(y: Sys, i: nat)
    requires i < |y.s.out.unloads| && !y.s.out.unloads[i].stage.Stopping?
    requires CInv(y)
    ensures UnloadsOK(y.clients, TakeUnload(y.s, i).out.unloads)
  {
    hide Inv, LedgerLaws.LedgerOK, ReadsOK, ServingOK, OnceOK, MarkedOK, ClientsOK, HostOf;
    UnloadTarget(y, i);
    assert TakeUnload(y.s, i).out.unloads == [];
  }

  lemma UnloadFailsKeeps(y: Sys, i: nat, error: Fault, gone: set<nat>)
    requires i < |y.s.out.unloads| && !y.s.out.unloads[i].stage.Stopping?
    requires CInv(y)
    ensures var y' := y.(s := OnUnloadDone(TakeUnload(y.s, i), HostOf(y, gone), Some(error)));
      CInv(y') && Settled(TakeUnload(y.s, i), y'.s, HostOf(y', gone))
      && Story(FailUnload(TakeUnload(y.s, i), error), y'.s, HostOf(y', gone))
  {
    hide Inv, FairAction, Story, Awake, HostOf, HostOK, LedgerLaws.LedgerOK, ReadsOK, ServingOK, OnceOK, MarkedOK,
         ClientsOK, UnloadsOK, OnUnloadDone, RemoveAt, FailUnload;
    var h := HostOf(y, gone);
    Here(y, gone);
    UnloadDoneInv(y.s, h, i, Some(error));
    UnloadCalm(TakeUnload(y.s, i), h, Some(error));
    NoneStopping(y, i);
    var r := OnUnloadDone(TakeUnload(y.s, i), h, Some(error));
    ServingSame(y.s.work, r.work, y.serving);
    HandlerKeeps(y, y, gone, TakeUnload(y.s, i), y.(s := r));
  }

  /** A model being asked about is in doubt: unmarked, at rest, and no victim of the unload in flight. */
  lemma LiveProbe(y: Sys, i: nat)
    requires i < |y.s.out.probes|
    requires CInv(y)
    ensures var p := y.s.out.probes[i];
      && p.model in y.clients && ClientOf(y, p.model).op.None? && !ClientOf(y, p.model).stopping
      && p.gen == ClientOf(y, p.model).gen
      && p.model !in y.l.marker && y.s.book.started == map[p.model := p.token]
      && y.s.out.probes == [p]
      && (forall j :: 0 <= j < |y.s.out.unloads| ==> p.model !in y.s.out.unloads[j].ids)
  {
    hide WorkInv, QueueInv, TallyInv, GateInv, LateInv, SessionInv, AskInv, SeenInv, ReadsOK, ServingOK, OnceOK,
         ClientInv, LedgerLaws.LedgerOK, Decide;
  }

  /** A sample is not about a model being asked about. */
  lemma NotAskedAbout(y: Sys)
    requires CInv(y)
    ensures forall m :: m in y.s.book.started ==> m !in y.l.marker
  {
    hide CoreInv, SessionInv, AskInv, SeenInv, TargetInv, AroundOK, Decide;
  }

  lemma SampleHost(y: Sys, l: Ledger, gone: set<nat>, order: seq<Model>)
    requires l.cfg == y.l.cfg && l.marker.Keys == y.l.marker.Keys - Elements(order)
    requires InSession(y.s) ==> Elements(order) <= y.l.marker.Keys
    requires forall m :: m in y.s.book.started ==> m !in Elements(order)
    requires LedgerLaws.LedgerOK(l)
    requires CInv(y)
    ensures Cleared(y.s, HostOf(y, gone), HostOf(y.(l := l), gone), Elements(order))
    ensures HostOK(HostOf(y.(l := l), gone)) && MarkedOK(y.clients, l.marker)
  {
    hide Inv, LedgerLaws.LedgerOK, Decide, HostOK, ClientInv, ReadsOK, ServingOK, OnceOK, UnloadsOK;
    assert forall m :: m in l.marker ==> m in y.l.marker;
    HostIsOK(y.(l := l), gone);
  }

  /** Markers go, and the scheduler is told. */
  lemma ClearKeeps(y: Sys, l: Ledger, gone: set<nat>, order: seq<Model>)
    requires l.cfg == y.l.cfg && l.marker.Keys == y.l.marker.Keys - Elements(order) && Distinct(order)
    requires InSession(y.s) ==> Elements(order) <= y.l.marker.Keys
    requires forall m :: m in y.s.book.started ==> m !in Elements(order)
    requires LedgerLaws.LedgerOK(l)
    requires CInv(y)
    ensures var y' := y.(l := l, s := ClearMarkers(y.s, HostOf(y.(l := l), gone), order));
      CInv(y') && Settled(y.s, y'.s, HostOf(y', gone))
    ensures y.s.phase.Sample? ==> y.s.session.needSample != {} && Elements(order) <= y.s.session.needSample
  {
    hide CoreInv, FairAction, Story, Awake, HostOf, HostOK, LedgerLaws.LedgerOK, ReadsOK, ServingOK, OnceOK, MarkedOK,
         ClientsOK, UnloadsOK, Cleared, LiveInv, AskInv, SeenInv, TargetInv;
    Here(y, gone);
    var h := HostOf(y.(l := l), gone);
    SampleHost(y, l, gone, order);
    NeedsAreMarkers(y);
    ClearMarkersInv(y.s, HostOf(y, gone), h, order);
    ClearMarkersCalm(y.s, h, order);
    ClearAround(y, l, ClearMarkers(y.s, h, order), Elements(order), h);
    ClearBehind(y, l, ClearMarkers(y.s, h, order), gone);
  }

  lemma NeedsAreMarkers(y: Sys)
    requires CInv(y)
    ensures InSession(y.s) ==> y.s.session.needSample == y.l.marker.Keys
    ensures y.s.phase.Sample? ==> y.s.session.needSample != {}
  {
    hide CoreInv, LiveInv, AskInv, SeenInv, TargetInv, AroundOK, Decide;
  }

  lemma ClearAround(y: Sys, l: Ledger, r: Sched, cleared: set<Model>, h: Host)
    requires AroundOK(y) && LedgerLaws.LedgerOK(l) && l.cfg == y.l.cfg && MarkedOK(y.clients, l.marker)
    requires Calm(y.s.(unloadFail := y.s.unloadFail - cleared), r) && Inv(r, h) && Awake(r)
    ensures AroundOK(y.(l := l, s := r))
  {
    hide LedgerLaws.LedgerOK, ReadsOK, OnceOK, MarkedOK, ClientsOK, UnloadsOK, Inv, ServingOK;
    OneUnload(r, h);
    UnloadsKept(y, y.s, r);
    ServingSame(y.s.work, r.work, y.serving);
  }

  lemma ClearBehind(y: Sys, l: Ledger, r: Sched, gone: set<nat>)
    requires Inv(r, HostOf(y.(l := l), gone)) && AroundOK(y.(l := l, s := r))
    ensures CInv(y.(l := l, s := r)) && HostOf(y.(l := l, s := r), gone) == HostOf(y.(l := l), gone)
  {
    hide Inv, AroundOK, Decide;
    assert HostOf(y.(l := l), gone) == HostOf(y.(l := l, s := r), gone);
    Behind(y.(l := l, s := r), gone);
  }

  lemma ObservesKeeps(y: Sys, sample: Snapshot, order: seq<Model>, gone: set<nat>)
    requires Usable(y.l.cfg, sample) ==> Lists(order, ClearedBy(y.l.marker, sample))
    requires CInv(y)
    ensures CInv(AfterSample(y, gone, sample, order))
    ensures Settled(y.s, AfterSample(y, gone, sample, order).s, HostOf(AfterSample(y, gone, sample, order), gone))
  {
    hide Inv, FairAction, Story, Awake, HostOf, HostOK, LedgerLaws.LedgerOK, ReadsOK, ServingOK, OnceOK, MarkedOK,
         ClientsOK, UnloadsOK, SampleFailed;
    var l := Observe(y.l, sample);
    LedgerLaws.ObserveOK(y.l, sample);
    if Usable(y.l.cfg, sample) {
      NotAskedAbout(y);
      assert Elements(order) <= y.l.marker.Keys;
      ClearKeeps(y, l, gone, order);
    } else {
      var h := HostOf(y.(l := l), gone);
      Before(y, y.(l := l), gone);
      SampleFailedInv(y.s, h);
      SampleFailedCalm(y.s, h);
      var r := SampleFailed(y.s, h);
      ServingSame(y.s.work, r.work, y.serving);
      HandlerKeeps(y, y.(l := l), gone, y.s, y.(l := l, s := r));
    }
  }

  /** The victim's own marker is set and cleared by the same report. */
  lemma ReportedMarkers(l: Ledger, v: Model, at: int, sample: Snapshot, order: seq<Model>)
    requires Usable(l.cfg, sample) && sample.at > at
    requires Lists(order, ClearedBy(MarkAll(l, [v], at).marker, sample))
    ensures UnloadReported(l, [v], at, sample).marker.Keys == l.marker.Keys - Elements(order)
    ensures Elements(order) <= l.marker.Keys + {v} && v in Elements(order)
  {
  }

  lemma TakeClears(s: Sched, h: Host, i: nat, order: seq<Model>)
    requires s.phase.Unloading? && i < |s.out.unloads| && Distinct(order)
    ensures ClearMarkers(s, h, order) == Unmarked(s, Elements(order))
    ensures TakeUnload(ClearMarkers(s, h, order), i) == ClearMarkers(TakeUnload(s, i), h, order)
  {
    hide TryDispatch;
    ClearMarkersOrder(s, h, order);
    ClearMarkersOrder(TakeUnload(s, i), h, order);
  }

  /** The handler runs on a system whose markers have already been cleared. */
  lemma UnloadEnds(y: Sys, i: nat, gone: set<nat>)
    requires i < |y.s.out.unloads| && !y.s.out.unloads[i].stage.Stopping?
    requires CInv(y)
    ensures var y' := y.(s := OnUnloadDone(TakeUnload(y.s, i), HostOf(y, gone), None));
      CInv(y') && Settled(TakeUnload(y.s, i), y'.s, HostOf(y', gone))
  {
    hide Inv, FairAction, Story, Awake, HostOf, HostOK, LedgerLaws.LedgerOK, ReadsOK, ServingOK, OnceOK, MarkedOK,
         ClientsOK, UnloadsOK, OnUnloadDone, RemoveAt;
    var h := HostOf(y, gone);
    Here(y, gone);
    UnloadDoneInv(y.s, h, i, None);
    UnloadCalm(TakeUnload(y.s, i), h, None);
    NoneStopping(y, i);
    var r := OnUnloadDone(TakeUnload(y.s, i), h, None);
    ServingSame(y.s.work, r.work, y.serving);
    HandlerKeeps(y, y, gone, TakeUnload(y.s, i), y.(s := r));
  }

  lemma UnloadReturnsKeeps(y: Sys, i: nat, sample: Snapshot, order: seq<Model>, gone: set<nat>)
    requires i < |y.s.out.unloads| && y.s.out.unloads[i].stage.Confirmed?
    requires Usable(y.l.cfg, sample) && sample.at > y.s.out.unloads[i].stage.at
    requires Lists(order, ClearedBy(MarkAll(y.l, y.s.out.unloads[i].ids, y.s.out.unloads[i].stage.at).marker, sample))
    requires CInv(y)
    ensures var y' := AfterUnload(y, gone, i, sample, order);
      CInv(y') && Settled(TakeUnload(y.s, i), y'.s, HostOf(y', gone))
  {
    hide CInv, FairAction, Story, Awake, HostOf, UnloadReported, LedgerLaws.LedgerOK, MarkAll, OnUnloadDone, RemoveAt,
         ClearMarkers, Usable, Cleared;
    ReportFacts(y, i, sample, order);
    var j := y.s.out.unloads[i];
    var l := UnloadReported(y.l, j.ids, j.stage.at, sample);
    ClearKeeps(y, l, gone, order);
    var h := HostOf(y.(l := l), gone);
    var y1 := y.(l := l, s := ClearMarkers(y.s, h, order));
    TakeClears(y.s, h, i, order);
    UnloadEnds(y1, i, gone);
    SameHost(y.(l := l), y1, gone);
    StorySame(TakeUnload(y.s, i), TakeUnload(y1.s, i), HostOf(AfterUnload(y, gone, i, sample, order), gone));
    SettledFrom(TakeUnload(y.s, i), TakeUnload(y1.s, i), AfterUnload(y, gone, i, sample, order).s,
                HostOf(AfterUnload(y, gone, i, sample, order), gone));
  }

  lemma ReportFacts(y: Sys, i: nat, sample: Snapshot, order: seq<Model>)
    requires i < |y.s.out.unloads| && y.s.out.unloads[i].stage.Confirmed?
    requires Usable(y.l.cfg, sample) && sample.at > y.s.out.unloads[i].stage.at
    requires Lists(order, ClearedBy(MarkAll(y.l, y.s.out.unloads[i].ids, y.s.out.unloads[i].stage.at).marker, sample))
    requires CInv(y)
    ensures var l := UnloadReported(y.l, y.s.out.unloads[i].ids, y.s.out.unloads[i].stage.at, sample);
      && LedgerLaws.LedgerOK(l) && l.cfg == y.l.cfg && l.marker.Keys == y.l.marker.Keys - Elements(order)
    ensures Distinct(order) && y.s.phase.Unloading? && forall v :: v in y.s.out.unloads[i].ids ==> v in Elements(order)
    ensures forall m :: m in y.s.book.started ==> m !in Elements(order)
  {
    hide CInv, UnloadReported, LedgerLaws.LedgerOK, MarkAll, Usable, ClearedBy;
    var j := y.s.out.unloads[i];
    UnloadTarget(y, i);
    assert j.ids == [j.ids[0]];
    ReportedMarkers(y.l, j.ids[0], j.stage.at, sample, order);
    NotAskedAbout(y);
    UnloadLedger(y, j.ids[0], j.stage.at, sample);
  }

  lemma SameHost(y: Sys, y1: Sys, gone: set<nat>)
    requires y1.l == y.l && y1.clients == y.clients && y1.now == y.now
    ensures HostOf(y1, gone) == HostOf(y, gone)
  {
    hide Decide;
  }

  lemma UnloadLedger(y: Sys, v: Model, at: int, sample: Snapshot)
    requires v in y.clients
    requires CInv(y)
    ensures var l := UnloadReported(y.l, [v], at, sample);
      LedgerLaws.LedgerOK(l) && l.cfg == y.l.cfg
  {
    hide Inv, LedgerLaws.LedgerOK, UnloadReported, HostOf, UnloadsOK, ReadsOK, ServingOK, OnceOK, MarkedOK;
    LedgerLaws.ApplyOK(y.l, LedgerLaws.Unload([v], at, sample));
  }

  // ---------------------------------------------------------------- recovery results

  /** The result of a probe in flight. */
  ghost predicate ResultFor(p: Probe, ev: Result) {
    && ev.token == p.token && ev.model == p.model && ev.gen == p.gen && ev.proof == p.proof
    && (!ev.kind.NoErr? ==> ev.rec.RecInvalid?)
  }

  /**
   Before shutdown the client is never found busy or changed by a result that is not
   dropped: it applies whatever it is asked to.
   */
  lemma ResultsAreApplied(y: Sys, i: nat, ev: Result)
    requires i < |y.s.out.probes| && ResultFor(y.s.out.probes[i], ev)
    requires CInv(y)
    ensures ev.model in y.clients && AskClient(ClientOf(y, ev.model), ev).1.Applied?
  {
    hide CInv, ClientInv, UnloadsOK;
    LiveProbe(y, i);
    ClientFacts(y, ev.model);
  }

  /** What the client is after the result. */
  lemma AskedClient(c: Client, ev: Result)
    requires ClientInv(c) && !c.stopping && !c.state.Shutdown? && c.op.None? && ev.gen == c.gen
    ensures var (r, ack) := AskClient(c, ev);
      && ClientInv(r) && !r.state.Shutdown? && r.op.None? && !r.stopping && ack.Applied?
      && (CallsClient(ev) && (ev.rec.UnloadedIdle? || ev.rec.FailedNotResidentIdle?) ==> r.state.Stopped?)
      && (CallsClient(ev) && ev.rec.ReadyIdle? ==> r.state.Ready?)
  {
    hide ClientInv;
    ClientStep(c, Recovery(ev.gen, ev.rec));
  }

  lemma LedgerAfter(l: Ledger, now: int, ev: Result)
    requires LedgerLaws.LedgerOK(l) && ev.model in l.cfg.models
    ensures var r := Recovered(l, now, ev, Applied);
      && LedgerLaws.LedgerOK(r) && r.cfg == l.cfg
      && (forall m :: m != ev.model ==> (m in r.marker <==> m in l.marker))
      && (ev.model in r.marker <==>
            if CallsClient(ev) && ev.rec.ReadyIdle? then false
            else if CallsClient(ev) && (ev.rec.UnloadedIdle? || ev.rec.FailedNotResidentIdle?) then true
            else ev.model in l.marker)
  {
    hide LedgerLaws.LedgerOK;
    LedgerLaws.RecoveredOK(l, now, ev, Applied);
    LedgerLaws.RecoveredRaises(l, now, ev, Applied);
    hide EnsurePeak;
  }

  lemma DigestedAround(y: Sys, i: nat, ev: Result)
    requires i < |y.s.out.probes| && ResultFor(y.s.out.probes[i], ev)
    requires CInv(y)
    ensures ev.model in y.clients && AroundOK(Digested(y, ev))
    ensures Digested(y, ev).l.cfg == y.l.cfg
  {
    hide Inv, LedgerLaws.LedgerOK, ClientInv, ReadsOK, ServingOK, OnceOK, UnloadsOK, Recovered, OnApply, HostOf;
    LiveProbe(y, i);
    ClientFacts(y, ev.model);
    AskedClient(y.clients[ev.model], ev);
    LedgerAfter(y.l, y.now, ev);
    UnloadsSame(y.clients, y.s.out.unloads, ev.model, AskClient(y.clients[ev.model], ev).0);
  }

  /** What the scheduler sees when one client and one marker changed. */
  lemma HostDigests(y: Sys, a: Model, c: Client, l: Ledger, gone: set<nat>)
    requires a in y.clients && c.op == ClientOf(y, a).op
    requires forall m :: m != a ==> (m in l.marker <==> m in y.l.marker)
    ensures SameBut(HostOf(y, gone), HostOf(y.(clients := y.clients[a := c], l := l), gone), a)
  {
    hide Decide;
  }

  lemma DigestedHost(y: Sys, i: nat, ev: Result, mode: Mode, gone: set<nat>)
    requires i < |y.s.out.probes| && ResultFor(y.s.out.probes[i], ev) && ev.model in y.clients
    requires CInv(y)
    ensures var h0, h1 := HostOf(y, gone), HostOf(Digested(y, ev), gone);
      SameBut(h0, h1, ev.model) && MarkerFollows(h0, h1, NoteOf(ev, mode, Applied))
  {
    hide CInv, ClientInv, LedgerLaws.LedgerOK, Recovered, AskClient, Decide, SameBut, ResultFor;
    LedgerFacts(y);
    AskedAbout(y, i, ev);
    LedgerAfter(y.l, y.now, ev);
    HostDigests(y, ev.model, AskClient(y.clients[ev.model], ev).0, Digested(y, ev).l, gone);
  }

  lemma LedgerFacts(y: Sys)
    requires CInv(y)
    ensures LedgerLaws.LedgerOK(y.l) && y.clients.Keys == y.l.cfg.models.Keys
  {
    hide Inv, LedgerLaws.LedgerOK, ClientInv, ReadsOK, ServingOK, OnceOK, UnloadsOK, HostOf;
  }

  lemma AskedAbout(y: Sys, i: nat, ev: Result)
    requires i < |y.s.out.probes| && ResultFor(y.s.out.probes[i], ev) && ev.model in y.clients
    requires CInv(y)
    ensures AskClient(ClientOf(y, ev.model), ev).1.Applied?
    ensures AskClient(ClientOf(y, ev.model), ev).0.op == ClientOf(y, ev.model).op
    ensures CallsClient(ev) && ev.rec.ReadyIdle? ==> AskClient(ClientOf(y, ev.model), ev).0.state.Ready?
  {
    hide CInv;
    LiveProbe(y, i);
    ClientFacts(y, ev.model);
    AskedClient(y.clients[ev.model], ev);
  }

  lemma ProbeInv(y: Sys, i: nat, ev: Result, mode: Mode, gone: set<nat>)
    requires i < |y.s.out.probes| && ResultFor(y.s.out.probes[i], ev) && ev.model in y.clients
    requires mode == RecoverMode(y.s, ev.token) && !mode.Drop?
    requires CInv(y)
    ensures var h := HostOf(Digested(y, ev), gone);
      var r := NoteProbe(TakeProbe(y.s, i), h, NoteOf(ev, mode, Applied));
      && Inv(r, h) && FairAction(y.s, r, h) && Awake(r)
      && Story(if mode.Late? then y.s else Absorb(Noted(y.s, i), NoteOf(ev, mode, Applied)), r, h)
  {
    hide Inv, FairAction, Story, Awake, AroundOK, HostOf, HostOK, NoteProbe, Digested, TakeProbe;
    Here(y, gone);
    DigestedAround(y, i, ev);
    DigestedHost(y, i, ev, mode, gone);
    var h0, h1 := HostOf(y, gone), HostOf(Digested(y, ev), gone);
    AroundHost(Digested(y, ev), gone);
    if mode.Late? {
      LateInvKept(y.s, h0, h1, i, NoteOf(ev, mode, Applied));
    } else {
      NoteCurrentInv(y.s, h0, h1, i, NoteOf(ev, mode, Applied));
    }
  }

  lemma AroundHost(y: Sys, gone: set<nat>)
    requires AroundOK(y)
    ensures HostOK(HostOf(y, gone))
  {
    hide LedgerLaws.LedgerOK, ClientsOK, MarkedOK, ReadsOK, ServingOK, OnceOK, UnloadsOK, HostOf, HostOK;
    HostIsOK(y, gone);
  }

  lemma NotedAround(y: Sys, s: Sched, r: Sched, n: Note, h: Host)
    requires AroundOK(y) && Digest(s, r, n) && s.work == y.s.work && s.out.admitted == y.s.out.admitted
    requires s.out.unloads == y.s.out.unloads && Inv(r, h) && Awake(r)
    ensures AroundOK(y.(s := r))
  {
    hide Inv, LedgerLaws.LedgerOK, ClientsOK, MarkedOK, ReadsOK, ServingOK, OnceOK, UnloadsOK, ApplyBackend;
    OneUnload(r, h);
    UnloadsKept(y, y.s, r);
    ServingSame(y.s.work, r.work, y.serving);
  }

  /** The session as the result leaves it, before it carries on. */
  function ResultBase(s: Sched, i: nat, ev: Result): Sched {
    if RecoverMode(s, ev.token).Current? then Absorb(Noted(s, i), NoteOf(ev, Current, Applied)) else s
  }

  lemma ProbeKeeps(y: Sys, i: nat, ev: Result, gone: set<nat>)
    requires i < |y.s.out.probes| && ResultFor(y.s.out.probes[i], ev) && ev.model in y.clients
    requires CInv(y)
    ensures CInv(AfterProbe(y, gone, i, ev))
    ensures FairAction(y.s, AfterProbe(y, gone, i, ev).s, HostOf(AfterProbe(y, gone, i, ev), gone))
    ensures Story(ResultBase(y.s, i, ev), AfterProbe(y, gone, i, ev).s, HostOf(AfterProbe(y, gone, i, ev), gone))
  {
    hide CInv, FairAction, Story, Awake, AroundOK, HostOf, HostOK, NoteProbe, Digested, Inv, Digest, ResultFor,
         RecoverMode, NoteOf;
    var mode := RecoverMode(y.s, ev.token);
    if mode.Drop? {
      DropKeeps(y, i, ev, gone);
      ReturnedJobs(y.s, i);
      Here(y, gone);
      FairStill(y.s, Returned(y.s, i), HostOf(AfterProbe(y, gone, i, ev), gone));
      assert y.s == ResultBase(y.s, i, ev);
    } else {
      ResultsAreApplied(y, i, ev);
      ProbeInv(y, i, ev, mode, gone);
      DigestedAround(y, i, ev);
      var y1 := Digested(y, ev);
      var h := HostOf(y1, gone);
      var n := NoteOf(ev, mode, Applied);
      var r := NoteProbe(TakeProbe(y.s, i), h, n);
      NoteDigest(TakeProbe(y.s, i), h, n);
      DigestedSame(y, ev);
      NotedAround(y1, TakeProbe(y.s, i), r, n, h);
      SameHost(y1, y1.(s := r), gone);
      Behind(y1.(s := r), gone);
    }
  }

  lemma DigestedSame(y: Sys, ev: Result)
    requires ev.model in y.clients
    ensures Digested(y, ev).s == y.s
  {
  }

  lemma ReturnedJobs(s: Sched, i: nat)
    requires i < |s.out.probes|
    ensures Returned(s, i).out.loads == s.out.loads && Returned(s, i).out.unloads == s.out.unloads
    ensures Awake(s) ==> Awake(Returned(s, i))
    ensures forall h :: Story(s, Returned(s, i), h)
  {
    var r := Returned(s, i);
    if Awake(s) { AwakeSame(s, r); }
    forall h ensures Story(s, r, h) { StorySame(s, r, h); }
  }

  lemma DropKeeps(y: Sys, i: nat, ev: Result, gone: set<nat>)
    requires i < |y.s.out.probes| && ResultFor(y.s.out.probes[i], ev) && RecoverMode(y.s, ev.token).Drop?
    requires CInv(y)
    ensures CInv(y.(s := Returned(y.s, i)))
  {
    hide Inv, LedgerLaws.LedgerOK, ClientsOK, MarkedOK, ReadsOK, ServingOK, OnceOK, UnloadsOK, HostOf, RecoverMode,
         RemoveAt;
    DropInv(y.s, HostOf(y, {}), i);
    SameHost(y, y.(s := Returned(y.s, i)), {});
  }

  // ---------------------------------------------------------------- every event, every run

  /** The events inside a client, which start nothing. */
  predicate AtClient(e: Event) {
    e.EnsureCalled? || e.OpReturns? || e.StopStarts? || e.StopReturns?
  }

  /** The event brings a result about the model. */
  ghost predicate Asks(y: Sys, e: Event, m: Model) {
    e.ProbeReturns? && e.i < |y.s.out.probes| && y.s.out.probes[e.i].model == m
  }

  /** The result that comes back is dropped, or says nothing. */
  ghost predicate SaysNothing(y: Sys, e: Event) {
    && e.ProbeReturns? && e.i < |y.s.out.probes|
    && (RecoverMode(y.s, y.s.out.probes[e.i].token).Drop? || e.kind.EndpointDown?)
  }

  /** The jobs in flight once the event's own report is taken. */
  ghost function Taken(y: Sys, e: Event): Sched {
    if !Possible(y, e) then y.s
    else
      match e
      case LoadReturns(i) => TakeLoad(y.s, i)
      case UnloadFails(i, _) => TakeUnload(y.s, i)
      case UnloadReturns(i, _, _) => TakeUnload(y.s, i)
      case _ => y.s
  }

  /** Where the head's story picks up: after what the event itself tells the session. */
  ghost function StoryBase(y: Sys, e: Event): Sched {
    if !Possible(y, e) then y.s
    else
      match e
      case ProbeReturns(i, kind, rec, active, at) =>
        ResultBase(y.s, i, ResultOf(y.s.out.probes[i], kind, rec, active, at))
      case UnloadFails(i, error) => FailUnload(TakeUnload(y.s, i), error)
      case _ => Taken(y, e)
  }

  /** What an event starts, it starts on evidence read while it was handled; and the head's story goes on. */
  ghost predicate FairStep(y: Sys, e: Event, r: Sys, gone: set<nat>) {
    if AtClient(e) then |r.s.out.loads| == |y.s.out.loads| && |r.s.out.unloads| == |y.s.out.unloads|
    else FairAction(Taken(y, e), r.s, HostOf(r, gone)) && Story(StoryBase(y, e), r.s, HostOf(r, gone))
  }

  lemma ProxyJobs(y: Sys, m: Model)
    ensures AfterProxy(y, m).s.out.loads == y.s.out.loads && AfterProxy(y, m).s.out.unloads == y.s.out.unloads
    ensures forall h :: Story(y.s, AfterProxy(y, m).s, h)
  {
    forall h ensures Story(y.s, AfterProxy(y, m).s, h) { StorySame(y.s, AfterProxy(y, m).s, h); }
  }

  lemma AwakeNow(y: Sys)
    requires CInv(y)
    ensures Awake(y.s)
  {
    hide Inv, HostOf, LedgerLaws.LedgerOK, ClientsOK, MarkedOK, UnloadsOK, ReadsOK, ServingOK, OnceOK, Awake;
  }

  lemma ClientJobs(y: Sys, e: Event, gone: set<nat>)
    requires Possible(y, e) && AtClient(e)
    ensures FairStep(y, e, Next(y, e, gone), gone)
  {
    hide OnReady, OnOpDone, BeginStop, EndStop, HostOf, Taken;
  }

  lemma ClientKeepsAll(y: Sys, e: Event, gone: set<nat>)
    requires Possible(y, e) && AtClient(e)
    requires CInv(y)
    ensures CInv(Next(y, e, gone)) && FairStep(y, e, Next(y, e, gone), gone)
  {
    hide CInv, FairStep, AfterEnsure, AfterOp, AfterStopStarts, AfterStopReturns, HostOf;
    ClientJobs(y, e, gone);
    match e
    case EnsureCalled(i, call) => EnsureKeeps(y, i, call);
    case OpReturns(m, fault) => OpKeeps(y, m, fault);
    case StopStarts(i) => StopStartsKeeps(y, i);
    case StopReturns(i, fault) => StopReturnsKeeps(y, i, fault);
  }

  /** The events that leave the scheduler's jobs alone. */
  lemma StillKeepsAll(y: Sys, e: Event, gone: set<nat>)
    requires Possible(y, e) && (e.ProxyStarts? || e.GateAsked? || e.Tick?)
    requires CInv(y)
    ensures CInv(Next(y, e, gone)) && FairStep(y, e, Next(y, e, gone), gone)
  {
    hide CInv, FairAction, Story, Awake, AfterProxy, HostOf, AdmitLoad;
    AwakeNow(y);
    match e
    case ProxyStarts(m) =>
      ProxyKeeps(y, m, gone);
      ProxyJobs(y, m);
      AwakeNow(AfterProxy(y, m));
      FairStill(y.s, AfterProxy(y, m).s, HostOf(AfterProxy(y, m), gone));
    case GateAsked(m) =>
      GateKeeps(y, StatesOf(y.clients), m);
      HostStates(y, gone);
      StorySame(y.s, y.s, HostOf(Next(y, e, gone), gone));
      FairStill(y.s, y.s, HostOf(Next(y, e, gone), gone));
    case Tick(now) =>
      TickKeeps(y, now);
      StorySame(y.s, y.s, HostOf(Next(y, e, gone), gone));
      FairStill(y.s, y.s, HostOf(Next(y, e, gone), gone));
  }

  lemma HostStates(y: Sys, gone: set<nat>)
    ensures HostOf(y, gone).states == StatesOf(y.clients)
  {
    hide Decide;
  }

  /** Every event keeps the invariant, and starts loads and unloads on evidence only. */
  lemma Keeps(y: Sys, e: Event, gone: set<nat>)
    requires Possible(y, e)
    requires CInv(y)
    ensures CInv(Next(y, e, gone)) && FairStep(y, e, Next(y, e, gone), gone)
  {
    hide CInv, FairAction, Story, Awake, AfterServe, AfterProxy, AfterLoad, AfterUnload, AfterSample, AfterProbe,
         AfterEnsure, AfterOp, AfterStopStarts, AfterStopReturns, OnRequest, OnStatus, OnUnloadDone, HostOf, AdmitLoad,
         MarkAll, ClearedBy, Usable, Lists, FailUnload;
    if AtClient(e) {
      ClientKeepsAll(y, e, gone);
    } else if e.ProxyStarts? || e.GateAsked? || e.Tick? {
      StillKeepsAll(y, e, gone);
    } else {
      match e
      case Request(req, left) => RequestKeeps(y, req, left, gone);
      case ServeEnds(m) => ServeKeeps(y, m, gone);
      case StatusReturns(i, count) => StatusKeeps(y, i, count, gone);
      case LoadReturns(i) => LoadKeeps(y, i, gone);
      case UnloadFails(i, error) => UnloadFailsKeeps(y, i, error, gone);
      case UnloadReturns(i, sample, order) => UnloadReturnsKeeps(y, i, sample, order, gone);
      case Observes(sample, order) => ObservesKeeps(y, sample, order, gone);
      case ProbeReturns(i, kind, rec, active, at) =>
        ProbeKeeps(y, i, ResultOf(y.s.out.probes[i], kind, rec, active, at), gone);
      case _ => QueueKeeps(y, e, gone);
    }
  }

  /** A client just reconciled at boot. */
  lemma BootClient(c: Client)
    requires Booted(c)
    ensures ClientInv(c) && !c.state.Shutdown? && !c.stopping
  {
    hide OnReconcile, OnOpDone, StateInv, CallsInv;
    if wire: Option<Wire> :| c == OnReconcile(NEW_CLIENT, wire) {
      FirstReconcile(wire);
    } else {
      FirstReconcile(Some(WireLoading));
      var ok: bool :| c == OnOpDone(OnReconcile(NEW_CLIENT, Some(WireLoading)), ok);
      FirstLoad(OnReconcile(NEW_CLIENT, Some(WireLoading)), ok);
    }
  }

  lemma FirstReconcile(wire: Option<Wire>)
    ensures var c := OnReconcile(NEW_CLIENT, wire);
      ClientInv(c) && !c.state.Shutdown? && !c.stopping && (wire == Some(WireLoading) ==> c.op.Some?)
  {
    hide StateInv, CallsInv;
    NewClient();
    ReconcileKeepsExactly(NEW_CLIENT, wire);
  }

  lemma NewClient()
    ensures ClientInv(NEW_CLIENT)
  {
  }

  lemma FirstLoad(c: Client, ok: bool)
    requires ClientInv(c) && c.op.Some? && !c.stopping && !c.state.Shutdown?
    ensures var r := OnOpDone(c, ok); ClientInv(r) && !r.state.Shutdown? && !r.stopping
  {
    ClientStep(c, OpEnds(ok));
    hide StateInv, CallsInv;
  }

  lemma BootInv(s: Sched, h: Host)
    requires s == NewSched(s.cfg) && s.cfg.drain > 0 && h.markers == {}
    ensures Inv(s, h)
  {
    assert Ids(s.queued) == [];
  }

  lemma BootHolds(y: Sys)
    requires Boot(y)
    ensures CInv(y)
  {
    hide Inv, ClientInv, OnReconcile, Decide;
    forall m | m in y.clients
      ensures ClientInv(y.clients[m]) && !y.clients[m].state.Shutdown? && !y.clients[m].stopping
    {
      BootClient(y.clients[m]);
    }
    BootInv(y.s, HostOf(y, {}));
  }

  /** The invariant holds after every run from boot. */
  lemma {:induction false} Always(y: Sys, run: seq<Step>)
    requires CInv(y) && IsRun(y, run)
    ensures CInv(After(y, run))
    decreases |run|
  {
    hide CInv, Possible, Next;
    if run != [] {
      Keeps(y, run[0].event, run[0].gone);
      Always(Next(y, run[0].event, run[0].gone), run[1..]);
    }
  }
}
