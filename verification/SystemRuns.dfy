/** Building runs of the router: what a short exchange of requests and results leads to. */
module SystemRuns {
  import opened Types
  import opened RuntimeStatus
  import opened Scheduler
  import opened SchedulerLaws
  import opened SchedulerRecovery
  import opened SchedulerPromises
  import opened Ledger
  import opened ClientLoop
  import LedgerLaws
  import opened System
  import opened SystemLaws

  // ---------------------------------------------------------------- reaching a state

  /** The samples an event brings are of a device of this size, and report no more free than it has. */
  ghost predicate Samples(e: Event, total: int) {
    match e
    case Observes(sample, _) => LedgerLaws.Sized(total, sample)
    case UnloadReturns(_, sample, _) => LedgerLaws.Sized(total, sample)
    case _ => true
  }

  ghost predicate OnDevice(run: seq<Step>, total: int) {
    forall i :: 0 <= i < |run| ==> Samples(run[i].event, total)
  }

  ghost predicate Leads(y: Sys, run: seq<Step>, r: Sys, total: int) {
    IsRun(y, run) && OnDevice(run, total) && After(y, run) == r
  }

  /** Some run on a device of this size leads from y to r. */
  ghost predicate Reaches(y: Sys, r: Sys, total: int) {
    exists run :: Leads(y, run, r, total)
  }

  lemma ReachesItself(y: Sys, total: int)
    ensures Reaches(y, y, total)
  {
    hide Next;
    assert Leads(y, [], y, total);
  }

  lemma LeadsFirst(y: Sys, e: Event, gone: set<nat>, run: seq<Step>, r: Sys, total: int)
    requires Possible(y, e) && Samples(e, total) && Leads(Next(y, e, gone), run, r, total)
    ensures Leads(y, [Step(e, gone)] + run, r, total)
  {
    hide Possible, Next, Samples;
    var all := [Step(e, gone)] + run;
    assert all[1..] == run;
  }

  lemma ReachesFirst(y: Sys, e: Event, r: Sys, total: int)
    requires Possible(y, e) && Samples(e, total) && Reaches(Next(y, e, {}), r, total)
    ensures Reaches(y, r, total)
  {
    hide Possible, Next, Samples, Reaches;
    ReachesStep(y, e, {}, r, total);
  }

  lemma ReachesStep(y: Sys, e: Event, gone: set<nat>, r: Sys, total: int)
    requires Possible(y, e) && Samples(e, total) && Reaches(Next(y, e, gone), r, total)
    ensures Reaches(y, r, total)
  {
    hide Possible, Next, Samples, Leads;
    var run :| Leads(Next(y, e, gone), run, r, total);
    LeadsFirst(y, e, gone, run, r, total);
  }

  lemma {:induction false} LeadsOn(y: Sys, run: seq<Step>, m: Sys, rest: seq<Step>, r: Sys, total: int)
    requires Leads(y, run, m, total) && Leads(m, rest, r, total)
    ensures Leads(y, run + rest, r, total)
    decreases |run|
  {
    hide Possible, Next, Samples;
    var all := run + rest;
    if run == [] {
      assert all == rest;
    } else {
      assert all[1..] == run[1..] + rest && all[0] == run[0];
      LeadsOn(Next(y, run[0].event, run[0].gone), run[1..], m, rest, r, total);
    }
  }

  lemma ReachesOn(y: Sys, m: Sys, r: Sys, total: int)
    requires Reaches(y, m, total) && Reaches(m, r, total)
    ensures Reaches(y, r, total)
  {
    hide Leads;
    var run :| Leads(y, run, m, total);
    var rest :| Leads(m, rest, r, total);
    LeadsOn(y, run, m, rest, r, total);
  }

  // ---------------------------------------------------------------- a router at rest

  predicate Doubtful(c: Client) { c.state.Unknown? || c.state.Failed? }

  /** Nothing is queued, in flight or marked; exactly the clients in `doubt` are in doubt, and have no calls. */
  ghost predicate AtRest(y: Sys, doubt: set<Model>, next: int) {
    && CInv(y) && y.s.cfg.maxQ > 0 && next > 0
    && y.s.phase.Idle? && y.s.queued == [] && y.s.unloadFail <= doubt && y.s.gates.closed == {}
    && y.s.out.probes == [] && y.s.out.loads == [] && y.s.out.unloads == []
    && y.l.marker == map[]
    && (forall id :: id in y.s.out.admitted ==> id < next)
    && (forall m :: m in y.clients ==> (m in doubt <==> Doubtful(y.clients[m])))
    && doubt <= y.clients.Keys
    && (forall m :: m in doubt ==> Slots(y.s.work, m) == 0)
  }

  /** What a request for a model in doubt does at rest: its session asks about that very model first. */
  ghost predicate Asking(y: Sys, r: Sys, m: Model, id: nat) {
    && r == y.(s := r.s)
    && r.s.phase.Recover? && r.s.queued == [Req(id, m)] && r.s.session.model == m
    && r.s.out.probes != [] && r.s.out.probes[0].model == m && r.s.out.probes[0].token == r.s.session.token
    && r.s.cfg == y.s.cfg && r.s.work == y.s.work && r.s.unloadFail == y.s.unloadFail
    && r.s.out.loads == y.s.out.loads && r.s.out.unloads == y.s.out.unloads
    && r.s.out.admitted == y.s.out.admitted + [id]
  }

  lemma SessionAsks(s: Sched, h: Host, m: Model)
    requires s.phase.Idle? && s.queued != [] && s.queued[0].model == m && s.book.started == map[]
    requires m in Suspects(h, s.unloadFail) && !StateOf(h, m).Ready? && SeenBy(s.book, s.queued[0].id) == {}
    ensures MustRecover(s, h, s.queued[0])
    ensures var r := BeginSession(s, h);
      && r.phase.Recover? && r.queued == s.queued && r.session.model == m
      && |r.out.probes| == |s.out.probes| + 1
      && r.out.probes[|s.out.probes|].model == m && r.out.probes[|s.out.probes|].token == r.session.token
      && r.cfg == s.cfg && r.work == s.work && r.unloadFail == s.unloadFail
      && r.out.loads == s.out.loads && r.out.unloads == s.out.unloads && r.out.admitted == s.out.admitted
  {
    var order := Unseen(s, h, s.queued[0]);
    AsksTargetFirst(h, s.unloadFail, m);
    WithoutNothing(StatusOrder(h, s.unloadFail, m));
    assert order[0] == m && MustRecover(s, h, s.queued[0]);
    hide StatusOrder, Suspects, Without, Marked, MustRecover;
  }

  lemma HostDoubt(y: Sys, doubt: set<Model>, next: nat, m: Model, gone: set<nat>)
    requires m in doubt
    requires AtRest(y, doubt, next)
    ensures var h := HostOf(y, gone);
      m in h.states && !StateOf(h, m).Ready? && m in Suspects(h, y.s.unloadFail) && m !in h.inFlight
  {
    hide CInv, Decide, CallsInv;
    ClientFacts(y, m);
  }

  lemma BookEmpty(y: Sys)
    requires y.s.out.probes == []
    requires CInv(y)
    ensures y.s.book.started == map[]
    ensures forall id :: id !in y.s.out.admitted ==> SeenBy(y.s.book, id) == {}
  {
    hide CoreInv, SessionInv, AskInv, TargetInv, AroundOK, HostOf, Suspects;
  }

  /** The scheduler's part of it. */
  lemma RequestOpens(s: Sched, h: Host, id: nat, m: Model)
    requires s.phase.Idle? && s.queued == [] && s.book.started == map[] && s.cfg.maxQ > 0 && id != 0
    requires m in h.states && m in Suspects(h, s.unloadFail) && !StateOf(h, m).Ready? && SeenBy(s.book, id) == {}
    ensures OnRequest(s, h, Req(id, m), false) == BeginSession(Admit(s, Req(id, m)), h)
    ensures MustRecover(Admit(s, Req(id, m)), h, Req(id, m))
  {
    hide Suspects, BeginSession, MustRecover;
    SessionAsks(Admit(s, Req(id, m)), h, m);
  }

  lemma NextRequest(y: Sys, req: Req, gone: set<nat>)
    requires Possible(y, Request(req, false))
    ensures Next(y, Request(req, false), gone) == y.(s := OnRequest(y.s, HostOf(y, gone), req, false))
  {
    hide OnRequest, HostOf;
  }

  /** At rest, a request for a model in doubt starts a session that asks about it. */
  lemma RequestAsks(y: Sys, doubt: set<Model>, id: nat, m: Model)
    requires m in doubt
    requires AtRest(y, doubt, id)
    ensures var e := Request(Req(id, m), false);
      Possible(y, e) && CInv(Next(y, e, {})) && Asking(y, Next(y, e, {}), m, id)
  {
    hide CInv, HostOf, Suspects, BeginSession, MustRecover, Doubtful, Next, OnRequest;
    var e := Request(Req(id, m), false);
    HostDoubt(y, doubt, id, m, {});
    BookEmpty(y);
    assert Possible(y, e);
    hide Possible;
    Keeps(y, e, {});
    NextRequest(y, Req(id, m), {});
    RequestOpens(y.s, HostOf(y, {}), id, m);
    SessionAsks(Admit(y.s, Req(id, m)), HostOf(y, {}), m);
  }

  // ---------------------------------------------------------------- the result comes back

  ghost predicate SameWork(w: Work, w': Work, k: Model) {
    Slots(w', k) == Slots(w, k) && Get(w'.backend, k) == Get(w.backend, k)
  }

  /** What serving the only request leaves alone. */
  ghost predicate Served1(x: Sched, r: Sched, m: Model) {
    && r.phase.Idle? && r.queued == [] && r.cfg == x.cfg && r.unloadFail == x.unloadFail
    && r.out.loads == x.out.loads && r.out.unloads == x.out.unloads && r.out.probes == x.out.probes
    && r.out.admitted == x.out.admitted && r.gates.closed == {}
    && (forall k :: k != m ==> SameWork(x.work, r.work, k)) && !Busy(r.work, m)
  }

  lemma EmptyDispatch(s: Sched, h: Host)
    requires s.phase.Idle? && s.queued == []
    ensures TryDispatch(s, h) == ReopenUnusedGates(s, h) && TryDispatch(s, h).gates.closed == {}
  {
  }

  lemma ReadyTurn(s: Sched, h: Host)
    requires s.phase.Idle? && s.queued != [] && StateOf(h, s.queued[0].model).Ready?
    requires DecideOf(h, s.queued[0].model) == Evict([])
    requires Slots(s.work, s.queued[0].model) < Limit(s.cfg, s.queued[0].model)
    ensures TakeTurn(s, h) == Again(GrantHead(ReopenUnusedGates(s, h), h))
  {
    hide NeededGates, OpenGates, Slots, GrantHead;
  }

  /** A caller that has gone takes no slot. */
  lemma GrantMoves(s: Sched, h: Host)
    requires s.phase.Idle? && s.queued != [] && s.queued[0].id in h.gone
    ensures var r := GrantHead(s, h);
      && r.queued == s.queued[1..] && r.phase == s.phase && r.cfg == s.cfg && r.unloadFail == s.unloadFail
      && r.out.loads == s.out.loads && r.out.unloads == s.out.unloads && r.out.probes == s.out.probes
      && r.out.admitted == s.out.admitted && r.work == s.work
  {
  }

  lemma ServesReadyHead(x: Sched, h: Host)
    requires x.phase.Idle? && |x.queued| == 1 && StateOf(h, x.queued[0].model).Ready?
    requires DecideOf(h, x.queued[0].model) == Evict([]) && !Busy(x.work, x.queued[0].model) && x.queued[0].id in h.gone
    ensures Served1(x, TryDispatch(x, h), x.queued[0].model)
  {
    hide TakeTurn, GrantHead, NeededGates, OpenGates;
    assert Slots(x.work, x.queued[0].model) < Limit(x.cfg, x.queued[0].model);
    hide Slots;
    ReadyTurn(x, h);
    GrantMoves(ReopenUnusedGates(x, h), h);
    EmptyDispatch(GrantHead(ReopenUnusedGates(x, h), h), h);
  }

  /** A ready-idle result for the session's own target ends the session at once. */
  lemma AbsorbReady(s: Sched, h: Host, i: nat, n: Note)
    requires i < |s.out.probes| && |s.out.probes| == 1 && s.phase.Recover?
    requires n.model == s.out.probes[i].model == s.session.model
    requires n.applied && n.ack.Applied? && n.kind.NoErr? && n.rec.ReadyIdle?
    ensures var a := Absorb(Noted(s, i), n);
      && Conclude(Noted(s, i), h, n) == TryDispatch(EndSession(a), h)
      && a.queued == s.queued && a.cfg == s.cfg && a.unloadFail == s.unloadFail - {n.model}
      && a.out.loads == s.out.loads && a.out.unloads == s.out.unloads && a.out.probes == []
      && a.out.admitted == s.out.admitted
      && Get(a.work.backend, n.model) == (if n.active == 0 then 0 else n.active)
      && forall k :: Slots(a.work, k) <= Slots(s.work, k) && (k != n.model ==> SameWork(s.work, a.work, k))
  {
    hide TryDispatch;
  }

  /** What a ready-idle result does to the ledger. */
  lemma ReadyLedger(l: Ledger, now: int, ev: Result)
    requires CallsClient(ev) && ev.rec.ReadyIdle? && l.marker == map[]
    ensures var r := Recovered(l, now, ev, Applied);
      && r.cfg == l.cfg && r.snap == l.snap && r.boot == l.boot && r.serial == l.serial && r.marker == map[]
      && r.reserved == EnsurePeak(l, ev.model).reserved
      && r.lastUse == l.lastUse && r.loadedAt == NoteRecoveredReady(l, now, ev.model).loadedAt
  {
    hide EnsurePeak, TimeOf;
    LedgerLaws.EnsurePeakSpec(l, ev.model);
  }

  lemma NextProbe(y: Sys, gone: set<nat>)
    requires y.s.out.probes != [] && y.s.out.probes[0].model in y.clients
    ensures Possible(y, READY_REPLY)
    ensures Next(y, READY_REPLY, gone) == AfterProbe(y, gone, 0, ReadyResult(y.s.out.probes[0]))
  {
    hide AfterProbe;
  }

  /** One model has left doubt: it is ready, held at its peak, and its request, whose caller had gone, is answered. */
  ghost predicate Resolved(y: Sys, r: Sys, m: Model, id: nat) {
    && r.now == y.now
    && m in y.clients && m in r.clients && r.clients == y.clients[m := r.clients[m]] && r.clients[m].state.Ready?
    && r.l.cfg == y.l.cfg && r.l.snap == y.l.snap && r.l.boot == y.l.boot && r.l.serial == y.l.serial
    && r.l.marker == map[]
    && r.l.reserved == EnsurePeak(y.l, m).reserved
    && r.l.lastUse == y.l.lastUse && r.l.loadedAt == NoteRecoveredReady(y.l, y.now, m).loadedAt
    && Served1(y.s, r.s, m)
  }

  /** The session of a request for m is waiting for the result about m itself. */
  ghost predicate Waiting1(s: Sched, m: Model, id: nat) {
    && s.phase.Recover? && s.queued == [Req(id, m)] && s.session.model == m
    && |s.out.probes| == 1 && s.out.probes[0].model == m && s.out.probes[0].token == s.session.token
    && Slots(s.work, m) == 0
  }

  /** The probe came back, and its model is no longer blocked. */
  function Freed(s: Sched, m: Model): Sched {
    s.(out := s.out.(probes := []), unloadFail := s.unloadFail - {m})
  }

  const READY_REPLY := ProbeReturns(0, NoErr, ReadyIdle, 0, 0)

  function ReadyResult(p: Probe): Result { ResultOf(p, NoErr, ReadyIdle, 0, 0) }

  /** What the result does, part by part. */
  lemma ResultShape(y: Sys, m: Model, id: nat)
    requires Waiting1(y.s, m, id) && m in y.clients
    requires CInv(y)
    ensures var ev := ReadyResult(y.s.out.probes[0]);
      var y1 := Digested(y, ev);
      var h := HostOf(y1, {id});
      var r := AfterProbe(y, {id}, 0, ev);
      && m in y1.clients && y1.clients == y.clients[m := ClientOf(y1, m)] && ClientOf(y1, m).state.Ready?
      && y1.l == Recovered(y.l, y.now, ev, Applied)
      && r.clients == y1.clients && r.l == y1.l && r.now == y.now
      && r.s == NoteProbe(TakeProbe(y.s, 0), h, NoteOf(ev, Current, Applied))
      && StateOf(h, m).Ready? && DecideOf(h, m) == Evict([]) && id in h.gone
  {
    hide CInv, HostOf, NoteProbe, Slots, Recovered, AskClient, TakeProbe, StateOf, DecideOf;
    var ev := ReadyResult(y.s.out.probes[0]);
    ResultsAreApplied(y, 0, ev);
    AskedAbout(y, 0, ev);
    ReadyDecision(Digested(y, ev), m, {id});
  }

  lemma SessionServes(s: Sched, h: Host, m: Model, id: nat, n: Note)
    requires Waiting1(s, m, id) && n.model == m && n.token == s.session.token && n.mode.Current?
    requires n.applied && n.ack.Applied? && n.kind.NoErr? && n.rec.ReadyIdle? && n.active == 0
    requires StateOf(h, m).Ready? && DecideOf(h, m) == Evict([]) && id in h.gone
    ensures Served1(Freed(s, m), NoteProbe(TakeProbe(s, 0), h, n), m)
  {
    hide Conclude, Absorb, Noted, NoteProbe, Slots, DecideOf, TakeProbe;
    NoteShape(s, h, 0, n);
    AbsorbReady(s, h, 0, n);
    var a := Absorb(Noted(s, 0), n);
    assert !Busy(a.work, m);
    ServesReadyHead(EndSession(a), h);
    var r := TryDispatch(EndSession(a), h);
    forall k | k != m ensures SameWork(s.work, r.work, k) {
      assert SameWork(s.work, a.work, k) && SameWork(a.work, r.work, k); }
  }

  lemma ResultResolves(y: Sys, m: Model, id: nat)
    requires Waiting1(y.s, m, id) && m in y.clients && y.l.marker == map[]
    requires CInv(y)
    ensures Resolved(y.(s := Freed(y.s, m)), AfterProbe(y, {id}, 0, ReadyResult(y.s.out.probes[0])), m, id)
  {
    hide CInv, HostOf, NoteProbe, Recovered, AskClient, EnsurePeak, Digested, Served1, StateOf, DecideOf, AfterProbe;
    var ev := ReadyResult(y.s.out.probes[0]);
    ReadyLedger(y.l, y.now, ev);
    ResultShape(y, m, id);
    SessionServes(y.s, HostOf(Digested(y, ev), {id}), m, id, NoteOf(ev, Current, Applied));
  }

  lemma OneProbeHere(y: Sys)
    requires CInv(y)
    ensures |y.s.out.probes| <= 1
  {
    hide CoreInv, SessionInv, AskInv, SeenInv, TargetInv, AroundOK, Decide;
  }

  lemma ReadyDecision(y: Sys, m: Model, gone: set<nat>)
    requires m in y.clients && ClientOf(y, m).state.Ready?
    ensures var h := HostOf(y, gone); StateOf(h, m).Ready? && DecideOf(h, m) == Evict([]) && h.gone == gone
  {
  }

  // ---------------------------------------------------------------- settling every doubt

  /** From y to r exactly the models in `done` became ready, held at their peaks; the ledger is else the same. */
  ghost predicate AllReady(y: Sys, r: Sys, done: set<Model>) {
    && r.now == y.now && r.s.cfg == y.s.cfg && r.clients.Keys == y.clients.Keys
    && r.l.cfg == y.l.cfg && r.l.snap == y.l.snap && r.l.boot == y.l.boot && r.l.serial == y.l.serial
    && (forall m :: m in y.clients ==> if m in done then r.clients[m].state.Ready? else r.clients[m] == y.clients[m])
    && (forall m :: m !in done ==> SameWork(y.s.work, r.s.work, m))
    && (forall m :: m in done ==> !Busy(r.s.work, m))
    && r.l.lastUse == y.l.lastUse
    && (forall m :: m !in done ==> TimeOf(r.l.loadedAt, m) == TimeOf(y.l.loadedAt, m))
    && (forall m :: m in done && TimeOf(y.l.loadedAt, m) == 0 && TimeOf(y.l.lastUse, m) == 0 ==>
          TimeOf(r.l.loadedAt, m) == y.now)
    && (forall m :: m in done && m in y.l.cfg.models ==> m in r.l.reserved && r.l.reserved[m] >= y.l.cfg.models[m].peak)
    && (forall m :: m !in done ==>
          (m in r.l.reserved <==> m in y.l.reserved) && (m in r.l.reserved ==> r.l.reserved[m] == y.l.reserved[m]))
  }

  lemma OneReady(y: Sys, y1: Sys, r: Sys, m: Model, id: nat)
    requires Asking(y, y1, m, id) && y1.s.out.probes != []
    requires Resolved(y1.(s := Freed(y1.s, m)), r, m, id)
    ensures AllReady(y, r, {m})
  {
  }

  lemma AllReadyOn(y: Sys, m: Sys, r: Sys, a: set<Model>, b: set<Model>)
    requires AllReady(y, m, a) && AllReady(m, r, b) && a !! b
    ensures AllReady(y, r, a + b)
  {
    hide Next;
  }

  lemma WaitingNow(y: Sys, y1: Sys, m: Model, id: nat)
    requires Asking(y, y1, m, id) && Slots(y.s.work, m) == 0
    requires CInv(y1)
    ensures Waiting1(y1.s, m, id)
  {
    hide CInv, Slots;
    OneProbeHere(y1);
  }

  lemma StillAtRest(y: Sys, doubt: set<Model>, id: nat, m: Model, y1: Sys, r: Sys)
    requires m in doubt && Asking(y, y1, m, id)
    requires Resolved(y1.(s := Freed(y1.s, m)), r, m, id)
    requires AtRest(y, doubt, id) && CInv(r)
    ensures AtRest(r, doubt - {m}, id + 1)
  {
    hide CInv, Slots;
    forall k | k in doubt - {m} ensures Slots(r.s.work, k) == 0 { assert SameWork(y.s.work, r.s.work, k); }
  }

  /** A request and a ready reply settle one doubt. */
  lemma OneSettles(y: Sys, doubt: set<Model>, id: nat, m: Model) returns (r: Sys)
    requires m in doubt
    requires AtRest(y, doubt, id)
    ensures AtRest(r, doubt - {m}, id + 1) && AllReady(y, r, {m}) && forall total :: Reaches(y, r, total)
  {
    hide CInv, Possible, Next, Slots, Doubtful, AfterProbe, AllReady, Resolved, Reaches, Served1;
    var e := Request(Req(id, m), false);
    RequestAsks(y, doubt, id, m);
    var y1 := Next(y, e, {});
    WaitingNow(y, y1, m, id);
    NextProbe(y1, {id});
    Keeps(y1, READY_REPLY, {id});
    ResultResolves(y1, m, id);
    r := Next(y1, READY_REPLY, {id});
    StillAtRest(y, doubt, id, m, y1, r);
    OneReady(y, y1, r, m, id);
    forall total: int
      ensures Reaches(y, r, total)
    {
      ReachesItself(r, total);
      assert Samples(e, total) && Samples(READY_REPLY, total);
      ReachesStep(y1, READY_REPLY, {id}, r, total);
      ReachesFirst(y, e, r, total);
    }
  }

  /** At rest the router can come to have any models in doubt ready, one request after another. */
  lemma {:induction false} DoubtsSettle(y: Sys, doubt: set<Model>, some: set<Model>, id: nat)
    returns (r: Sys, next: nat)
    requires some <= doubt
    requires AtRest(y, doubt, id)
    ensures AtRest(r, doubt - some, next) && AllReady(y, r, some) && forall total :: Reaches(y, r, total)
    decreases |some|
  {
    hide AtRest, AllReady, Reaches, Next, Possible;
    if some == {} {
      NoneReady(y);
      assert doubt - some == doubt;
      forall total: int ensures Reaches(y, y, total) { ReachesItself(y, total); }
      return y, id;
    }
    var m :| m in some;
    var y1 := OneSettles(y, doubt, id, m);
    r, next := DoubtsSettle(y1, doubt - {m}, some - {m}, id + 1);
    AllReadyOn(y, y1, r, {m}, some - {m});
    assert {m} + (some - {m}) == some && doubt - {m} - (some - {m}) == doubt - some;
    forall total: int ensures Reaches(y, r, total) { ReachesOn(y, y1, r, total); }
  }

  lemma NoneReady(y: Sys)
    ensures AllReady(y, y, {})
  {
  }
}
