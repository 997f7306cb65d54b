/** One round: the oldest ready model is to be unloaded, its stop fails, and a recovery finds it ready after all. */
module SystemRounds {
  import opened Types
  import opened Admission
  import opened RuntimeStatus
  import opened Scheduler
  import opened SchedulerLaws
  import opened SchedulerTurns
  import opened SchedulerHandlers
  import opened SchedulerRecovery
  import opened Ledger
  import opened ClientLoop
  import LedgerLaws
  import opened System
  import opened SystemLaws
  import opened SystemRuns
  import opened SystemGate

  // ---------------------------------------------------------------- an unload starts

  /** The scheduler closes the gate of w and unloads it for the head of its queue, and is else as it was. */
  ghost predicate Evicting(s: Sched, r: Sched, w: Model) {
    && r.phase.Unloading? && r.queued == s.queued && r.cfg == s.cfg && r.work == s.work && r.unloadFail == s.unloadFail
    && r.swap.evict == [w] && r.swap.began && r.gates.closed == {w}
    && |r.out.unloads| == 1 && r.out.unloads[0].ids == [w] && r.out.unloads[0].stage.Draining?
    && r.out.loads == s.out.loads && r.out.probes == s.out.probes && r.out.admitted == s.out.admitted
  }

  lemma NotExpired(g: Gates, drain: int, w: Model, now: int)
    requires g.at.Keys == g.closed && g.closed == {} && drain > 0
    ensures !DrainExpired(CloseGates(g, [w], now).at, drain, [w], now) && CloseGates(g, [w], now).closed == {w}
  {
    assert Elements([w]) == {w};
    CloseGatesSpec(g, [w], now);
    hide CloseGates;
  }

  lemma OneVictim(w: Work, failed: set<Model>, v: Model)
    requires !Busy(w, v) && v !in failed
    ensures !AnyBusy(w, [v]) && !AnyFailed(failed, [v])
  {
  }

  lemma StillOpen(s: Sched, h: Host)
    requires s.gates.closed == {} && s.gates.at.Keys == {}
    ensures ReopenUnusedGates(s, h) == s.(gates := ReopenUnusedGates(s, h).gates)
    ensures ReopenUnusedGates(s, h).gates.closed == {} && ReopenUnusedGates(s, h).gates.at.Keys == {}
  {
  }

  lemma UnloadTurn(s: Sched, h: Host, w: Model)
    requires s.phase.Idle? && s.queued != [] && s.cfg.drain > 0 && s.gates.closed == {} && s.gates.at.Keys == {}
    requires DecideOf(h, s.queued[0].model) == Evict([w])
    requires Slots(s.work, s.queued[0].model) < Limit(s.cfg, s.queued[0].model)
    requires !Busy(s.work, w) && w !in s.unloadFail && s.out.unloads == []
    ensures var t := HeadTurn(s, h); t.Halt? && Evicting(s, t.s, w)
  {
    hide CloseGates, DrainExpired, AnyBusy, AnyFailed, Slots, Busy, DrainDeadline;
    NotExpired(s.gates, s.cfg.drain, w, h.now);
    OneVictim(s.work, s.unloadFail, w);
  }

  /** The head evicts the planner's victim. */
  lemma EvictsFor(s: Sched, h: Host, w: Model)
    requires s.phase.Idle? && s.queued != [] && s.cfg.drain > 0 && s.gates.closed == {} && s.gates.at.Keys == {}
    requires !MustRecover(s, h, s.queued[0])
    requires DecideOf(h, s.queued[0].model) == Evict([w])
    requires Slots(s.work, s.queued[0].model) < Limit(s.cfg, s.queued[0].model)
    requires !Busy(s.work, w) && w !in s.unloadFail && s.out.unloads == []
    ensures Evicting(s, TryDispatch(s, h), w)
  {
    hide MustRecover, HeadTurn, Slots, Busy, Evicting, ReopenUnusedGates;
    StillOpen(s, h);
    UnloadTurn(ReopenUnusedGates(s, h), h, w);
    SameEvicting(s, ReopenUnusedGates(s, h), HeadTurn(ReopenUnusedGates(s, h), h).s, w);
  }

  lemma SameEvicting(s: Sched, x: Sched, r: Sched, w: Model)
    requires Evicting(x, r, w) && x == s.(gates := x.gates)
    ensures Evicting(s, r, w)
  {
  }

  // ---------------------------------------------------------------- a target whose endpoint is down

  /** A session that asks about its own target only, and waits for the answer. */
  ghost predicate AsksItself(s: Sched, t: Model, id: nat) {
    && s.phase.Recover? && s.queued == [Req(id, t)] && id != 0
    && s.session == Session(s.session.token, id, t, [t], 0, {}, {}, false, false, false, Some(t))
    && |s.out.probes| == 1 && s.out.probes[0].model == t && s.out.probes[0].token == s.session.token
  }

  const DEAD_REPLY := ProbeReturns(0, EndpointDown, RecInvalid, 0, 0)

  function DeadNote(p: Probe): Note { NoteOf(ResultOf(p, EndpointDown, RecInvalid, 0, 0), Current, Applied) }

  /** The session ends, having heard; its head is about to be dispatched. */
  function Heard(s: Sched): Sched
    requires s.out.probes != []
  {
    var x := Noted(s, 0);
    EndSession(x.(session := x.session.(pos := 1)))
  }

  lemma DeadEnds(s: Sched, h: Host, t: Model, id: nat)
    requires AsksItself(s, t, id)
    ensures NoteProbe(TakeProbe(s, 0), h, DeadNote(s.out.probes[0])) == TryDispatch(Heard(s), h)
  {
    hide TryDispatch, NoteProbe;
    NoteShape(s, h, 0, DeadNote(s.out.probes[0]));
  }

  lemma HeardAsked(s: Sched, h: Host, t: Model, id: nat)
    requires AsksItself(s, t, id) && Marked(h) == {} && Suspects(h, s.unloadFail) <= {t}
    ensures var x := Heard(s);
      && x.phase.Idle? && x.queued == s.queued && x.cfg == s.cfg && x.work == s.work && x.unloadFail == s.unloadFail
      && x.gates == s.gates && x.out.unloads == s.out.unloads && x.out.loads == s.out.loads && x.out.probes == []
      && x.out.admitted == s.out.admitted && !MustRecover(x, h, x.queued[0])
  {
    hide Suspects, Marked, Unseen;
    var x := Heard(s);
    SuspectsAndOrder(x, h, x.queued[0]);
    HasElement(Unseen(x, h, x.queued[0]));
  }

  lemma SessionIs(s: Sched, h: Host, t: Model)
    requires s.phase.Idle? && s.queued != [] && s.queued[0].model == t && s.book.started == map[] && s.queued[0].id != 0
    requires Suspects(h, s.unloadFail) == {t} && Marked(h) == {} && SeenBy(s.book, s.queued[0].id) == {}
    requires |s.queued| == 1 && s.out.probes == []
    ensures AsksItself(BeginSession(s, h), t, s.queued[0].id)
    ensures BeginSession(s, h).gates == s.gates
  {
    OrderOfOne(h, s.unloadFail, t);
    WithoutNothing([t]);
    hide StatusOrder, Suspects, Marked;
    assert Unseen(s, h, s.queued[0]) == [t];
    assert s.queued == [Req(s.queued[0].id, t)];
  }

  lemma OrderOfOne(h: Host, unloadFail: set<Model>, t: Model)
    requires Suspects(h, unloadFail) == {t}
    ensures StatusOrder(h, unloadFail, t) == [t]
  {
    hide Suspects;
    assert {t} - {t} == {};
  }

  // ---------------------------------------------------------------- the request that evicts

  /** The unload of w is in flight, for a request for t; all else is as at rest. */
  ghost predicate Unloads(y: Sys, r: Sys, t: Model, w: Model, next: nat) {
    r == y.(s := r.s) && Evicting(Admit(y.s, Req(next, t)), r.s, w) && CInv(r)
  }

  lemma RestGates(y: Sys)
    requires CInv(y)
    ensures y.s.gates.at.Keys == y.s.gates.closed && y.s.cfg.drain > 0
  {
    hide WorkInv, QueueInv, TallyInv, LifeInv, LateInv, RecInv, AroundOK, Decide;
  }

  /** What a request sees at rest. */
  lemma RestHost(y: Sys, doubt: set<Model>, next: nat, t: Model)
    requires t in y.clients && doubt <= {t}
    requires AtRest(y, doubt, next)
    ensures var h := HostOf(y, {});
      && t in h.states && StateOf(h, t) == ClientOf(y, t).state && Marked(h) == {} && Suspects(h, y.s.unloadFail) <= {t}
      && DecideOf(h, t) == Decide(y.l, StatesOf(y.clients), y.now, t)
  {
    hide CInv, Decide, Slots;
  }

  lemma NoDoubt(y: Sys, doubt: set<Model>, next: nat, t: Model)
    requires t in y.clients && doubt <= {t}
    requires AtRest(y, doubt, next)
    ensures doubt == {} || doubt == {t}
    ensures t in doubt ==> Suspects(HostOf(y, {}), y.s.unloadFail) == {t}
    ensures doubt == {} ==> Suspects(HostOf(y, {}), y.s.unloadFail) == {}
  {
    hide CInv, AtRest, HostOf, Suspects;
    if t in doubt { HostDoubt(y, doubt, next, t, {}); }
    RestHost(y, doubt, next, t);
    SuspectsInDoubt(y, doubt, next);
  }

  lemma SuspectsInDoubt(y: Sys, doubt: set<Model>, next: nat)
    requires AtRest(y, doubt, next)
    ensures Suspects(HostOf(y, {}), y.s.unloadFail) <= doubt
  {
    hide CInv, Decide, Slots;
  }

  /** Whom the planner wants unloaded for t, and nobody is in the way. */
  ghost predicate Victim(y: Sys, t: Model, w: Model) {
    && t in y.clients && !y.clients[t].state.Ready? && !y.clients[t].state.Starting? && Slots(y.s.work, t) == 0
    && Decide(y.l, StatesOf(y.clients), y.now, t) == Evict([w])
    && w in y.clients && y.clients[w].state.Ready? && !Busy(y.s.work, w) && w != t
  }

  lemma RestSched(y: Sys, doubt: set<Model>, next: nat)
    requires AtRest(y, doubt, next)
    ensures CInv(y) && y.s.phase.Idle? && y.s.queued == [] && y.s.cfg.maxQ > 0 && next > 0 && next !in y.s.out.admitted
    ensures y.s.gates.closed == {} && y.s.gates.at.Keys == {} && y.s.cfg.drain > 0 && y.s.unloadFail <= doubt
    ensures y.s.out.probes == [] && y.s.out.loads == [] && y.s.out.unloads == [] && y.l.marker == map[]
  {
    hide CInv;
    RestGates(y);
  }

  lemma RequestUnloads(y: Sys, next: nat, t: Model, w: Model)
    requires Victim(y, t, w)
    requires AtRest(y, {}, next)
    ensures var e := Request(Req(next, t), false);
      Possible(y, e) && Unloads(y, Next(y, e, {}), t, w, next)
  {
    hide CInv, AtRest, HostOf, Suspects, Marked, Next, OnRequest, Slots, Busy, Decide, Evicting, MustRecover;
    NoDoubt(y, {}, next, t);
    RestHost(y, {}, next, t);
    RestSched(y, {}, next);
    var e := Request(Req(next, t), false);
    assert Possible(y, e);
    hide Possible;
    var x := Admit(y.s, Req(next, t));
    NothingAsked(x, HostOf(y, {}), Req(next, t));
    EvictsFor(x, HostOf(y, {}), w);
    NextRequest(y, Req(next, t), {});
    AdmitsIt(y.s, HostOf(y, {}), next, t);
    Keeps(y, e, {});
  }

  lemma AdmitsIt(s: Sched, h: Host, id: nat, m: Model)
    requires id != 0 && m in h.states && |s.queued| < s.cfg.maxQ
    ensures OnRequest(s, h, Req(id, m), false) == TryDispatch(Admit(s, Req(id, m)), h)
  {
    hide TryDispatch;
  }

  /** The session of a request for t asks about t and waits; all else is as at rest. */
  ghost predicate AskedFrom(y: Sys, r: Sys, t: Model, next: nat) {
    && r == y.(s := r.s) && CInv(r) && AsksItself(r.s, t, next) && r.s.gates == y.s.gates
    && r.s.cfg == y.s.cfg && r.s.work == y.s.work && r.s.unloadFail == y.s.unloadFail
    && r.s.out.loads == y.s.out.loads && r.s.out.unloads == y.s.out.unloads
    && r.s.out.admitted == y.s.out.admitted + [next]
  }

  lemma RequestAsksItself(y: Sys, next: nat, t: Model)
    requires t in y.clients && !ClientOf(y, t).state.Ready?
    requires AtRest(y, {t}, next)
    ensures var e := Request(Req(next, t), false); Possible(y, e) && AskedFrom(y, Next(y, e, {}), t, next)
  {
    hide CInv, HostOf, Suspects, Marked, Next, OnRequest, BeginSession, MustRecover, Possible, AsksItself, Doubtful,
         Slots;
    RequestAsks(y, {t}, next, t);
    NoDoubt(y, {t}, next, t);
    RestHost(y, {t}, next, t);
    BookEmpty(y);
    HostDoubt(y, {t}, next, t, {});
    var e := Request(Req(next, t), false);
    NextRequest(y, Req(next, t), {});
    RequestOpens(y.s, HostOf(y, {}), next, t);
    SessionIs(Admit(y.s, Req(next, t)), HostOf(y, {}), t);
    SessionFrame(Admit(y.s, Req(next, t)), HostOf(y, {}));
  }

  lemma SessionFrame(s: Sched, h: Host)
    requires s.queued != []
    ensures var r := BeginSession(s, h);
      r == s.(phase := r.phase, session := r.session, book := r.book,
              out := s.out.(probes := r.out.probes, begun := r.out.begun, actions := r.out.actions))
  {
    hide Unseen;
  }

  lemma DeadProbe(y: Sys)
    requires y.s.out.probes != [] && y.s.out.probes[0].model in y.clients
    requires RecoverMode(y.s, y.s.out.probes[0].token).Current?
    ensures Possible(y, DEAD_REPLY)
    ensures Next(y, DEAD_REPLY, {}) == y.(s := NoteProbe(TakeProbe(y.s, 0), HostOf(y, {}), DeadNote(y.s.out.probes[0])))
  {
    hide NoteProbe, HostOf, TakeProbe, RecoverMode;
    var ev := ResultOf(y.s.out.probes[0], EndpointDown, RecInvalid, 0, 0);
    assert y.clients[ev.model := y.clients[ev.model]] == y.clients;
    assert Digested(y, ev) == y;
  }

  /** The same when the target is in doubt itself, and its endpoint is down. */
  lemma DeadReplyUnloads(y: Sys, y1: Sys, next: nat, t: Model, w: Model)
    requires Victim(y, t, w)
    requires AskedFrom(y, y1, t, next)
    requires AtRest(y, {t}, next)
    ensures Possible(y1, DEAD_REPLY) && Unloads(y, Next(y1, DEAD_REPLY, {}), t, w, next)
  {
    hide CInv, AtRest, HostOf, Suspects, Marked, Next, Slots, Busy, Decide, MustRecover, Possible, NoteProbe, Heard,
         TakeProbe, DeadNote;
    RestSched(y, {t}, next);
    RestHost(y, {t}, next, t);
    DeadProbe(y1);
    SameHost(y, y1, {});
    var h := HostOf(y, {});
    DeadEnds(y1.s, h, t, next);
    HeardAsked(y1.s, h, t, next);
    EvictsFor(Heard(y1.s), h, w);
    Keeps(y1, DEAD_REPLY, {});
  }

  lemma NoSample(e: Event, total: int)
    requires !e.Observes? && !e.UnloadReturns?
    ensures Samples(e, total)
  {
  }

  lemma ReachesNext(y: Sys, e: Event, total: int)
    requires Possible(y, e) && Samples(e, total)
    ensures Reaches(y, Next(y, e, {}), total)
  {
    hide Possible, Next, Samples, Reaches;
    ReachesItself(Next(y, e, {}), total);
    ReachesFirst(y, e, Next(y, e, {}), total);
  }

  lemma VictimFacts(y: Sys, t: Model, w: Model)
    requires Victim(y, t, w)
    ensures w in y.clients && ClientOf(y, w).state.Ready? && !Busy(y.s.work, w) && w != t
    ensures t in y.clients && !ClientOf(y, t).state.Ready?
  {
  }

  lemma AskedUnloads(y: Sys, next: nat, t: Model, w: Model) returns (r: Sys)
    requires Victim(y, t, w)
    requires AtRest(y, {t}, next)
    ensures Unloads(y, r, t, w, next) && forall total :: Reaches(y, r, total)
  {
    hide CInv, AtRest, Victim, Next, Possible, Reaches, AskedFrom, Unloads, Busy, Samples;
    VictimFacts(y, t, w);
    RequestAsksItself(y, next, t);
    var e := Request(Req(next, t), false);
    var y1 := Next(y, e, {});
    DeadReplyUnloads(y, y1, next, t, w);
    r := Next(y1, DEAD_REPLY, {});
    forall total: int ensures Reaches(y, r, total) {
      NoSample(e, total);
      NoSample(DEAD_REPLY, total);
      ReachesNext(y1, DEAD_REPLY, total);
      ReachesFirst(y, e, r, total);
    }
  }

  /** Whatever is known of the target, a request for it has the victim unloaded. */
  lemma UnloadStarts(y: Sys, doubt: set<Model>, next: nat, t: Model, w: Model) returns (r: Sys)
    requires doubt <= {t} && Victim(y, t, w)
    requires AtRest(y, doubt, next)
    ensures Unloads(y, r, t, w, next) && forall total :: Reaches(y, r, total)
  {
    hide CInv, AtRest, Victim, Next, Possible, Reaches, Unloads;
    if t in doubt {
      assert doubt == {t};
      r := AskedUnloads(y, next, t, w);
    } else {
      assert doubt == {};
      var e := Request(Req(next, t), false);
      RequestUnloads(y, next, t, w);
      r := Next(y, e, {});
      forall total: int ensures Reaches(y, r, total) {
        assert Samples(e, total);
        ReachesNext(y, e, total);
      }
    }
  }

  // ---------------------------------------------------------------- the unload fails

  lemma BeginsStop(x: Sys, w: Model)
    requires |x.s.out.unloads| == 1 && x.s.out.unloads[0].ids == [w] && x.s.out.unloads[0].stage.Draining?
    requires x.s.out.loads == []
    requires w in x.clients && ClientOf(x, w).state.Ready? && !ClientOf(x, w).stopping
    ensures Possible(x, StopStarts(0))
    ensures var r := Next(x, StopStarts(0), {});
      && r == x.(s := SetUnload(x.s, 0, UnloadStage.Stopping), clients := x.clients[w := ClientOf(r, w)])
      && ClientOf(r, w).stopping
  {
    hide HostOf;
  }

  lemma EndsStop(x: Sys, w: Model)
    requires |x.s.out.unloads| == 1 && x.s.out.unloads[0].ids == [w] && x.s.out.unloads[0].stage.Stopping?
    requires x.s.out.loads == []
    requires w in x.clients && ClientOf(x, w).stopping
    ensures Possible(x, StopReturns(0, Some(Uncoded)))
    ensures var r := Next(x, StopReturns(0, Some(Uncoded)), {});
      && r == x.(s := SetUnload(x.s, 0, Broken(Uncoded)), clients := x.clients[w := ClientOf(r, w)])
      && ClientOf(r, w).state.Failed?
  {
    hide HostOf;
    var s := SetUnload(x.s, 0, Broken(Uncoded));
    assert AnswerLoads(s, w, Some(Uncoded)) == s;
  }

  /** The one request is failed, the victim is blocked, and nothing is left to do. */
  ghost predicate Blocked(s: Sched, r: Sched, w: Model) {
    && r.phase.Idle? && r.queued == [] && r.cfg == s.cfg && r.work == s.work && r.unloadFail == s.unloadFail + {w}
    && r.gates.closed == {} && r.out.unloads == [] && r.out.loads == s.out.loads && r.out.probes == s.out.probes
    && r.out.admitted == s.out.admitted
  }

  lemma FailsUnload(s: Sched, h: Host, w: Model)
    requires s.phase.Unloading? && |s.queued| == 1 && s.swap.evict == [w] && |s.out.unloads| == 1
    ensures Blocked(s, OnUnloadDone(TakeUnload(s, 0), h, Some(Uncoded)), w)
  {
    hide TryDispatch;
    var x := FailUnload(TakeUnload(s, 0), Uncoded);
    EmptyDispatch(x, h);
    assert Elements([w]) == {w};
  }

  lemma ReportsFailure(x: Sys, w: Model)
    requires x.s.phase.Unloading? && |x.s.queued| == 1 && x.s.swap.evict == [w]
    requires |x.s.out.unloads| == 1 && x.s.out.unloads[0].stage == Broken(Uncoded)
    ensures Possible(x, UnloadFails(0, Uncoded))
    ensures var r := Next(x, UnloadFails(0, Uncoded), {}); r == x.(s := r.s) && Blocked(x.s, r.s, w)
  {
    hide HostOf, OnUnloadDone;
    FailsUnload(x.s, HostOf(x, {}), w);
  }

  /** From y to r the stop of w failed; all else is as it was. */
  ghost predicate StopFailed(y: Sys, r: Sys, t: Model, w: Model, next: nat) {
    && w in y.clients && w in r.clients && r == y.(s := r.s, clients := y.clients[w := r.clients[w]])
    && r.clients[w].state.Failed? && Blocked(Admit(y.s, Req(next, t)), r.s, w)
  }

  lemma ReadyRuns(x: Sys, w: Model)
    requires w in x.clients && ClientOf(x, w).state.Ready?
    requires CInv(x)
    ensures !ClientOf(x, w).stopping
  {
    hide CInv, CallsInv, UnloadsOK;
    ClientFacts(x, w);
  }

  lemma StopFails(y: Sys, x: Sys, t: Model, w: Model, next: nat) returns (r: Sys)
    requires Unloads(y, x, t, w, next) && w in y.clients && ClientOf(y, w).state.Ready?
    requires y.s.queued == [] && y.s.out.loads == []
    ensures StopFailed(y, r, t, w, next) && CInv(r) && forall total :: Reaches(x, r, total)
  {
    hide CInv, HostOf, Next, Possible, Reaches, Blocked, StateInv, CallsInv;
    ReadyRuns(x, w);
    BeginsStop(x, w);
    var x1 := Next(x, StopStarts(0), {});
    EndsStop(x1, w);
    var x2 := Next(x1, StopReturns(0, Some(Uncoded)), {});
    ReportsFailure(x2, w);
    r := Next(x2, UnloadFails(0, Uncoded), {});
    Keeps(x, StopStarts(0), {});
    Keeps(x1, StopReturns(0, Some(Uncoded)), {});
    Keeps(x2, UnloadFails(0, Uncoded), {});
    BlockedFrom(Admit(y.s, Req(next, t)), x2.s, r.s, w);
    forall total: int ensures Reaches(x, r, total) {
      ReachesItself(r, total);
      assert Samples(UnloadFails(0, Uncoded), total) && Samples(StopReturns(0, Some(Uncoded)), total)
             && Samples(StopStarts(0), total);
      ReachesFirst(x2, UnloadFails(0, Uncoded), r, total);
      ReachesFirst(x1, StopReturns(0, Some(Uncoded)), r, total);
      ReachesFirst(x, StopStarts(0), r, total);
    }
  }

  lemma BlockedFrom(s: Sched, x: Sched, r: Sched, w: Model)
    requires Blocked(x, r, w) && x.cfg == s.cfg && x.work == s.work && x.unloadFail == s.unloadFail
    requires x.out.loads == s.out.loads && x.out.probes == s.out.probes && x.out.admitted == s.out.admitted
    ensures Blocked(s, r, w)
  {
  }

  lemma BlockedRests(y: Sys, doubt: set<Model>, next: nat, t: Model, w: Model, r: Sys)
    requires StopFailed(y, r, t, w, next) && !Busy(y.s.work, w)
    requires AtRest(y, doubt, next) && CInv(r)
    ensures AtRest(r, doubt + {w}, next + 1)
  {
    hide CInv;
  }

  /** The whole round: w is ready again, and held at its peak. */
  ghost predicate Rounded(y: Sys, r: Sys, w: Model) {
    && r.now == y.now && r.clients.Keys == y.clients.Keys && w in y.clients
    && (forall m :: m in y.clients ==> if m == w then r.clients[m].state.Ready? else r.clients[m] == y.clients[m])
    && (forall m :: m != w ==> SameWork(y.s.work, r.s.work, m))
    && RoundedLedger(y.l, r.l, y.now, w)
  }

  ghost predicate RoundedLedger(l: Ledger, r: Ledger, now: int, w: Model) {
    && r.cfg == l.cfg && r.snap == l.snap && r.boot == l.boot && r.lastUse == l.lastUse
    && (forall m :: m != w ==> LedgerLaws.SameHold(l, r, m))
    && (forall m :: m != w ==> TimeOf(r.loadedAt, m) == TimeOf(l.loadedAt, m))
    && (w in l.cfg.models ==> w in r.reserved && r.reserved[w] >= l.cfg.models[w].peak)
    && (TimeOf(l.loadedAt, w) == 0 && TimeOf(l.lastUse, w) == 0 ==> TimeOf(r.loadedAt, w) == now)
  }

  lemma RoundEnds(y: Sys, x: Sys, r: Sys, t: Model, w: Model, next: nat)
    requires StopFailed(y, x, t, w, next) && AllReady(x, r, {w})
    ensures Rounded(y, r, w)
  {
    hide SameWork, RoundedLedger;
    LedgerRounds(x, r, w);
  }

  lemma LedgerRounds(y: Sys, r: Sys, w: Model)
    requires AllReady(y, r, {w})
    ensures RoundedLedger(y.l, r.l, y.now, w)
  {
    hide SameWork;
  }

  lemma Round(y: Sys, doubt: set<Model>, next: nat, t: Model, w: Model) returns (r: Sys)
    requires doubt <= {t} && Victim(y, t, w)
    requires AtRest(y, doubt, next)
    ensures AtRest(r, doubt, next + 2) && Rounded(y, r, w) && forall total :: Reaches(y, r, total)
  {
    hide CInv, AtRest, Reaches, Unloads, StopFailed, AllReady, Rounded, Busy, Slots, Victim;
    RestSched(y, doubt, next);
    VictimFacts(y, t, w);
    var y1 := UnloadStarts(y, doubt, next, t, w);
    var y2 := StopFails(y, y1, t, w, next);
    BlockedRests(y, doubt, next, t, w, y2);
    r := OneSettles(y2, doubt + {w}, next + 1, w);
    assert doubt + {w} - {w} == doubt;
    RoundEnds(y, y2, r, t, w, next);
    forall total: int ensures Reaches(y, r, total) {
      ReachesOn(y1, y2, r, total);
      ReachesOn(y, y1, r, total);
    }
  }

  // ---------------------------------------------------------------- time and samples at rest

  lemma RestLedger(y: Sys, doubt: set<Model>, next: nat)
    requires AtRest(y, doubt, next)
    ensures LedgerLaws.LedgerOK(y.l) && y.clients.Keys == y.l.cfg.models.Keys && CInv(y)
  {
    hide CInv;
    LedgerFacts(y);
  }

  lemma Ticks(y: Sys, doubt: set<Model>, next: nat, total: int) returns (r: Sys)
    requires AtRest(y, doubt, next)
    ensures r == y.(now := r.now) && r.now > 0 && AtRest(r, doubt, next) && Reaches(y, r, total)
  {
    hide CInv, Reaches, Slots, Doubtful;
    var e := Tick(if y.now > 0 then y.now else 1);
    Keeps(y, e, {});
    r := Next(y, e, {});
    NoSample(e, total);
    ReachesNext(y, e, total);
  }

  /** A sample, fresh now, of a device of this size. */
  function Reading(y: Sys, total: int, free: int): Snapshot {
    Snapshot(true, y.l.cfg.device, total, free, y.now)
  }

  lemma ReadingTaken(y: Sys, total: int, free: int)
    requires y.l.marker == map[] && y.now > 0 && y.l.cfg.device != "" && 0 <= free <= total
    ensures var e := Observes(Reading(y, total, free), []);
      var l := Observe(y.l, Reading(y, total, free));
      && Possible(y, e) && Samples(e, total) && Next(y, e, {}) == y.(l := l)
      && l == y.l.(snap := Reading(y, total, free), boot := true)
      && GpuFresh(l, y.now)
  {
    hide HostOf, UnloadAt;
    assert Elements([]) == {};
    assert ClearedBy(y.l.marker, Reading(y, total, free)) == {};
    assert Lowered(y.l.cfg, y.l.reserved, {}) == y.l.reserved;
  }

  lemma ReadingRests(y: Sys, doubt: set<Model>, next: nat, r: Sys)
    requires r == y.(l := y.l.(snap := r.l.snap, boot := true))
    requires AtRest(y, doubt, next) && CInv(r)
    ensures AtRest(r, doubt, next)
  {
    hide CInv, Slots, Doubtful;
  }

  lemma TakesReading(y: Sys, doubt: set<Model>, next: nat, total: int, free: int) returns (r: Sys)
    requires y.now > 0 && 0 <= free <= total
    requires AtRest(y, doubt, next)
    ensures r == y.(l := y.l.(snap := Reading(y, total, free), boot := true)) && GpuFresh(r.l, r.now)
    ensures AtRest(r, doubt, next) && Reaches(y, r, total)
  {
    hide CInv, AtRest, Reaches, Possible, Next, Samples, Observe, GpuFresh, LedgerLaws.LedgerOK;
    RestSched(y, doubt, next);
    RestLedger(y, doubt, next);
    DeviceOK(y.l);
    ReadingTaken(y, total, free);
    var e := Observes(Reading(y, total, free), []);
    Keeps(y, e, {});
    r := Next(y, e, {});
    ReadingRests(y, doubt, next, r);
    ReachesNext(y, e, total);
  }

  lemma DeviceOK(l: Ledger)
    requires LedgerLaws.LedgerOK(l)
    ensures l.cfg.device != "" && BudgetOK(l.cfg)
  {
  }
}
