/** A router on which no model can be made room for: whatever was ready at boot stays, and nothing is ever loaded. */
module SystemFrozen {
  import opened Types
  import opened Scheduler
  import opened SchedulerLaws
  import opened SchedulerDispatch
  import opened Ledger
  import opened ClientLoop
  import LedgerLaws
  import opened System
  import opened SystemLaws
  import opened SystemPromises
  import opened SystemRuns
  import opened SystemGate
  import opened SystemCapacity

  predicate InQuestion(st: State) { st.Unknown? || st.Failed? || st.Starting? }

  /** The peaks of the models that were loading, failed or unknown at boot. */
  function Doubted(y: Sys): map<Model, int> {
    map id | id in y.l.cfg.models ::
      if id in y.clients && InQuestion(y.clients[id].state) then y.l.cfg.models[id].peak else 0
  }

  /** The target's peak beside the residuals of all others. */
  function Beside(cfg: Budget, target: Model): map<Model, int> {
    map id | id in cfg.models :: if id == target then cfg.models[id].peak else cfg.models[id].residual
  }

  predicate RoomFor(cfg: Budget, target: Model, total: int) {
    Total(Beside(cfg, target)) <= total - cfg.margin
  }

  /** No model that was not ready fits into the device, even with all others unloaded. */
  predicate NoRoom(y: Sys, total: int) {
    forall t :: t in y.clients && !y.clients[t].state.Ready? ==> !RoomFor(y.l.cfg, t, total)
  }

  /** What was ready or off the device at boot is as it was, and holds nothing. */
  ghost predicate AsAtBoot(y0: Sys, y: Sys, id: Model) {
    id in y0.clients && id in y.clients && !InQuestion(y0.clients[id].state) ==>
      y.clients[id].state == y0.clients[id].state && id !in y.l.reserved && id !in y.l.marker
  }

  ghost predicate NoJobs(s: Sched) { s.out.loads == [] && s.out.unloads == [] && s.unloadFail == {} }

  ghost predicate StillAsAtBoot(y0: Sys, y: Sys, total: int) {
    && y.l.cfg == y0.l.cfg && y.clients.Keys == y0.clients.Keys && SnapOK(y.l, total)
    && forall id :: id in y.clients ==> AsAtBoot(y0, y, id)
  }

  ghost predicate Frozen(y0: Sys, y: Sys, total: int) {
    StillAsAtBoot(y0, y, total) && NoJobs(y.s)
  }

  // ---------------------------------------------------------------- nothing is admissible

  lemma BesideHolds(l: Ledger, st: States, t: Model)
    requires LedgerLaws.LedgerOK(l) && AllBound(l, st, t)
    ensures Total(Beside(l.cfg, t)) <= Total(Holds(l, st, t))
  {
    TotalMono(Beside(l.cfg, t), Holds(l, st, t));
  }

  lemma BesideRest(l: Ledger, t: Model)
    requires LedgerLaws.LedgerOK(l)
    ensures Total(Beside(l.cfg, t)) <= Total(RestHolds(l, t))
  {
    TotalMono(Beside(l.cfg, t), RestHolds(l, t));
  }

  lemma NothingFits(l: Ledger, st: States, t: Model, total: int)
    requires LedgerLaws.LedgerOK(l) && l.boot && SnapOK(l, total) && !RoomFor(l.cfg, t, total)
    ensures !AdmitWithoutEvict(l, st, t) && !FitsIfRestResidual(l, st, t)
  {
    hide Total, LedgerLaws.LedgerOK, AllBound, AllResidable, OthersAtResidual;
    BesideRest(l, t);
    if AllBound(l, st, t) { BesideHolds(l, st, t); }
  }

  /** So the planner refuses every model that is not ready. */
  lemma NothingDecided(l: Ledger, st: States, now: int, t: Model, total: int)
    requires LedgerLaws.LedgerOK(l) && SnapOK(l, total) && !RoomFor(l.cfg, t, total)
    requires StateIn(st, t) != Some(Ready)
    ensures Decide(l, st, now, t).Refuse?
  {
    hide LedgerLaws.LedgerOK, AdmitWithoutEvict, FitsIfRestResidual, RoomFor;
    if l.boot { NothingFits(l, st, t, total); }
  }

  /** The head for which something was started is not ready, and the planner let it. */
  ghost predicate Planned(r: Sys) {
    && r.s.queued != [] && r.s.queued[0].model in r.clients && !r.clients[r.s.queued[0].model].state.Ready?
    && Decide(r.l, StatesOf(r.clients), r.now, r.s.queued[0].model).Evict?
  }

  lemma StartedByPlan(y: Sys, e: Event, gone: set<nat>)
    requires Possible(y, e) && !AtClient(e)
    requires CInv(y)
    ensures NewLoadAt(y, e, Next(y, e, gone)) || NewUnloadAt(y, e, Next(y, e, gone)) ==> Planned(Next(y, e, gone))
  {
    hide CInv, Next, Possible, Taken, Decide, HostOf, Story, StoryBase, Inv, Evidence;
    Keeps(y, e, gone);
    JobsAfter(y, e, gone);
    var r := Next(y, e, gone);
    if NewLoadAt(y, e, r) || NewUnloadAt(y, e, r) {
      HeadIsKnown(r);
      DecidedHere(r, gone, r.s.queued[0].model);
      StateHere(r, gone, r.s.queued[0].model);
    }
  }

  lemma StateHere(r: Sys, gone: set<nat>, m: Model)
    requires m in r.clients
    ensures StateOf(HostOf(r, gone), m) == ClientOf(r, m).state
  {
    hide Decide;
  }

  lemma NothingStarts(y0: Sys, y: Sys, e: Event, gone: set<nat>, total: int)
    requires Possible(y, e) && !AtClient(e) && NoRoom(y0, total) && StillAsAtBoot(y0, Next(y, e, gone), total)
    requires CInv(y)
    ensures !NewLoadAt(y, e, Next(y, e, gone)) && !NewUnloadAt(y, e, Next(y, e, gone))
  {
    hide CInv, Next, Possible, Taken, Decide, RoomFor, NewLoadAt, NewUnloadAt, LedgerLaws.LedgerOK, SnapOK;
    StartedByPlan(y, e, gone);
    var r := Next(y, e, gone);
    if NewLoadAt(y, e, r) || NewUnloadAt(y, e, r) {
      var t := r.s.queued[0].model;
      Keeps(y, e, gone);
      LedgerFacts(r);
      assert AsAtBoot(y0, r, t);
      NothingDecided(r.l, StatesOf(r.clients), r.now, t, total);
    }
  }

  // ---------------------------------------------------------------- every event

  lemma BootStateOutside(y0: Sys, y: Sys, e: Event, gone: set<nat>, id: Model)
    requires Possible(y, e) && !AtClient(e) && AsAtBoot(y0, y, id) && NoJobs(y.s)
    requires id in y.clients
    requires CInv(y)
    ensures AsAtBoot(y0, Next(y, e, gone), id)
  {
    hide CInv, Next, HostOf, RecoverMode, Usable, MarkAll, CallsInv, Suspects;
    ClientsStay(y, e, gone);
    HoldAfter(y, e, gone, id);
    MarkersAfter(y, e, gone, id);
    if e.ProbeReturns? {
      ProbedAlone(y, e.i);
      SuspectState(y, y.s.out.probes[e.i].model);
    }
    if e.GateAsked? { ClientFacts(y, e.m); }
  }

  lemma SuspectState(y: Sys, id: Model)
    requires id in y.clients && id in Suspects(HostOf(y, {}), y.s.unloadFail) && y.s.unloadFail == {}
    ensures InQuestion(ClientOf(y, id).state)
  {
    hide Decide;
  }

  lemma OpStaysFrozen(y0: Sys, y: Sys, m: Model, fault: Option<Fault>, total: int)
    requires m in y.clients && ClientOf(y, m).op.Some? && Frozen(y0, y, total)
    requires CInv(y)
    ensures Frozen(y0, AfterOp(y, m, fault), total)
  {
    hide CInv, CallsInv, SnapOK;
    ClientFacts(y, m);
    hide UnloadsOK;
    var r := AfterOp(y, m, fault);
    forall id | id in r.clients
      ensures AsAtBoot(y0, r, id)
    {
      assert AsAtBoot(y0, y, id);
    }
  }

  lemma FrozenOutside(y0: Sys, y: Sys, e: Event, gone: set<nat>, total: int)
    requires Possible(y, e) && !AtClient(e) && Frozen(y0, y, total) && NoRoom(y0, total) && Samples(e, total)
    requires CInv(y)
    ensures Frozen(y0, Next(y, e, gone), total)
  {
    hide CInv, Next, Possible, Samples, AsAtBoot, SnapOK, NoRoom, NewLoadAt, NewUnloadAt, MarkerGoes;
    var r := Next(y, e, gone);
    KeysStay(y, e, gone);
    SnapKeeps(y, e, gone, total);
    forall id | id in r.clients
      ensures AsAtBoot(y0, r, id)
    {
      BootStateOutside(y0, y, e, gone, id);
    }
    NothingStarts(y0, y, e, gone, total);
    JobsAfter(y, e, gone);
    UnloadFailMoves(y, e, gone);
  }

  lemma FrozenAtClient(y0: Sys, y: Sys, e: Event, gone: set<nat>, total: int)
    requires Possible(y, e) && AtClient(e) && Frozen(y0, y, total)
    requires CInv(y)
    ensures Frozen(y0, Next(y, e, gone), total)
  {
    hide CInv, HostOf, AfterOp, StillAsAtBoot;
    assert e.OpReturns?;
    OpStaysFrozen(y0, y, e.m, e.fault, total);
  }

  lemma FrozenKeeps(y0: Sys, y: Sys, e: Event, gone: set<nat>, total: int)
    requires Possible(y, e) && Frozen(y0, y, total) && NoRoom(y0, total) && Samples(e, total)
    requires CInv(y)
    ensures Frozen(y0, Next(y, e, gone), total)
  {
    hide CInv, Next, Possible, Frozen, Samples, NoRoom;
    if AtClient(e) { FrozenAtClient(y0, y, e, gone, total); } else { FrozenOutside(y0, y, e, gone, total); }
  }

  lemma {:induction false} FrozenAlways(y0: Sys, y: Sys, run: seq<Step>, total: int)
    requires Frozen(y0, y, total) && NoRoom(y0, total) && OnDevice(run, total)
    requires IsRun(y, run) && CInv(y)
    ensures Frozen(y0, After(y, run), total) && CInv(After(y, run))
    decreases |run|
  {
    hide CInv, Possible, Next, Frozen, Samples, NoRoom;
    if run != [] {
      Keeps(y, run[0].event, run[0].gone);
      FrozenKeeps(y0, y, run[0].event, run[0].gone, total);
      assert forall i :: 0 <= i < |run| - 1 ==> run[1..][i] == run[i + 1];
      FrozenAlways(y0, Next(y, run[0].event, run[0].gone), run[1..], total);
    }
  }

  lemma BootFrozen(y: Sys, total: int)
    requires SnapOK(y.l, total)
    requires Boot(y)
    ensures Frozen(y, y, total)
  {
    hide Boot, SnapOK;
    BootFresh(y);
  }

  lemma FrozenWithin(y0: Sys, y: Sys, total: int)
    requires Frozen(y0, y, total) && LedgerLaws.LedgerOK(y.l) && y.clients.Keys == y.l.cfg.models.Keys
    ensures Total(y.l.reserved) <= Total(Doubted(y0))
  {
    forall id | id in y.l.reserved
      ensures id in y.clients && InQuestion(y0.clients[id].state)
    {
      assert AsAtBoot(y0, y, id);
    }
    hide AsAtBoot, SnapOK;
    TotalAtMost(y.l.reserved, Doubted(y0));
  }

  /** Then only what was loading, failed or unknown at boot is ever held. */
  lemma NothingMoves(y: Sys, run: seq<Step>, total: int)
    requires SnapOK(y.l, total) && NoRoom(y, total) && OnDevice(run, total)
    requires Boot(y) && IsRun(y, run)
    ensures NoJobs(After(y, run).s) && Total(After(y, run).l.reserved) <= Total(Doubted(y))
    ensures After(y, run).l.cfg == y.l.cfg
  {
    hide Boot, CInv, IsRun, After, Total, Doubted, AsAtBoot, SnapOK, NoRoom, LedgerLaws.LedgerOK;
    BootHolds(y);
    BootFrozen(y, total);
    FrozenAlways(y, y, run, total);
    LedgerFacts(After(y, run));
    FrozenWithin(y, After(y, run), total);
  }
}
