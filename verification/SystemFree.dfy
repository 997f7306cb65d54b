/**
 The gate admits a load when the free bytes cover every hold, or when the device would and
 all others are unloaded. In which routers do the free bytes cover every load it grants?
 */
module SystemFree {
  import opened Types
  import opened RuntimeStatus
  import opened Scheduler
  import opened Ledger
  import opened ClientLoop
  import LedgerLaws
  import opened System
  import opened SystemLaws
  import opened SystemPromises
  import opened SystemRuns
  import opened SystemGate
  import opened SystemCapacity
  import opened SystemFrozen
  import opened SystemRounds
  import opened SystemOvercommit
  import opened SystemUnloads

  /** The operation of m runs, and the gate would grant its load. */
  ghost predicate Granted(y: Sys, m: Model) {
    m in y.clients && y.clients[m].op.Some? && AdmitLoad(y.l, StatesOf(y.clients), y.now, false, m).1.None?
  }

  /** In every run on a device of this size the free bytes cover all holds whenever the gate grants a load. */
  ghost predicate FreeAlwaysCovers(y: Sys, total: int) {
    forall run, m :: IsRun(y, run) && OnDevice(run, total) && Granted(After(y, run), m) ==>
      FitsNow(After(y, run).l, StatesOf(After(y, run).clients), m)
  }

  function StoppingAt(y: Sys): set<Model> {
    set m | m in y.clients && y.clients[m].state.Stopping?
  }

  /** These models at their peaks, the others at their residuals. */
  function Lingering(cfg: Budget, ids: set<Model>): map<Model, int> {
    map id | id in cfg.models :: if id in ids then cfg.models[id].peak else cfg.models[id].residual
  }

  /** The target fits with all others unloaded, and then some byte must be there for it. */
  predicate Pinched(cfg: Budget, t: Model, total: int) {
    RoomFor(cfg, t, total) && cfg.margin + Total(Beside(cfg, t)) > 0
  }

  /**
   No model that was not ready at boot can be made room for; or those that were stopping
   do not fit with the rest unloaded; or no model that has room needs a byte.
   */
  predicate FreeCoversAtBoot(y: Sys, total: int) {
    || NoRoom(y, total)
    || Total(Lingering(y.l.cfg, StoppingAt(y))) > total - y.l.cfg.margin
    || forall t :: t in y.clients ==> !Pinched(y.l.cfg, t, total)
  }

  // ---------------------------------------------------------------- nothing can be made room for

  lemma GrantIsFresh(y: Sys, m: Model)
    requires Granted(y, m)
    ensures y.l.boot && AdmitWithoutEvict(y.l, StatesOf(y.clients), m)
  {
    hide AdmitWithoutEvict;
  }

  lemma FrozenGrants(y0: Sys, y: Sys, m: Model, total: int)
    requires Frozen(y0, y, total) && NoRoom(y0, total)
    requires CInv(y)
    ensures !Granted(y, m)
  {
    hide CInv, CallsInv, SnapOK, RoomFor, AdmitLoad, AdmitWithoutEvict, FitsIfRestResidual, UnloadsOK,
         LedgerLaws.LedgerOK;
    if Granted(y, m) {
      GrantIsFresh(y, m);
      ClientFacts(y, m);
      LedgerFacts(y);
      assert AsAtBoot(y0, y, m);
      NothingFits(y.l, StatesOf(y.clients), m, total);
    }
  }

  lemma NoneWithoutRoom(y: Sys, run: seq<Step>, m: Model, total: int)
    requires SnapOK(y.l, total) && NoRoom(y, total) && OnDevice(run, total)
    requires Boot(y) && IsRun(y, run)
    ensures !Granted(After(y, run), m)
  {
    hide Boot, CInv, IsRun, After, SnapOK, NoRoom, Frozen, Granted;
    BootHolds(y);
    BootFrozen(y, total);
    FrozenAlways(y, y, run, total);
    FrozenGrants(y, After(y, run), m, total);
  }

  // ---------------------------------------------------------------- those that were stopping stay in the way

  /** What was stopping at boot still is, and nothing else is known of it. */
  ghost predicate Lingers(y0: Sys, y: Sys, z: Model) {
    z in StoppingAt(y0) ==>
      z in y.clients && y.clients[z].state.Stopping? && z !in y.l.reserved && z !in y.s.unloadFail && !UnloadOf(y.s, z)
  }

  ghost predicate Crowded(y0: Sys, y: Sys, total: int) {
    && y.l.cfg == y0.l.cfg && y.clients.Keys == y0.clients.Keys && SnapOK(y.l, total) && y.s.out.loads == []
    && forall z :: z in y.clients ==> Lingers(y0, y, z)
  }

  lemma LingerHolds(y0: Sys, y: Sys, m: Model)
    requires y.l.cfg == y0.l.cfg && (forall z :: z in y.clients ==> Lingers(y0, y, z))
    requires y.clients.Keys == y.l.cfg.models.Keys
    requires LedgerLaws.LedgerOK(y.l) && AllBound(y.l, StatesOf(y.clients), m)
    ensures Total(Lingering(y0.l.cfg, StoppingAt(y0))) <= Total(Holds(y.l, StatesOf(y.clients), m))
  {
    var f, g := Lingering(y0.l.cfg, StoppingAt(y0)), Holds(y.l, StatesOf(y.clients), m);
    forall id | id in y.l.cfg.models
      ensures 0 <= f[id] <= g[id]
    {
      assert Lingers(y0, y, id);
      if id != m { assert BoundFor(y.l, StatesOf(y.clients), id).Some?; }
    }
    hide LedgerLaws.LedgerOK, AllBound, Holds, Lingering;
    TotalMono(f, g);
  }

  /** So no model is admissible. */
  lemma CrowdedOut(y0: Sys, y: Sys, m: Model, total: int)
    requires y.l.cfg == y0.l.cfg && (forall z :: z in y.clients ==> Lingers(y0, y, z))
    requires y.clients.Keys == y.l.cfg.models.Keys
    requires Total(Lingering(y0.l.cfg, StoppingAt(y0))) > total - y0.l.cfg.margin
    requires LedgerLaws.LedgerOK(y.l) && SnapOK(y.l, total) && y.l.boot
    ensures !AdmitWithoutEvict(y.l, StatesOf(y.clients), m)
  {
    hide LedgerLaws.LedgerOK, Lingers, Lingering, AdmitWithoutEvict, AllBound, Holds;
    if AdmitWithoutEvict(y.l, StatesOf(y.clients), m) {
      LedgerLaws.AdmissibleFits(y.l, StatesOf(y.clients), m);
      LingerHolds(y0, y, m);
    }
  }

  /** Recovery asks only about models in doubt, so not about one that is stopping. */
  lemma NotAsked(y: Sys, i: nat, z: Model)
    requires i < |y.s.out.probes| && z in y.clients && ClientOf(y, z).state.Stopping? && z !in y.s.unloadFail
    requires CInv(y)
    ensures y.s.out.probes[i].model != z
  {
    hide CInv, HostOf, Suspects, LoadOf, UnloadOf, Heavy;
    ProbedAlone(y, i);
    AskedInDoubt(y, y.s.out.probes[i].model);
  }

  /** Nothing raises or lowers what is held of a model that is stopping and not being loaded. */
  lemma StoppingHold(y: Sys, e: Event, gone: set<nat>, z: Model)
    requires Possible(y, e) && !AtClient(e) && y.s.out.loads == []
    requires z in y.clients && ClientOf(y, z).state.Stopping? && z !in y.s.unloadFail && z !in y.l.reserved
    requires CInv(y)
    ensures z !in Next(y, e, gone).l.reserved
  {
    hide CInv, Next, HostOf, MarkerGoes, RecoverMode, Usable, CallsInv, ClearedBy, MarkAll, UnloadsOK;
    HoldAfter(y, e, gone, z);
    if e.ProbeReturns? { NotAsked(y, e.i, z); }
    if e.GateAsked? { ClientFacts(y, e.m); }
  }

  lemma StoppingClient(y: Sys, e: Event, gone: set<nat>, z: Model)
    requires Possible(y, e) && !AtClient(e)
    requires z in y.clients && ClientOf(y, z).state.Stopping? && z !in y.s.unloadFail
    requires CInv(y)
    ensures z in Next(y, e, gone).clients && ClientOf(Next(y, e, gone), z) == ClientOf(y, z)
  {
    hide CInv, Next, HostOf, Usable, ClearedBy, MarkAll, UnloadAt;
    ClientsStay(y, e, gone);
    if e.ProbeReturns? { NotAsked(y, e.i, z); }
  }

  lemma LingersOutside(y0: Sys, y: Sys, e: Event, gone: set<nat>, z: Model)
    requires Possible(y, e) && !AtClient(e) && Lingers(y0, y, z) && y.s.out.loads == [] && z in y.clients
    requires CInv(y)
    ensures Lingers(y0, Next(y, e, gone), z)
  {
    hide CInv, Next, Possible, Taken, MarkerGoes, StoppingAt, NewUnloadAt, NewLoadAt;
    if z in StoppingAt(y0) {
      StoppingHold(y, e, gone, z);
      StoppingClient(y, e, gone, z);
      UnloadFailMoves(y, e, gone);
      JobsAfter(y, e, gone);
      NewVictim(y, e, gone, z);
    }
  }

  lemma AskedInDoubt(y: Sys, id: Model)
    requires id in y.clients && id in Suspects(HostOf(y, {}), y.s.unloadFail)
    ensures ClientOf(y, id).state.Failed? || ClientOf(y, id).state.Unknown? || id in y.s.unloadFail
  {
    hide Decide;
  }

  lemma StartIsAdmissible(r: Sys, m: Model)
    requires Started(r, m)
    ensures AdmitWithoutEvict(r.l, StatesOf(r.clients), m) && r.l.boot
  {
    hide AdmitWithoutEvict, LoadOf, InDoubt, Oldest, FitsIfRestResidual;
  }

  lemma NoLoadStarts(y0: Sys, y: Sys, e: Event, gone: set<nat>, total: int)
    requires Possible(y, e) && !AtClient(e) && y.s.out.loads == []
    requires var r := Next(y, e, gone);
      r.l.cfg == y0.l.cfg && SnapOK(r.l, total) && forall z :: z in r.clients ==> Lingers(y0, r, z)
    requires Total(Lingering(y0.l.cfg, StoppingAt(y0))) > total - y0.l.cfg.margin
    requires CInv(y)
    ensures Next(y, e, gone).s.out.loads == []
  {
    hide CInv, Next, Possible, Taken, Lingers, LedgerLaws.LedgerOK, SnapOK, Started, Lingering, StoppingAt,
         AdmitWithoutEvict;
    var r := Next(y, e, gone);
    JobsAfter(y, e, gone);
    if r.s.out.loads != [] {
      var m := r.s.out.loads[0].model;
      StartedSound(y, e, gone, m);
      StartIsAdmissible(r, m);
      Keeps(y, e, gone);
      LedgerFacts(r);
      CrowdedOut(y0, r, m, total);
    }
  }

  lemma CrowdedOutside(y0: Sys, y: Sys, e: Event, gone: set<nat>, total: int)
    requires Possible(y, e) && !AtClient(e) && Crowded(y0, y, total) && Samples(e, total)
    requires Total(Lingering(y0.l.cfg, StoppingAt(y0))) > total - y0.l.cfg.margin
    requires CInv(y)
    ensures Crowded(y0, Next(y, e, gone), total)
  {
    hide CInv, Next, Possible, Samples, Lingers, SnapOK, Lingering, StoppingAt;
    var r := Next(y, e, gone);
    KeysStay(y, e, gone);
    SnapKeeps(y, e, gone, total);
    forall z | z in r.clients
      ensures Lingers(y0, r, z)
    {
      LingersOutside(y0, y, e, gone, z);
    }
    NoLoadStarts(y0, y, e, gone, total);
  }

  lemma CrowdedAtClient(y0: Sys, y: Sys, e: Event, gone: set<nat>, total: int)
    requires Possible(y, e) && AtClient(e) && Crowded(y0, y, total)
    requires CInv(y)
    ensures Crowded(y0, Next(y, e, gone), total)
  {
    hide CInv, Next, SnapOK, CallsInv, StoppingAt, HostOf, UnloadOf;
    AtClientSame(y, e, gone);
    var r := Next(y, e, gone);
    var m := Moved(y, e);
    SameLoads(y, e, gone);
    forall z | z in r.clients
      ensures Lingers(y0, r, z)
    {
      assert Lingers(y0, y, z);
      SameJobs(y, e, gone, z);
      if z == m { MovedIsBusy(y, e); }
    }
  }

  /** A client that moves runs an operation or is being unloaded. */
  lemma MovedIsBusy(y: Sys, e: Event)
    requires Possible(y, e) && AtClient(e) && y.s.out.loads == []
    requires CInv(y)
    ensures Moved(y, e) in y.clients && (ClientOf(y, Moved(y, e)).state.Starting? || UnloadOf(y.s, Moved(y, e)))
  {
    hide CInv, CallsInv;
    OneJob(y);
    if e.OpReturns? { ClientFacts(y, e.m); }
  }

  lemma SameLoads(y: Sys, e: Event, gone: set<nat>)
    requires Possible(y, e) && AtClient(e) && y.s.out.loads == []
    ensures Next(y, e, gone).s.out.loads == []
  {
    hide HostOf, OnOpDone, BeginStop, EndStop;
  }

  lemma CrowdedKeeps(y0: Sys, y: Sys, e: Event, gone: set<nat>, total: int)
    requires Possible(y, e) && Crowded(y0, y, total) && Samples(e, total)
    requires Total(Lingering(y0.l.cfg, StoppingAt(y0))) > total - y0.l.cfg.margin
    requires CInv(y)
    ensures Crowded(y0, Next(y, e, gone), total)
  {
    hide CInv, Next, Possible, Crowded, Samples, Lingering, StoppingAt;
    if AtClient(e) { CrowdedAtClient(y0, y, e, gone, total); } else { CrowdedOutside(y0, y, e, gone, total); }
  }

  lemma {:induction false} CrowdedAlways(y0: Sys, y: Sys, run: seq<Step>, total: int)
    requires Crowded(y0, y, total) && OnDevice(run, total)
    requires Total(Lingering(y0.l.cfg, StoppingAt(y0))) > total - y0.l.cfg.margin
    requires IsRun(y, run) && CInv(y)
    ensures Crowded(y0, After(y, run), total) && CInv(After(y, run))
    decreases |run|
  {
    hide CInv, Possible, Next, Crowded, Samples, Lingering, StoppingAt;
    if run != [] {
      Keeps(y, run[0].event, run[0].gone);
      CrowdedKeeps(y0, y, run[0].event, run[0].gone, total);
      assert forall i :: 0 <= i < |run| - 1 ==> run[1..][i] == run[i + 1];
      CrowdedAlways(y0, Next(y, run[0].event, run[0].gone), run[1..], total);
    }
  }

  lemma BootCrowded(y: Sys, total: int)
    requires SnapOK(y.l, total)
    requires Boot(y)
    ensures Crowded(y, y, total)
  {
    hide Boot, SnapOK;
    BootFresh(y);
  }

  lemma NoneWhileLingering(y: Sys, run: seq<Step>, m: Model, total: int)
    requires SnapOK(y.l, total) && OnDevice(run, total)
    requires Total(Lingering(y.l.cfg, StoppingAt(y))) > total - y.l.cfg.margin
    requires Boot(y) && IsRun(y, run)
    ensures !Granted(After(y, run), m)
  {
    hide Boot, CInv, IsRun, After, SnapOK, Granted, Lingering, StoppingAt, AdmitWithoutEvict, LedgerLaws.LedgerOK,
         Lingers;
    BootHolds(y);
    BootCrowded(y, total);
    CrowdedAlways(y, y, run, total);
    var r := After(y, run);
    if Granted(r, m) {
      GrantIsFresh(r, m);
      LedgerFacts(r);
      CrowdedOut(y, r, m, total);
    }
  }

  // ---------------------------------------------------------------- nobody needs a byte

  lemma {:induction false} SnapAlways(y: Sys, run: seq<Step>, total: int)
    requires SnapOK(y.l, total) && OnDevice(run, total)
    requires IsRun(y, run) && CInv(y)
    ensures SnapOK(After(y, run).l, total) && CInv(After(y, run)) && After(y, run).l.cfg == y.l.cfg
    ensures After(y, run).clients.Keys == y.clients.Keys
    decreases |run|
  {
    hide CInv, Possible, Next, SnapOK, Samples;
    if run != [] {
      Keeps(y, run[0].event, run[0].gone);
      SnapKeeps(y, run[0].event, run[0].gone, total);
      KeysStay(y, run[0].event, run[0].gone);
      assert forall i :: 0 <= i < |run| - 1 ==> run[1..][i] == run[i + 1];
      SnapAlways(Next(y, run[0].event, run[0].gone), run[1..], total);
    }
  }

  /** A grant by the device total, with all others at their residual. */
  lemma UnpinchedFits(l: Ledger, st: States, m: Model, total: int)
    requires LedgerLaws.LedgerOK(l) && l.boot && SnapOK(l, total) && !Pinched(l.cfg, m, total)
    requires AdmitWithoutEvict(l, st, m)
    ensures FitsNow(l, st, m)
  {
    assert BudgetOK(l.cfg);
    hide Total, LedgerLaws.LedgerOK, AllBound, AllResidable, RestHolds, Beside, Holds, OthersAtResidual;
    if !FitsNow(l, st, m) {
      BesidePositive(l.cfg, m);
      LedgerLaws.ResidualHoldsAgree(l, st, m);
      RestIsBeside(l, st, m);
    }
  }

  lemma BesidePositive(cfg: Budget, m: Model)
    requires BudgetOK(cfg)
    ensures Total(Beside(cfg, m)) >= 0
  {
    TotalMono(map[], Beside(cfg, m));
  }

  lemma RestIsBeside(l: Ledger, st: States, m: Model)
    requires OthersAtResidual(l, st, m)
    ensures RestHolds(l, m) == Beside(l.cfg, m)
  {
    assert forall k :: k in l.cfg.models && k != m ==> AtResidual(l, st, k);
  }

  lemma CoveredUnpinched(y: Sys, run: seq<Step>, m: Model, total: int)
    requires SnapOK(y.l, total) && OnDevice(run, total)
    requires forall t :: t in y.clients ==> !Pinched(y.l.cfg, t, total)
    requires Granted(After(y, run), m)
    requires Boot(y) && IsRun(y, run)
    ensures FitsNow(After(y, run).l, StatesOf(After(y, run).clients), m)
  {
    hide Boot, CInv, IsRun, After, SnapOK, AdmitLoad, AdmitWithoutEvict, FitsNow, Pinched, LedgerLaws.LedgerOK;
    BootHolds(y);
    SnapAlways(y, run, total);
    LedgerFacts(After(y, run));
    GrantIsFresh(After(y, run), m);
    UnpinchedFits(After(y, run).l, StatesOf(After(y, run).clients), m, total);
  }

  // ---------------------------------------------------------------- a full device, everyone accounted for

  /** Ready and held at its peak if at all; or unloaded, at its residual; or stopping since boot. It has no calls. */
  ghost predicate Placed(y: Sys, m: Model)
    requires m in y.clients
  {
    && !Busy(y.s.work, m)
    && match y.clients[m].state
       case Ready => m in y.l.reserved ==> LedgerLaws.AtPeak(y.l, m)
       case Stopped => m in y.l.reserved ==> m in y.l.cfg.models && y.l.reserved[m] == y.l.cfg.models[m].residual
       case Stopping => m !in y.l.reserved
       case _ => false
  }

  ghost predicate AllPlaced(y: Sys) {
    y.l.serial.None? && y.l.marker == map[] && forall m :: m in y.clients ==> Placed(y, m)
  }

  lemma PutOffPlaced(y: Sys, r: Sys, w: Model, total: int)
    requires AllPlaced(y) && PutOff(y, r, w, total)
    ensures AllPlaced(r) && r.l.cfg == y.l.cfg
    ensures ReadyAt(r) == ReadyAt(y) - {w} && StoppingAt(r) == StoppingAt(y) - {w}
  {
    hide FullNow, Busy;
    forall m | m in r.clients
      ensures Placed(r, m)
    {
      assert m in y.clients && Placed(y, m);
      if m != w { SameBusy(y.s.work, r.s.work, m); }
    }
  }

  lemma SameBusy(w: Work, w': Work, m: Model)
    requires SameWork(w, w', m)
    ensures Busy(w', m) == Busy(w, m)
  {
    hide Slots;
  }

  lemma PlacedResidable(y: Sys, t: Model)
    requires AllPlaced(y) && y.clients.Keys == y.l.cfg.models.Keys
    ensures AllResidable(y.l, StatesOf(y.clients), t) && AllBound(y.l, StatesOf(y.clients), t)
    ensures RestHolds(y.l, t) == Beside(y.l.cfg, t)
  {
    hide Busy;
    forall id | id in y.l.cfg.models
      ensures Residable(y.l, StatesOf(y.clients), id) && BoundFor(y.l, StatesOf(y.clients), id).Some?
    {
      assert Placed(y, id);
    }
  }

  /** What is held while t is ready, or is the target, covers t beside the others' residuals. */
  lemma HeldBeside(y: Sys, e: Model, t: Model)
    requires AllPlaced(y) && LedgerLaws.LedgerOK(y.l) && y.clients.Keys == y.l.cfg.models.Keys
    requires t in y.clients && (e == t || ClientOf(y, t).state.Ready?)
    ensures Total(Beside(y.l.cfg, t)) <= Total(Holds(y.l, StatesOf(y.clients), e))
  {
    var f, g := Beside(y.l.cfg, t), Holds(y.l, StatesOf(y.clients), e);
    hide Busy;
    forall id | id in y.l.cfg.models
      ensures 0 <= f[id] <= g[id]
    {
      assert Placed(y, id);
    }
    hide LedgerLaws.LedgerOK, Holds, Beside, AllPlaced;
    TotalMono(f, g);
  }

  /** So with nothing free, it does not fit now. */
  lemma FullIsNotEnough(y: Sys, e: Model, t: Model, total: int)
    requires AllPlaced(y) && LedgerLaws.LedgerOK(y.l) && y.clients.Keys == y.l.cfg.models.Keys
    requires t in y.clients && (e == t || ClientOf(y, t).state.Ready?)
    requires FullNow(y, total) && Pinched(y.l.cfg, t, total)
    ensures !FitsNow(y.l, StatesOf(y.clients), e)
  {
    hide AllPlaced, LedgerLaws.LedgerOK, GpuFresh, Total, RoomFor, Holds, AllBound;
    HeldBeside(y, e, t);
    MarginOK(y.l);
  }

  lemma FullFitsRest(y: Sys, e: Model, total: int)
    requires AllPlaced(y) && LedgerLaws.LedgerOK(y.l) && y.clients.Keys == y.l.cfg.models.Keys
    requires FullNow(y, total) && RoomFor(y.l.cfg, e, total)
    ensures FitsIfRestResidual(y.l, StatesOf(y.clients), e)
  {
    assert BudgetOK(y.l.cfg);
    PlacedResidable(y, e);
    RoomPositive(y.l.cfg, e, total);
    hide AllPlaced, LedgerLaws.LedgerOK, GpuFresh, Total, RestHolds, AllResidable, AllBound;
  }

  // ---------------------------------------------------------------- everything ready is unloaded

  lemma ReadyElsewhere(y: Sys, e: Model, v: Model)
    requires v in y.clients && ClientOf(y, v).state.Ready? && v != e && v in y.l.cfg.models
    ensures !OthersAtResidual(y.l, StatesOf(y.clients), e)
  {
    assert !AtResidual(y.l, StatesOf(y.clients), v);
  }

  lemma OldestPicked(l: Ledger, st: States, now: int, e: Model, v: Model) returns (w: Model)
    requires StateIn(st, e) != Some(Ready) && GpuFresh(l, now) && Candidate(st, e, v)
    requires !AdmitWithoutEvict(l, st, e) && FitsIfRestResidual(l, st, e)
    ensures Decide(l, st, now, e) == Evict([w]) && Candidate(st, e, w)
  {
    hide AdmitWithoutEvict, FitsIfRestResidual, GpuFresh, Oldest;
    OldestIsFirst(l, st, Sorted(Running(st)), e);
    LedgerLaws.RunningListed(st);
    assert v in Running(st);
    w := Oldest(l, st, Sorted(Running(st)), e).value;
  }

  /** A request for a model that has room, but is not admissible, has one of the ready ones unloaded. */
  lemma PicksVictim(y: Sys, next: nat, e: Model, v: Model, total: int) returns (w: Model)
    requires AllPlaced(y) && FullNow(y, total) && e in y.clients && v in ReadyAt(y)
    requires RoomFor(y.l.cfg, e, total) && !ClientOf(y, e).state.Ready?
    requires !AdmitWithoutEvict(y.l, StatesOf(y.clients), e)
    requires AtRest(y, {}, next)
    ensures Victim(y, e, w)
  {
    hide CInv, AtRest, GpuFresh, RoomFor, AdmitWithoutEvict, FitsIfRestResidual, LedgerLaws.LedgerOK, Busy, Slots,
         Decide;
    RestLedger(y, {}, next);
    FullFitsRest(y, e, total);
    w := OldestPicked(y.l, StatesOf(y.clients), y.now, e, v);
    assert Placed(y, e) && Placed(y, w);
    IdleHasSlots(y.s.work, e);
  }

  /** With nothing free and somebody else ready, it is not admissible. */
  lemma Pressed(y: Sys, next: nat, e: Model, t: Model, v: Model, total: int)
    requires AllPlaced(y) && FullNow(y, total) && t in y.clients && e in y.clients && v in ReadyAt(y)
    requires Pinched(y.l.cfg, t, total) && !ClientOf(y, e).state.Ready? && (e == t || ClientOf(y, t).state.Ready?)
    requires AtRest(y, {}, next)
    ensures !AdmitWithoutEvict(y.l, StatesOf(y.clients), e)
  {
    hide CInv, AtRest, GpuFresh, Pinched, FitsNow, FitsIfRestResidual, OthersAtResidual, LedgerLaws.LedgerOK,
         AllPlaced;
    RestLedger(y, {}, next);
    FullIsNotEnough(y, e, t, total);
    ReadyElsewhere(y, e, v);
  }

  lemma IdleHasSlots(w: Work, m: Model)
    requires !Busy(w, m)
    ensures Slots(w, m) == 0
  {
  }

  lemma PutOffFull(y: Sys, r: Sys, w: Model, total: int)
    requires PutOff(y, r, w, total)
    ensures FullNow(r, total) && r.clients.Keys == y.clients.Keys && ClientOf(r, w).state.Stopped?
    ensures forall m :: m in y.clients && m != w ==> ClientOf(r, m) == ClientOf(y, m)
  {
    hide FullNow, Busy, SameWork;
  }

  lemma {:induction false} Empties(y: Sys, next: nat, e: Model, t: Model, total: int) returns (r: Sys, next': nat)
    requires AllPlaced(y) && FullNow(y, total) && t in y.clients && e in y.clients && total >= 0
    requires Pinched(y.l.cfg, t, total) && RoomFor(y.l.cfg, e, total) && !ClientOf(y, e).state.Ready?
    requires AtRest(y, {}, next)
    ensures AtRest(r, {}, next') && AllPlaced(r) && FullNow(r, total) && ReadyAt(r) == {}
    ensures StoppingAt(r) <= StoppingAt(y)
    ensures r.l.cfg == y.l.cfg && r.clients.Keys == y.clients.Keys && Reaches(y, r, total)
    decreases |ReadyAt(y)|
  {
    hide AtRest, AllPlaced, FullNow, Reaches, PutOff, Victim, Total, Beside, Next;
    if ReadyAt(y) == {} {
      ReachesItself(y, total);
      return y, next;
    }
    var v :| v in ReadyAt(y);
    var evictor := if y.clients[t].state.Ready? then e else t;
    Pressed(y, next, evictor, t, v, total);
    var w := PicksVictim(y, next, evictor, v, total);
    VictimFacts(y, evictor, w);
    var y1 := UnloadRound(y, next, evictor, w, total);
    RestBudget(y, {}, next);
    OneFewer(y, y1, w, total);
    r, next' := Empties(y1, next + 1, e, t, total);
    ReachesOn(y, y1, r, total);
  }

  // ---------------------------------------------------------------- those that were stopping are found unloaded

  lemma LingeringHolds(y: Sys, z: Model)
    requires AllPlaced(y) && LedgerLaws.LedgerOK(y.l) && y.clients.Keys == y.l.cfg.models.Keys
    requires z in StoppingAt(y) && ReadyAt(y) == {}
    ensures Total(Holds(y.l, StatesOf(y.clients), z)) <= Total(Lingering(y.l.cfg, StoppingAt(y)))
  {
    var f, g := Holds(y.l, StatesOf(y.clients), z), Lingering(y.l.cfg, StoppingAt(y));
    hide Busy;
    forall id | id in y.l.cfg.models
      ensures f[id] <= g[id] && g[id] >= 0
    {
      assert Placed(y, id) && id !in ReadyAt(y);
    }
    hide LedgerLaws.LedgerOK, Holds, Lingering, AllPlaced;
    TotalMono(f, g);
  }

  /** With everything free, a model still stopping may be loaded if all that are fit together. */
  lemma LingeringLoadable(y: Sys, z: Model, total: int)
    requires AllPlaced(y) && LedgerLaws.LedgerOK(y.l) && y.clients.Keys == y.l.cfg.models.Keys
    requires z in StoppingAt(y) && ReadyAt(y) == {} && GpuFresh(y.l, y.now) && y.l.snap.free == total
    requires Total(Lingering(y.l.cfg, StoppingAt(y))) <= total - y.l.cfg.margin && 0 <= y.l.cfg.margin <= total
    ensures Loadable(y, z)
  {
    LingeringHolds(y, z);
    PlacedResidable(y, z);
    assert Placed(y, z);
    IdleHasSlots(y.s.work, z);
    hide LedgerLaws.LedgerOK, AllPlaced, Holds, Lingering, GpuFresh, AllBound, Total, FitsIfRestResidual, Busy, Slots,
         Oldest, ReadyAt;
    assert FitsNow(y.l, StatesOf(y.clients), z);
  }

  lemma LessLingers(cfg: Budget, a: set<Model>, b: set<Model>)
    requires BudgetOK(cfg) && a <= b
    ensures Total(Lingering(cfg, a)) <= Total(Lingering(cfg, b))
  {
    TotalMono(Lingering(cfg, a), Lingering(cfg, b));
  }

  /** The load of z failed and z was found unloaded: that is being put off. */
  lemma GoneAsPutOff(y: Sys, y1: Sys, y2: Sys, r: Sys, z: Model, next: nat, total: int)
    requires y1 == y.(l := y.l.(snap := y1.l.snap, boot := true))
    requires LoadGaveUp(y1, y2, z, next) && PutOff(y2, r, z, total)
    requires AtRest(y, {}, next)
    ensures PutOff(y, r, z, total)
  {
    hide CInv, FullNow, Busy, Emptied;
  }

  lemma OneLeaves(y: Sys, next: nat, z: Model, total: int) returns (r: Sys)
    requires AllPlaced(y) && y.now > 0 && total >= 0
    requires z in StoppingAt(y) && ReadyAt(y) == {}
    requires Total(Lingering(y.l.cfg, StoppingAt(y))) <= total - y.l.cfg.margin && 0 <= y.l.cfg.margin <= total
    requires AtRest(y, {}, next)
    ensures AtRest(r, {}, next + 2) && PutOff(y, r, z, total) && Reaches(y, r, total)
  {
    hide Next, CInv, AtRest, AllPlaced, Reaches, PutOff, Loadable, LoadGaveUp, GpuFresh, LedgerLaws.LedgerOK, Total,
         Lingering;
    RestLedger(y, {}, next);
    var y1 := TakesReading(y, {}, next, total, total);
    RestLedger(y1, {}, next);
    ReadPlaced(y, y1);
    LingeringLoadable(y1, z, total);
    var y2 := LoadRoundFails(y1, next, z, total);
    r := DoubtUnloads(y2, next + 1, z, total);
    GoneAsPutOff(y, y1, y2, r, z, next, total);
    ReachesOn(y1, y2, r, total);
    ReachesOn(y, y1, r, total);
  }

  lemma ReadPlaced(y: Sys, r: Sys)
    requires AllPlaced(y) && r == y.(l := y.l.(snap := r.l.snap, boot := true))
    ensures AllPlaced(r) && r.l.serial.None? && ReadyAt(r) == ReadyAt(y) && StoppingAt(r) == StoppingAt(y)
  {
    hide Busy;
    forall m | m in r.clients ensures Placed(r, m) { assert Placed(y, m); }
  }

  lemma LateEnough(y: Sys, total: int)
    requires FullNow(y, total)
    ensures y.now > 0
  {
  }

  lemma OneLess(y: Sys, r: Sys, z: Model, t: Model, total: int)
    requires AllPlaced(y) && PutOff(y, r, z, total) && BudgetOK(y.l.cfg) && ReadyAt(y) == {} && z in StoppingAt(y) - {t}
    ensures AllPlaced(r) && FullNow(r, total) && ReadyAt(r) == {} && r.l.cfg == y.l.cfg
    ensures r.clients.Keys == y.clients.Keys
    ensures StoppingAt(r) - {t} < StoppingAt(y) - {t} && |StoppingAt(r) - {t}| < |StoppingAt(y) - {t}|
    ensures Total(Lingering(r.l.cfg, StoppingAt(r))) <= Total(Lingering(y.l.cfg, StoppingAt(y)))
  {
    hide AllPlaced, FullNow, PutOff, Total, Lingering, StoppingAt, ReadyAt, BudgetOK;
    PutOffPlaced(y, r, z, total);
    PutOffFull(y, r, z, total);
    LessLingers(y.l.cfg, StoppingAt(r), StoppingAt(y));
    assert StoppingAt(r) - {t} == StoppingAt(y) - {t} - {z};
  }

  lemma {:induction false} Leaves(y: Sys, next: nat, t: Model, total: int) returns (r: Sys, next': nat)
    requires AllPlaced(y) && FullNow(y, total) && total >= 0 && ReadyAt(y) == {}
    requires Total(Lingering(y.l.cfg, StoppingAt(y))) <= total - y.l.cfg.margin && 0 <= y.l.cfg.margin <= total
    requires AtRest(y, {}, next)
    ensures AtRest(r, {}, next') && AllPlaced(r) && FullNow(r, total) && ReadyAt(r) == {} && StoppingAt(r) <= {t}
    ensures r.l.cfg == y.l.cfg && r.clients.Keys == y.clients.Keys && Reaches(y, r, total)
    decreases |StoppingAt(y) - {t}|
  {
    hide AtRest, AllPlaced, FullNow, Reaches, PutOff, Total, Lingering, LedgerLaws.LedgerOK, CInv, ReadyAt,
         StoppingAt, BudgetOK, Next;
    if StoppingAt(y) <= {t} {
      ReachesItself(y, total);
      return y, next;
    }
    RestBudget(y, {}, next);
    LateEnough(y, total);
    assert StoppingAt(y) - {t} != {};
    var z :| z in StoppingAt(y) - {t};
    var y1 := OneLeaves(y, next, z, total);
    OneLess(y, y1, z, t, total);
    r, next' := Leaves(y1, next + 2, t, total);
    ReachesOn(y, y1, r, total);
  }

  // ---------------------------------------------------------------- the gate is asked

  /** All others are unloaded, so t is admissible by the device total. */
  lemma OffAdmits(y: Sys, t: Model, total: int)
    requires AllPlaced(y) && ReadyAt(y) == {} && StoppingAt(y) <= {t} && y.clients.Keys == y.l.cfg.models.Keys
    requires t in y.clients
    requires FullNow(y, total) && RoomFor(y.l.cfg, t, total) && LedgerLaws.LedgerOK(y.l)
    ensures AdmitWithoutEvict(y.l, StatesOf(y.clients), t)
  {
    hide Busy;
    forall id | id in y.l.cfg.models && id != t
      ensures AtResidual(y.l, StatesOf(y.clients), id)
    {
      assert Placed(y, id) && id !in ReadyAt(y) && id !in StoppingAt(y);
    }
    FullFitsRest(y, t, total);
    hide AllPlaced, LedgerLaws.LedgerOK, GpuFresh, FitsNow, FitsIfRestResidual, AtResidual;
  }

  /** Admission does not look at the target's own state. */
  lemma SameAdmission(l: Ledger, st: States, st': States, t: Model)
    requires st'.Keys == st.Keys && forall m :: m in st && m != t ==> st'[m] == st[m]
    ensures FitsNow(l, st', t) == FitsNow(l, st, t) && AdmitWithoutEvict(l, st', t) == AdmitWithoutEvict(l, st, t)
  {
    forall id | id in l.cfg.models && id != t
      ensures BoundFor(l, st, id) == BoundFor(l, st', id) && StateIn(st, id) == StateIn(st', id)
    {
      assert id in st <==> id in st';
    }
    assert Holds(l, st, t) == Holds(l, st', t);
    assert forall id :: id in l.cfg.models && id != t ==> Residable(l, st, id) == Residable(l, st', id);
    assert forall id :: id in l.cfg.models && id != t ==> AtResidual(l, st, id) == AtResidual(l, st', id);
  }

  lemma AdmissibleLoads(y: Sys, e: Model, total: int)
    requires AllPlaced(y) && FullNow(y, total) && e in y.clients && !ClientOf(y, e).state.Ready?
    requires AdmitWithoutEvict(y.l, StatesOf(y.clients), e)
    ensures Loadable(y, e)
  {
    assert Placed(y, e);
    IdleHasSlots(y.s.work, e);
    hide AllPlaced, GpuFresh, AdmitWithoutEvict, Slots, Busy, FitsIfRestResidual, Oldest;
  }

  lemma RunningGrant(y: Sys, x: Sys, e: Model, next: nat, total: int)
    requires AllPlaced(y) && FullNow(y, total) && e in y.clients && e in y.l.cfg.models && OpRuns(y, x, e, next)
    requires AdmitWithoutEvict(y.l, StatesOf(y.clients), e)
    ensures Granted(x, e) && x.l == y.l && FitsNow(x.l, StatesOf(x.clients), e) == FitsNow(y.l, StatesOf(y.clients), e)
  {
    hide Placed, GpuFresh, AdmitWithoutEvict, FitsNow;
    SameAdmission(y.l, StatesOf(y.clients), StatesOf(x.clients), e);
  }

  /** A model that is admissible has the gate grant its load, on the same ledger. */
  lemma Grants(y: Sys, next: nat, e: Model, total: int) returns (r: Sys)
    requires AllPlaced(y) && FullNow(y, total) && e in y.clients && !ClientOf(y, e).state.Ready?
    requires AdmitWithoutEvict(y.l, StatesOf(y.clients), e)
    requires AtRest(y, {}, next)
    ensures Granted(r, e) && r.l == y.l && FitsNow(r.l, StatesOf(r.clients), e) == FitsNow(y.l, StatesOf(y.clients), e)
    ensures Reaches(y, r, total)
  {
    hide Next, CInv, AtRest, AllPlaced, FullNow, Reaches, Loadable, OpRuns, LedgerLaws.LedgerOK, Granted,
         AdmitWithoutEvict, FitsNow;
    RestLedger(y, {}, next);
    AdmissibleLoads(y, e, total);
    r := LoadRuns(y, next, e, total);
    RunningGrant(y, r, e, next, total);
  }

  /** The gate grants t's load with nothing free. */
  ghost predicate GrantedFull(y: Sys, t: Model) {
    Granted(y, t) && y.l.snap.free == 0 && !FitsNow(y.l, StatesOf(y.clients), t)
  }

  lemma NotReadyNow(y: Sys, e: Model)
    requires ReadyAt(y) == {} && e in y.clients
    ensures !ClientOf(y, e).state.Ready?
  {
    assert e !in ReadyAt(y);
  }

  lemma AsksTheGate(y: Sys, next: nat, t: Model, total: int) returns (r: Sys)
    requires AllPlaced(y) && FullNow(y, total) && ReadyAt(y) == {} && StoppingAt(y) <= {t}
    requires t in y.clients && Pinched(y.l.cfg, t, total)
    requires AtRest(y, {}, next)
    ensures GrantedFull(r, t) && Reaches(y, r, total)
  {
    hide Next, CInv, AtRest, AllPlaced, Reaches, LedgerLaws.LedgerOK, Granted, RoomFor, Total, ReadyAt, StoppingAt,
         GpuFresh, AdmitWithoutEvict, FitsNow;
    RestLedger(y, {}, next);
    NotReadyNow(y, t);
    OffAdmits(y, t, total);
    FullIsNotEnough(y, t, t, total);
    r := Grants(y, next, t, total);
  }

  /** With ready models unloaded as needed, and the rest of those stopping, e is granted its load. */
  lemma {:induction false} MakesRoom(y: Sys, next: nat, e: Model, total: int) returns (r: Sys)
    requires AllPlaced(y) && FullNow(y, total) && e in y.clients && !ClientOf(y, e).state.Ready?
    requires RoomFor(y.l.cfg, e, total) && Total(Lingering(y.l.cfg, StoppingAt(y))) <= total - y.l.cfg.margin
    requires total >= 0 && 0 <= y.l.cfg.margin <= total
    requires AtRest(y, {}, next)
    ensures Granted(r, e) && Reaches(y, r, total)
    decreases |ReadyAt(y)|
  {
    hide AtRest, AllPlaced, FullNow, Reaches, PutOff, Victim, Total, Lingering, StoppingAt, RoomFor,
         AdmitWithoutEvict, Granted, FitsNow;
    if AdmitWithoutEvict(y.l, StatesOf(y.clients), e) {
      r := Grants(y, next, e, total);
    } else if ReadyAt(y) == {} {
      r := LastRoom(y, next, e, total);
    } else {
      var v :| v in ReadyAt(y);
      var w := PicksVictim(y, next, e, v, total);
      VictimFacts(y, e, w);
      var y1 := UnloadRound(y, next, e, w, total);
      RestBudget(y, {}, next);
      OneFewer(y, y1, w, total);
      r := MakesRoom(y1, next + 1, e, total);
      ReachesOn(y, y1, r, total);
    }
  }

  lemma RestBudget(y: Sys, doubt: set<Model>, next: nat)
    requires AtRest(y, doubt, next)
    ensures BudgetOK(y.l.cfg)
  {
    hide CInv, AtRest;
    RestLedger(y, doubt, next);
  }

  lemma OneFewer(y: Sys, r: Sys, w: Model, total: int)
    requires AllPlaced(y) && PutOff(y, r, w, total) && w in ReadyAt(y)
    requires BudgetOK(y.l.cfg)
    ensures AllPlaced(r) && FullNow(r, total) && r.l.cfg == y.l.cfg && r.clients.Keys == y.clients.Keys
    ensures |ReadyAt(r)| < |ReadyAt(y)| && StoppingAt(r) <= StoppingAt(y)
    ensures forall m :: m in y.clients && !ClientOf(y, m).state.Ready? ==> !ClientOf(r, m).state.Ready?
    ensures Total(Lingering(r.l.cfg, StoppingAt(r))) <= Total(Lingering(y.l.cfg, StoppingAt(y)))
  {
    hide AllPlaced, FullNow, PutOff, Total, Lingering, StoppingAt, BudgetOK;
    PutOffPlaced(y, r, w, total);
    PutOffFull(y, r, w, total);
    LessLingers(y.l.cfg, StoppingAt(r), StoppingAt(y));
  }

  lemma LastRoom(y: Sys, next: nat, e: Model, total: int) returns (r: Sys)
    requires AllPlaced(y) && FullNow(y, total) && e in y.clients && ReadyAt(y) == {}
    requires RoomFor(y.l.cfg, e, total) && Total(Lingering(y.l.cfg, StoppingAt(y))) <= total - y.l.cfg.margin
    requires total >= 0 && 0 <= y.l.cfg.margin <= total
    requires AtRest(y, {}, next)
    ensures Granted(r, e) && Reaches(y, r, total)
  {
    hide AtRest, AllPlaced, FullNow, Reaches, Total, Lingering, StoppingAt, RoomFor, AdmitWithoutEvict, Granted,
         FitsNow, CInv, LedgerLaws.LedgerOK, ReadyAt;
    var y1, n1 := Leaves(y, next, e, total);
    RestLedger(y1, {}, n1);
    NotReadyNow(y1, e);
    OffAdmits(y1, e, total);
    r := Grants(y1, n1, e, total);
    ReachesOn(y, y1, r, total);
  }

  // ---------------------------------------------------------------- from boot to there

  /** What recovery found ready. */
  lemma ReadyPlaced(y: Sys, r: Sys, done: set<Model>, m: Model)
    requires AllReady(y, r, done) && LedgerLaws.LedgerOK(r.l) && r.clients.Keys == r.l.cfg.models.Keys
    requires m in r.clients && m in done
    ensures Placed(r, m)
  {
    hide SameWork, Busy;
  }

  /** What was in no question at boot is as it was. */
  lemma BootPlaced(y: Sys, r1: Sys, r2: Sys, r3: Sys, done: set<Model>, m: Model)
    requires FailedFrom(y, r1, LoadingAt(y)) && r2 == r1.(now := r2.now) && AllReady(r2, r3, done)
    requires m in y.clients && m in r3.clients && m !in done && m !in QuestionAt(y) && !ClientOf(r3, m).state.Shutdown?
    requires Boot(y)
    ensures Placed(r3, m)
  {
    hide Boot, Busy, Slots;
    BootFresh(y);
    assert SameWork(r2.s.work, r3.s.work, m);
    SameBusy(y.s.work, r3.s.work, m);
  }

  lemma BootUnplaced(y: Sys, r1: Sys, r2: Sys, r3: Sys, e: Model)
    requires FailedFrom(y, r1, LoadingAt(y)) && r2 == r1.(now := r2.now) && AllReady(r2, r3, QuestionAt(y) - {e})
    requires e in y.clients && !ClientOf(y, e).state.Ready?
    requires Boot(y)
    ensures r3.l.serial.None? && r3.l.cfg == y.l.cfg && r3.clients.Keys == y.clients.Keys && r3.now == r2.now
    ensures !ClientOf(r3, e).state.Ready? && StoppingAt(r3) <= StoppingAt(y)
  {
    hide Boot, Busy, SameWork;
    BootFresh(y);
    assert QuestionAt(y) - {e} <= y.clients.Keys;
  }

  /** From boot the router can come to have settled everything but e, which is not ready. */
  lemma SettlesAround(y: Sys, e: Model, total: int) returns (r: Sys, next: nat)
    requires e in y.clients && !ClientOf(y, e).state.Ready?
    requires Boot(y)
    ensures AtRest(r, QuestionAt(y) * {e}, next) && r.l.serial.None? && r.l.cfg == y.l.cfg
    ensures r.clients.Keys == y.clients.Keys
    ensures r.now > 0 && !ClientOf(r, e).state.Ready? && StoppingAt(r) <= StoppingAt(y) && Reaches(y, r, total)
    ensures forall m :: m in r.clients && !(m == e && m in QuestionAt(y)) ==> Placed(r, m)
  {
    hide Boot, AtRest, Reaches, QuestionAt, LoadingAt, StoppingAt, FailedFrom, AllReady, CInv, LedgerLaws.LedgerOK,
         Placed;
    var q := QuestionAt(y);
    var r1 := BootFails(y);
    var r2 := Ticks(r1, q, 1, total);
    r, next := DoubtsSettle(r2, q, q - {e}, 1);
    QuestionsLeft(y, e);
    BootUnplaced(y, r1, r2, r, e);
    RestLedger(r, q * {e}, next);
    forall m | m in r.clients && !(m == e && m in q)
      ensures Placed(r, m)
    {
      NoShutdown(r, m);
      if m in q { ReadyPlaced(r2, r, q - {e}, m); } else { BootPlaced(y, r1, r2, r, q - {e}, m); }
    }
    ReachesOn(r1, r2, r, total);
    ReachesOn(y, r1, r, total);
  }

  lemma NoShutdown(r: Sys, m: Model)
    requires m in r.clients
    requires CInv(r)
    ensures !ClientOf(r, m).state.Shutdown?
  {
    hide CInv, ClientInv, UnloadsOK;
    ClientFacts(r, m);
  }

  lemma TargetPlaced(y: Sys, r: Sys, e: Model, total: int)
    requires PutOff(y, r, e, total) && y.l.serial.None? && y.l.marker == map[]
    requires forall m :: m in y.clients && m != e ==> Placed(y, m)
    ensures AllPlaced(r) && r.l.cfg == y.l.cfg && StoppingAt(r) <= StoppingAt(y)
  {
    hide FullNow, Busy;
    forall m | m in r.clients
      ensures Placed(r, m)
    {
      if m != e {
        assert Placed(y, m);
        SameBusy(y.s.work, r.s.work, m);
      }
    }
  }

  lemma ReadingFull(y: Sys, r: Sys, total: int)
    requires r == y.(l := y.l.(snap := Reading(y, total, 0), boot := true)) && y.now > 0 && GpuFresh(r.l, r.now)
    ensures FullNow(r, total)
  {
    hide GpuFresh;
  }

  lemma FillsUp(y: Sys, e: Model, total: int) returns (r: Sys, next: nat)
    requires e in y.clients && !ClientOf(y, e).state.Ready? && total >= 0
    requires Boot(y)
    ensures AtRest(r, {}, next) && AllPlaced(r) && FullNow(r, total) && r.l.cfg == y.l.cfg
    ensures r.clients.Keys == y.clients.Keys
    ensures !ClientOf(r, e).state.Ready? && StoppingAt(r) <= StoppingAt(y) && Reaches(y, r, total)
  {
    hide Boot, AtRest, Reaches, QuestionAt, StoppingAt, CInv, Placed, PutOff, FullNow, GpuFresh;
    var y1;
    y1, next := SettlesAround(y, e, total);
    RestSched(y1, QuestionAt(y) * {e}, next);
    if e in QuestionAt(y) {
      assert QuestionAt(y) * {e} == {e};
      r := DoubtUnloads(y1, next, e, total);
      next := next + 1;
      TargetPlaced(y1, r, e, total);
      PutOffFull(y1, r, e, total);
    } else {
      assert QuestionAt(y) * {e} == {};
      r := TakesReading(y1, {}, next, total, 0);
      ReadingFull(y1, r, total);
      assert AllPlaced(y1);
      ReadPlaced(y1, r);
    }
    ReachesOn(y, y1, r, total);
  }

  /** Then some run has the gate grant a load of t with nothing free. */
  lemma GrantsOnTotal(y: Sys, e: Model, t: Model, total: int) returns (r: Sys)
    requires e in y.clients && !ClientOf(y, e).state.Ready? && RoomFor(y.l.cfg, e, total)
    requires t in y.clients && Pinched(y.l.cfg, t, total)
    requires Total(Lingering(y.l.cfg, StoppingAt(y))) <= total - y.l.cfg.margin
    requires Boot(y)
    ensures GrantedFull(r, t) && Reaches(y, r, total)
  {
    hide Next, CInv, Boot, AtRest, Reaches, StoppingAt, ReadyAt, AllPlaced, FullNow, GrantedFull, Total, Lingering,
         RoomFor, Pinched;
    BootEmpty(y);
    RoomPositive(y.l.cfg, e, total);
    var y1, n1 := FillsUp(y, e, total);
    var y2, n2 := Empties(y1, n1, e, t, total);
    LessLingers(y.l.cfg, StoppingAt(y2), StoppingAt(y));
    var y3, n3 := Leaves(y2, n2, t, total);
    r := AsksTheGate(y3, n3, t, total);
    ReachesOn(y2, y3, r, total);
    ReachesOn(y1, y2, r, total);
    ReachesOn(y, y1, r, total);
  }

  // ---------------------------------------------------------------- exactly when

  lemma CoveredByBoot(y: Sys, run: seq<Step>, m: Model, total: int)
    requires SnapOK(y.l, total) && FreeCoversAtBoot(y, total) && OnDevice(run, total)
    requires Granted(After(y, run), m)
    requires Boot(y) && IsRun(y, run)
    ensures FitsNow(After(y, run).l, StatesOf(After(y, run).clients), m)
  {
    hide Boot, IsRun, After, OnDevice, SnapOK, NoRoom, Pinched, Lingering, StoppingAt, Total, Granted, FitsNow;
    if NoRoom(y, total) {
      NoneWithoutRoom(y, run, m, total);
    } else if Total(Lingering(y.l.cfg, StoppingAt(y))) > total - y.l.cfg.margin {
      NoneWhileLingering(y, run, m, total);
    } else {
      CoveredUnpinched(y, run, m, total);
    }
  }

  lemma UncoveredByBoot(y: Sys, total: int) returns (run: seq<Step>, t: Model)
    requires !FreeCoversAtBoot(y, total)
    requires Boot(y)
    ensures IsRun(y, run) && OnDevice(run, total) && GrantedFull(After(y, run), t)
  {
    hide Boot, IsRun, After, OnDevice, RoomFor, Pinched, Lingering, StoppingAt, Total, GrantedFull, Reaches;
    var e :| e in y.clients && !y.clients[e].state.Ready? && RoomFor(y.l.cfg, e, total);
    t :| t in y.clients && Pinched(y.l.cfg, t, total);
    var r := GrantsOnTotal(y, e, t, total);
    run := RunTo(y, r, total);
  }

  /** Some run has the gate grant a load. */
  ghost predicate EverGrants(y: Sys, total: int) {
    exists run, m :: IsRun(y, run) && OnDevice(run, total) && Granted(After(y, run), m)
  }

  lemma RoomIsMade(y: Sys, e: Model, total: int) returns (run: seq<Step>)
    requires e in y.clients && !ClientOf(y, e).state.Ready? && RoomFor(y.l.cfg, e, total)
    requires Total(Lingering(y.l.cfg, StoppingAt(y))) <= total - y.l.cfg.margin
    requires Boot(y)
    ensures IsRun(y, run) && OnDevice(run, total) && Granted(After(y, run), e)
  {
    hide Next, CInv, Boot, AtRest, Reaches, StoppingAt, ReadyAt, AllPlaced, FullNow, Granted, Total, Lingering,
         RoomFor, IsRun, After, OnDevice;
    BootEmpty(y);
    RoomPositive(y.l.cfg, e, total);
    var y1, n1 := FillsUp(y, e, total);
    LessLingers(y.l.cfg, StoppingAt(y1), StoppingAt(y));
    var r := MakesRoom(y1, n1, e, total);
    ReachesOn(y, y1, r, total);
    run := RunTo(y, r, total);
  }

  lemma RunTo(y: Sys, r: Sys, total: int) returns (run: seq<Step>)
    requires Reaches(y, r, total)
    ensures IsRun(y, run) && OnDevice(run, total) && After(y, run) == r
  {
    hide IsRun, After, OnDevice;
    run :| Leads(y, run, r, total);
  }

  /**
   The router can come to load anything through the gate if and only if some model that was
   not ready at boot can be made room for, and those that were stopping at boot fit together
   beside the residuals of the rest.
   */
  lemma LoadsAreGrantedExactly(y: Sys, total: int)
    requires SnapOK(y.l, total)
    requires Boot(y)
    ensures EverGrants(y, total) <==>
              !NoRoom(y, total) && Total(Lingering(y.l.cfg, StoppingAt(y))) <= total - y.l.cfg.margin
  {
    hide Boot, IsRun, After, OnDevice, SnapOK, RoomFor, Granted, Total, Lingering, StoppingAt;
    if !NoRoom(y, total) && Total(Lingering(y.l.cfg, StoppingAt(y))) <= total - y.l.cfg.margin {
      var e :| e in y.clients && !y.clients[e].state.Ready? && RoomFor(y.l.cfg, e, total);
      var run := RoomIsMade(y, e, total);
    } else {
      forall run, m | IsRun(y, run) && OnDevice(run, total)
        ensures !Granted(After(y, run), m)
      {
        if NoRoom(y, total) { NoneWithoutRoom(y, run, m, total); } else { NoneWhileLingering(y, run, m, total); }
      }
    }
  }

  /**
   In every run on a device of a given size the free bytes cover all holds whenever the gate
   grants a load, if and only if no model that was not ready at boot can be made room for,
   or those that were stopping at boot do not fit with the rest unloaded, or no model that
   can be made room for needs a byte. Otherwise a load is granted with nothing free.
   */
  lemma FreeCoversExactly(y: Sys, total: int)
    requires SnapOK(y.l, total)
    requires Boot(y)
    ensures FreeAlwaysCovers(y, total) <==> FreeCoversAtBoot(y, total)
    ensures !FreeCoversAtBoot(y, total) ==>
              exists run, t :: IsRun(y, run) && OnDevice(run, total) && GrantedFull(After(y, run), t)
  {
    hide Boot, IsRun, After, OnDevice, FreeCoversAtBoot, SnapOK, Granted, FitsNow;
    if FreeCoversAtBoot(y, total) {
      forall run, m | IsRun(y, run) && OnDevice(run, total) && Granted(After(y, run), m)
        ensures FitsNow(After(y, run).l, StatesOf(After(y, run).clients), m)
      {
        CoveredByBoot(y, run, m, total);
      }
    } else {
      var run, t := UncoveredByBoot(y, total);
    }
  }

  /** One model of 60 ready and one unloaded at boot, on a device of 100. */
  const HALF := BootOf(PAIR, map[0 := Some(WireReady), 1 := Some(WireUnloaded)])

  lemma PairHasRoom()
    ensures Pinched(PAIR, 1, 100) && Total(Lingering(PAIR, {})) == 10
  {
    hide Total;
    TotalOfTwo(Beside(PAIR, 1));
    TotalOfTwo(Lingering(PAIR, {}));
  }

  lemma HalfBoots()
    ensures Boot(HALF) && HALF.l.cfg == PAIR && 1 in HALF.clients && !ClientOf(HALF, 1).state.Ready?
    ensures StoppingAt(HALF) == {}
  {
    hide Boot;
    BootOfBoots(PAIR, map[0 := Some(WireReady), 1 := Some(WireUnloaded)]);
  }

  /** The other is loaded although the device reports nothing free. */
  lemma SecondLoadsOnAFullDevice()
    ensures exists run :: IsRun(HALF, run) && OnDevice(run, 100) && GrantedFull(After(HALF, run), 1)
  {
    hide Boot, IsRun, After, OnDevice, Total, BootOf, GrantedFull, Lingering, StoppingAt;
    HalfBoots();
    PairHasRoom();
    var r := GrantsOnTotal(HALF, 1, 1, 100);
    var run := RunTo(HALF, r, 100);
  }

  /** Both were being unloaded by their backends at boot. */
  const LEAVING := BootOf(PAIR, map[0 := Some(WireUnloading), 1 := Some(WireUnloading)])

  lemma LeavingBoots()
    ensures Boot(LEAVING) && SnapOK(LEAVING.l, 100) && LEAVING.l.cfg == PAIR && StoppingAt(LEAVING) == {0, 1}
  {
    hide Boot;
    BootOfBoots(PAIR, map[0 := Some(WireUnloading), 1 := Some(WireUnloading)]);
  }

  lemma PairLingers()
    ensures RoomFor(PAIR, 0, 100) && RoomFor(PAIR, 1, 100) && Total(Lingering(PAIR, {0, 1})) == 120
  {
    hide Total;
    TotalOfTwo(Beside(PAIR, 0));
    TotalOfTwo(Beside(PAIR, 1));
    TotalOfTwo(Lingering(PAIR, {0, 1}));
  }

  /** Each would fit with the other unloaded, but neither is ever loaded. */
  lemma TwoStoppingAreNeverLoaded()
    ensures Boot(LEAVING) && RoomFor(PAIR, 0, 100) && RoomFor(PAIR, 1, 100) && !EverGrants(LEAVING, 100)
  {
    hide Boot, IsRun, After, OnDevice, Total, BootOf, Granted, Lingering, StoppingAt, RoomFor, SnapOK, NoRoom;
    LeavingBoots();
    PairLingers();
    LoadsAreGrantedExactly(LEAVING, 100);
  }
}
