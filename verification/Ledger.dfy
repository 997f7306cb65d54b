/**
 The router's admission ledger as functions on values: reservations, residual markers,
 the eviction decision and the admission gate (internal/router/budget.go and the ledger
 parts of base.go and recover.go). The class in Router.dfy is proved against these.
 */
module Ledger {
  import opened Types
  import opened Admission
  import opened RuntimeStatus
  import opened Scheduler

  /** A model's peak (LoadBound) and what it leaves on the device once unloaded. */
  datatype Profile = Profile(peak: int, residual: int)

  datatype Budget = Budget(models: map<Model, Profile>, margin: int, device: string, maxAge: int)

  datatype Ledger = Ledger(
    cfg: Budget,
    reserved: map<Model, int>,
    marker: map<Model, int>,     // residualAfter: wait for a sample later than this
    snap: Snapshot,
    boot: bool,
    serial: Option<Model>,       // loadSerial: the admitted load that has not reported yet
    lastUse: map<Model, int>,
    loadedAt: map<Model, int>)

  type States = map<Model, State>

  /** What the configuration guarantees (config.go, toGPU and resource). */
  predicate BudgetOK(cfg: Budget) {
    && cfg.margin >= 0
    && cfg.device != ""
    && forall id :: id in cfg.models ==> 0 <= cfg.models[id].residual <= cfg.models[id].peak
  }

  // ---------------------------------------------------------------- sums over models

  function Total(f: map<Model, int>): int
    decreases |f|
  {
    if f == map[] then 0
    else
      var k := Least(f.Keys);
      assert |f - {k}| < |f| by { Shrinks(f, k); }
      f[k] + Total(f - {k})
  }

  lemma Shrinks(f: map<Model, int>, k: Model)
    requires k in f
    ensures |f - {k}| < |f|
  {
    assert (f - {k}).Keys == f.Keys - {k};
    assert |f.Keys - {k}| == |f.Keys| - 1;
  }

  /** The sum does not depend on the order in which the entries are taken. */
  lemma {:induction false} TotalTake(f: map<Model, int>, k: Model)
    requires k in f
    ensures Total(f) == f[k] + Total(f - {k})
    decreases |f|
  {
    var l := Least(f.Keys);
    if l != k {
      Shrinks(f, l);
      TotalTake(f - {l}, k);
      assert (f - {l}) - {k} == (f - {k}) - {l};
      Shrinks(f, k);
      TotalTake(f - {k}, l);
    }
  }

  lemma {:induction false} TotalMono(f: map<Model, int>, g: map<Model, int>)
    requires f.Keys <= g.Keys
    requires forall k :: k in f ==> f[k] <= g[k]
    requires forall k :: k in g ==> g[k] >= 0
    ensures Total(f) <= Total(g)
    decreases |g|
  {
    if g != map[] {
      var k := Least(g.Keys);
      TotalTake(g, k);
      Shrinks(g, k);
      if k in f {
        TotalTake(f, k);
        TotalMono(f - {k}, g - {k});
      } else {
        TotalMono(f, g - {k});
      }
    } else {
      assert f == map[];
    }
  }

  /** The same where entries of f that are not positive need no partner. */
  lemma {:induction false} TotalAtMost(f: map<Model, int>, g: map<Model, int>)
    requires forall k :: k in f ==> if k in g then f[k] <= g[k] else f[k] <= 0
    requires forall k :: k in g ==> g[k] >= 0
    ensures Total(f) <= Total(g)
    decreases |f|
  {
    if f == map[] {
      TotalMono(f, g);
    } else {
      var k := Least(f.Keys);
      TotalTake(f, k);
      Shrinks(f, k);
      if k in g {
        TotalTake(g, k);
        TotalAtMost(f - {k}, g - {k});
      } else {
        TotalAtMost(f - {k}, g);
      }
    }
  }

  lemma TotalUpdate(f: map<Model, int>, k: Model, v: int)
    ensures Total(f[k := v]) == Total(f) - (if k in f then f[k] else 0) + v
  {
    TotalTake(f[k := v], k);
    assert f[k := v] - {k} == f - {k};
    if k in f {
      TotalTake(f, k);
    } else {
      assert f - {k} == f;
    }
  }

  function Peaks(cfg: Budget): map<Model, int> {
    map id | id in cfg.models :: cfg.models[id].peak
  }

  // ---------------------------------------------------------------- bounds and fits

  function StateIn(st: States, id: Model): Option<State> {
    if id in st then Some(st[id]) else None
  }

  function BoundFor(l: Ledger, st: States, id: Model): Option<int>
    requires id in l.cfg.models
  {
    if id in l.reserved then Some(l.reserved[id])
    else
      match StateIn(st, id)
      case Some(Ready) | Some(Starting) | Some(Stopping) => Some(l.cfg.models[id].peak)
      case Some(Stopped) => Some(l.cfg.models[id].residual)
      case _ => None
  }

  /** Every model's hold, the target's being its peak. */
  function Holds(l: Ledger, st: States, target: Model): map<Model, int> {
    map id | id in l.cfg.models ::
      if id == target then l.cfg.models[id].peak
      else match BoundFor(l, st, id) case Some(b) => b case None => 0
  }

  predicate AllBound(l: Ledger, st: States, target: Model) {
    forall id :: id in l.cfg.models && id != target ==> BoundFor(l, st, id).Some?
  }

  /** The current free bytes cover every hold. */
  predicate FitsNow(l: Ledger, st: States, target: Model) {
    AllBound(l, st, target) && Covers(l.snap.free, l.cfg.margin, Total(Holds(l, st, target)))
  }

  predicate Residable(l: Ledger, st: States, id: Model) {
    id in l.marker
    || match StateIn(st, id)
       case None | Some(Unknown) | Some(Failed) | Some(Shutdown) => false
       case _ => true
  }

  /** Holds as they would be with every other unmarked model at its residual. */
  function RestHolds(l: Ledger, target: Model): map<Model, int> {
    map id | id in l.cfg.models ::
      if id == target || id in l.marker then l.cfg.models[id].peak else l.cfg.models[id].residual
  }

  predicate AllResidable(l: Ledger, st: States, target: Model) {
    forall id :: id in l.cfg.models && id != target ==> Residable(l, st, id)
  }

  predicate FitsIfRestResidual(l: Ledger, st: States, target: Model) {
    AllResidable(l, st, target) && Covers(l.snap.total, l.cfg.margin, Total(RestHolds(l, target)))
  }

  predicate AtResidual(l: Ledger, st: States, id: Model)
    requires id in l.cfg.models
  {
    id !in l.marker
    && BoundFor(l, st, id) == Some(l.cfg.models[id].residual)
    && StateIn(st, id) == Some(Stopped)
  }

  predicate OthersAtResidual(l: Ledger, st: States, target: Model) {
    forall id :: id in l.cfg.models && id != target ==> AtResidual(l, st, id)
  }

  predicate AdmitWithoutEvict(l: Ledger, st: States, target: Model) {
    FitsNow(l, st, target) || (FitsIfRestResidual(l, st, target) && OthersAtResidual(l, st, target))
  }

  function ObserveAge(cfg: Budget): int {
    if cfg.maxAge > 0 then cfg.maxAge else 5
  }

  predicate GpuFresh(l: Ledger, now: int) {
    l.boot && Fresh(l.snap, now, ObserveAge(l.cfg))
  }

  // ---------------------------------------------------------------- eviction

  function TimeOf(m: map<Model, int>, id: Model): int {
    if id in m then m[id] else 0
  }

  /** Last use, or the time of loading while it has never been used. */
  function Age(l: Ledger, id: Model): int {
    if TimeOf(l.lastUse, id) == 0 then TimeOf(l.loadedAt, id) else TimeOf(l.lastUse, id)
  }

  /** a goes before b: older, or as old with the smaller id. */
  predicate Before(l: Ledger, a: Model, b: Model) {
    Age(l, a) < Age(l, b) || (Age(l, a) == Age(l, b) && a <= b)
  }

  predicate Candidate(st: States, target: Model, id: Model) {
    id != target && StateIn(st, id) == Some(Ready)
  }

  /** The first candidate of a list, in the order above. */
  function Oldest(l: Ledger, st: States, running: seq<Model>, target: Model): Option<Model>
    decreases |running|
  {
    if running == [] then None
    else
      var rest := Oldest(l, st, running[1..], target);
      if !Candidate(st, target, running[0]) then rest
      else if rest.None? || Before(l, running[0], rest.value) then Some(running[0])
      else rest
  }

  /** The victim is a first candidate, and there is none only when there is no candidate. */
  lemma {:induction false} OldestIsFirst(l: Ledger, st: States, running: seq<Model>, target: Model)
    ensures var r := Oldest(l, st, running, target);
      && (r.Some? ==> r.value in running && Candidate(st, target, r.value))
      && forall id :: id in running && Candidate(st, target, id) ==> r.Some? && Before(l, r.value, id)
    decreases |running|
  {
    if running != [] {
      OldestIsFirst(l, st, running[1..], target);
    }
  }

  /** So the choice depends on which models run, not on the order a Go map lists them in. */
  lemma OldestAnyOrder(l: Ledger, st: States, a: seq<Model>, b: seq<Model>, target: Model)
    requires Elements(a) == Elements(b)
    ensures Oldest(l, st, a, target) == Oldest(l, st, b, target)
  {
    OldestIsFirst(l, st, a, target);
    OldestIsFirst(l, st, b, target);
    var x, y := Oldest(l, st, a, target), Oldest(l, st, b, target);
    assert forall id :: id in a <==> id in Elements(a);
    assert forall id :: id in b <==> id in Elements(b);
    if x.Some? {
      assert x.value in b;
    }
    if y.Some? {
      assert y.value in a;
    }
  }

  /** The models RunningModels reports. */
  function Running(st: States): set<Model> {
    set id | id in st && !st[id].Stopped? && !st[id].Unknown? && !st[id].Shutdown?
  }

  function Decide(l: Ledger, st: States, now: int, target: Model): Decision {
    if StateIn(st, target) == Some(Ready) then Evict([])
    else if !GpuFresh(l, now) then Refuse(NotBooted)
    else if AdmitWithoutEvict(l, st, target) then Evict([])
    else if !FitsIfRestResidual(l, st, target) then Refuse(Resources)
    else
      match Oldest(l, st, Sorted(Running(st)), target)
      case None => Refuse(Resources)
      case Some(v) => Evict([v])
  }

  // ---------------------------------------------------------------- updates

  function Reserve(l: Ledger, id: Model, bytes: int): Ledger {
    l.(reserved := l.reserved[id := bytes])
  }

  function AdmitLoad(l: Ledger, st: States, now: int, shutting: bool, id: Model): (Ledger, Option<Cause>) {
    if shutting then (l, Some(ShuttingDown))
    else if !GpuFresh(l, now) then (l, Some(NotBooted))
    else if l.serial.Some? && l.serial != Some(id) then (l, Some(Resources))
    else if !AdmitWithoutEvict(l, st, id) then (l, Some(Resources))
    else if id !in l.cfg.models then (l, Some(ModelNotFound))
    else (Reserve(l, id, l.cfg.models[id].peak).(serial := Some(id)), None)
  }

  function NoteUse(l: Ledger, now: int, id: Model): Ledger {
    l.(lastUse := l.lastUse[id := now])
  }

  function NoteRecoveredReady(l: Ledger, now: int, id: Model): Ledger {
    if TimeOf(l.loadedAt, id) == 0 && TimeOf(l.lastUse, id) == 0
    then l.(loadedAt := l.loadedAt[id := now]) else l
  }

  function NoteLoaded(l: Ledger, now: int, id: Model): Ledger {
    var l1 := l.(loadedAt := l.loadedAt[id := now],
                 lastUse := if TimeOf(l.lastUse, id) == 0 then l.lastUse[id := now] else l.lastUse);
    if id in l.cfg.models then Reserve(l1, id, l.cfg.models[id].peak) else l1
  }

  /** The swap-done branch of the event loop, before the scheduler hears of it. */
  function LoadReported(l: Ledger, now: int, id: Model, fault: Option<Fault>): Ledger {
    var l1 := if fault.None? then NoteLoaded(l, now, id) else l;
    if l.serial == Some(id) then l1.(serial := None) else l1
  }

  /** The markers a sample clears: it must be strictly later. */
  function ClearedBy(marker: map<Model, int>, snap: Snapshot): set<Model> {
    set id | id in marker && snap.at > marker[id]
  }

  predicate Usable(cfg: Budget, snap: Snapshot) {
    snap.ok && snap.device == cfg.device
  }

  /** The reservations once the cleared models are held at their residual. */
  function Lowered(cfg: Budget, reserved: map<Model, int>, cleared: set<Model>): map<Model, int> {
    map id | id in reserved.Keys + (cleared * cfg.models.Keys) ::
      if id in cleared && id in cfg.models then cfg.models[id].residual
      else if id in reserved then reserved[id] else 0
  }

  function Observe(l: Ledger, snap: Snapshot): Ledger {
    if !Usable(l.cfg, snap) then l.(snap := NO_SAMPLE, boot := false)
    else
      var cleared := ClearedBy(l.marker, snap);
      l.(snap := snap, boot := true, reserved := Lowered(l.cfg, l.reserved, cleared),
         marker := l.marker - cleared)
  }

  /** The successful half of finishUnload: mark at the time of the stop, then observe. */
  function MarkAll(l: Ledger, ids: seq<Model>, at: int): Ledger {
    l.(marker := map id | id in l.marker.Keys + Elements(ids) ::
                   if id in ids then at else if id in l.marker then l.marker[id] else at)
  }

  function UnloadReported(l: Ledger, ids: seq<Model>, at: int, sample: Snapshot): Ledger {
    Observe(MarkAll(l, ids, at), sample)
  }

  function EnsurePeak(l: Ledger, id: Model): Ledger {
    if id !in l.cfg.models then l
    else if id in l.reserved && l.reserved[id] >= l.cfg.models[id].peak then l
    else Reserve(l, id, l.cfg.models[id].peak)
  }

  /** A status read that came back to recovery. */
  datatype Result = Result(token: nat, model: Model, gen: nat, completedAt: int,
                           kind: ErrKind, rec: Class, active: nat, proof: nat)

  predicate CallsClient(ev: Result) {
    ev.kind.NoErr? && !ev.rec.RecInvalid?
  }

  function Later(l: Ledger, id: Model, at: int): int {
    if id in l.marker && l.marker[id] >= at then l.marker[id] else at
  }

  /** What an applied result leaves in the ledger. */
  function AppliedResult(l: Ledger, now: int, ev: Result): Ledger {
    match ev.rec
    case ReadyIdle =>
      NoteRecoveredReady(EnsurePeak(l, ev.model).(marker := l.marker - {ev.model}), now, ev.model)
    case UnloadedIdle | FailedNotResidentIdle =>
      EnsurePeak(l, ev.model).(marker := l.marker[ev.model := Later(l, ev.model, ev.completedAt)])
    case _ => EnsurePeak(l, ev.model)
  }

  /**
   A recovery result as one transaction. `ack` is the client's reply, and matters only
   when the client is asked at all.
   */
  function Recovered(l: Ledger, now: int, ev: Result, ack: Ack): Ledger {
    if ev.kind.EndpointDown? then l
    else if !CallsClient(ev) then EnsurePeak(l, ev.model)
    else
      match ack
      case Applied => AppliedResult(l, now, ev)
      case AckBusy => EnsurePeak(l, ev.model)
      case Stale => l
  }
}
