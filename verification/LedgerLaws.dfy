/** What the ledger promises: evidence before bytes are freed, no over-commit, progress. */
module LedgerLaws {
  import opened Types
  import opened Admission
  import opened RuntimeStatus
  import opened Scheduler
  import opened Ledger

  // ---------------------------------------------------------------- shape and evidence

  /** Every reservation is a model's peak or its residual, and only models are marked. */
  ghost predicate LedgerOK(l: Ledger) {
    && BudgetOK(l.cfg)
    && (forall id :: id in l.reserved ==>
          id in l.cfg.models
          && (l.reserved[id] == l.cfg.models[id].peak || l.reserved[id] == l.cfg.models[id].residual))
    && (forall id :: id in l.marker ==> id in l.cfg.models)
  }

  /** The things that happen to the ledger, one per event of the router's loop. */
  datatype Happening =
    | Gate(st: States, now: int, shutting: bool, id: Model)
    | Used(now: int, id: Model)
    | Load(now: int, id: Model, fault: Option<Fault>)
    | Sample(snap: Snapshot)
    | Unload(ids: seq<Model>, at: int, snap: Snapshot)
    | Probe(now: int, ev: Result, ack: Ack)

  function Apply(l: Ledger, e: Happening): Ledger {
    match e
    case Gate(st, now, shutting, id) => AdmitLoad(l, st, now, shutting, id).0
    case Used(now, id) => NoteUse(l, now, id)
    case Load(now, id, fault) => LoadReported(l, now, id, fault)
    case Sample(snap) => Observe(l, snap)
    case Unload(ids, at, snap) => UnloadReported(l, ids, at, snap)
    case Probe(now, ev, ack) => Recovered(l, now, ev, ack)
  }

  /** Model ids in an event are configured ones. */
  ghost predicate Known(cfg: Budget, e: Happening) {
    match e
    case Unload(ids, _, _) => forall v :: v in ids ==> v in cfg.models
    case Probe(_, ev, _) => ev.model in cfg.models
    case _ => true
  }

  /** The gate, a use and a report only raise, and leave the markers alone. */
  lemma RaisesOnly(l: Ledger, e: Happening)
    requires LedgerOK(l) && (e.Gate? || e.Used? || e.Load?)
    ensures var r := Apply(l, e);
      && r.cfg == l.cfg && r.marker == l.marker && r.snap == l.snap && r.boot == l.boot
      && (r.reserved == l.reserved
          || exists id :: id in l.cfg.models && r.reserved == l.reserved[id := l.cfg.models[id].peak])
  {
    hide LedgerOK, AdmitWithoutEvict, GpuFresh, TimeOf;
    match e
    case Gate(_, _, _, id) => if id in l.cfg.models { assert l.cfg == Apply(l, e).cfg; }
    case Used(_, _) =>
    case Load(now, id, fault) => if fault.None? { NotesRaise(l, now, id); }
  }

  lemma NotesRaise(l: Ledger, now: int, id: Model)
    ensures var r := NoteLoaded(l, now, id);
      && r == l.(reserved := r.reserved, lastUse := r.lastUse, loadedAt := r.loadedAt)
      && (r.reserved == l.reserved
          || (id in l.cfg.models && r.reserved == l.reserved[id := l.cfg.models[id].peak]))
  {
  }

  lemma EnsurePeakSpec(l: Ledger, id: Model)
    ensures var r := EnsurePeak(l, id); r == l.(reserved := r.reserved)
  {
  }

  /** An applied result, field by field. */
  lemma AppliedSpec(l: Ledger, now: int, ev: Result)
    ensures var r := AppliedResult(l, now, ev);
      && r.cfg == l.cfg && r.snap == l.snap && r.boot == l.boot && r.serial == l.serial
      && r.reserved == EnsurePeak(l, ev.model).reserved
      && (ev.rec.ReadyIdle? ==> r.marker == l.marker - {ev.model})
      && (ev.rec.UnloadedIdle? || ev.rec.FailedNotResidentIdle? ==>
            r.marker == l.marker[ev.model := Later(l, ev.model, ev.completedAt)])
      && (!ev.rec.ReadyIdle? && !ev.rec.UnloadedIdle? && !ev.rec.FailedNotResidentIdle? ==> r.marker == l.marker)
  {
    hide EnsurePeak, Later, TimeOf;
    EnsurePeakSpec(l, ev.model);
  }

  /** So does a recovery result, for its own model. */
  lemma RecoveredRaises(l: Ledger, now: int, ev: Result, ack: Ack)
    requires ev.model in l.cfg.models
    ensures var r := Recovered(l, now, ev, ack);
      && r.cfg == l.cfg && r.snap == l.snap && r.boot == l.boot && r.serial == l.serial
      && (r.reserved == l.reserved || r.reserved == EnsurePeak(l, ev.model).reserved)
      && r.marker.Keys <= l.marker.Keys + {ev.model}
      && (CallsClient(ev) && ack.Stale? ==> r == l)
      && (CallsClient(ev) && ack.AckBusy? ==> r == EnsurePeak(l, ev.model))
      && (r.marker != l.marker ==> CallsClient(ev) && ack.Applied?)
      && (forall id :: id != ev.model ==>
            (id in r.marker <==> id in l.marker) && (id in r.marker ==> r.marker[id] == l.marker[id]))
  {
    hide AppliedResult;
    AppliedSpec(l, now, ev);
  }

  lemma RecoveredOK(l: Ledger, now: int, ev: Result, ack: Ack)
    requires LedgerOK(l) && ev.model in l.cfg.models
    ensures LedgerOK(Recovered(l, now, ev, ack))
  {
    hide Recovered;
    RecoveredRaises(l, now, ev, ack);
  }

  lemma ObserveOK(l: Ledger, snap: Snapshot)
    requires LedgerOK(l)
    ensures LedgerOK(Observe(l, snap)) && Observe(l, snap).cfg == l.cfg
  {
  }

  lemma MarkAllOK(l: Ledger, ids: seq<Model>, at: int)
    requires LedgerOK(l) && forall v :: v in ids ==> v in l.cfg.models
    ensures LedgerOK(MarkAll(l, ids, at)) && MarkAll(l, ids, at).cfg == l.cfg
  {
  }

  lemma ApplyOK(l: Ledger, e: Happening)
    requires LedgerOK(l) && Known(l.cfg, e)
    ensures LedgerOK(Apply(l, e)) && Apply(l, e).cfg == l.cfg
  {
    hide Recovered, Observe, MarkAll, AdmitLoad, LoadReported;
    match e
    case Sample(snap) => ObserveOK(l, snap);
    case Unload(ids, at, snap) => MarkAllOK(l, ids, at); ObserveOK(MarkAll(l, ids, at), snap);
    case Probe(now, ev, ack) => RecoveredOK(l, now, ev, ack); RecoveredRaises(l, now, ev, ack);
    case _ => RaisesOnly(l, e);
  }

  /** A recorded proof that the model is off the device, and a strictly later sample. */
  ghost predicate Evidence(l: Ledger, e: Happening, id: Model) {
    match e
    case Sample(snap) => Usable(l.cfg, snap) && id in l.marker && snap.at > l.marker[id]
    case Unload(ids, at, snap) =>
      Usable(l.cfg, snap) && ((id in ids && snap.at > at) || (id !in ids && id in l.marker && snap.at > l.marker[id]))
    case _ => false
  }

  /** A reservation falls, or disappears, only on such evidence; and then to the residual. */
  lemma FallsOnlyOnEvidence(l: Ledger, e: Happening, id: Model)
    requires LedgerOK(l) && Known(l.cfg, e) && id in l.reserved
    ensures var r := Apply(l, e);
      && id in r.reserved
      && (r.reserved[id] < l.reserved[id] ==> Evidence(l, e, id) && r.reserved[id] == l.cfg.models[id].residual)
  {
    hide Recovered, AdmitLoad, LoadReported;
    match e
    case Sample(snap) =>
    case Unload(ids, at, snap) =>
    case Probe(now, ev, ack) => RecoveredRaises(l, now, ev, ack);
    case _ => RaisesOnly(l, e);
  }

  /** The marker map never loses a proof except to a later sample or a model found ready. */
  lemma MarkersOnlyMoveForward(l: Ledger, e: Happening, id: Model)
    requires id in l.marker && !e.Unload?
    ensures var r := Apply(l, e);
      && (id in r.marker ==> r.marker[id] >= l.marker[id])
      && (id !in r.marker ==>
            Evidence(l, e, id)
            || (e.Probe? && e.ev.model == id && e.ack.Applied? && CallsClient(e.ev) && e.ev.rec.ReadyIdle?))
  {
  }

  /** A recovery result is all or nothing, and touches its own model only. */
  lemma RecoveryIsATransaction(l: Ledger, now: int, ev: Result, ack: Ack)
    requires ev.model in l.cfg.models
    ensures var r := Recovered(l, now, ev, ack);
      && (CallsClient(ev) && ack.Stale? ==> r == l)
      && (CallsClient(ev) && ack.AckBusy? ==>
            r == l.(reserved := r.reserved) && ev.model in r.reserved
            && r.reserved[ev.model] >= l.cfg.models[ev.model].peak)
      && (forall id :: id != ev.model ==>
            (id in r.reserved <==> id in l.reserved) && (id in r.reserved ==> r.reserved[id] == l.reserved[id])
            && (id in r.marker <==> id in l.marker) && (id in r.marker ==> r.marker[id] == l.marker[id]))
      && (r.marker != l.marker ==> CallsClient(ev) && ack.Applied?)
  {
    hide Recovered;
    RecoveredRaises(l, now, ev, ack);
  }

  // ---------------------------------------------------------------- no over-commit

  /** Holds with the reservations spelled out are at least the reservations themselves. */
  lemma HoldsCoverReserved(l: Ledger, st: States, id: Model)
    requires LedgerOK(l) && id in l.cfg.models && AllBound(l, st, id)
    ensures Total(Reserve(l, id, l.cfg.models[id].peak).reserved) <= Total(Holds(l, st, id))
  {
    TotalMono(Reserve(l, id, l.cfg.models[id].peak).reserved, Holds(l, st, id));
  }

  lemma ResidualHoldsAgree(l: Ledger, st: States, id: Model)
    requires OthersAtResidual(l, st, id)
    ensures Holds(l, st, id) == RestHolds(l, id) && AllBound(l, st, id)
  {
    assert forall k :: k in l.cfg.models && k != id ==> AtResidual(l, st, k);
  }

  /** What is admissible through either arm fits into the device, less the margin. */
  lemma AdmissibleFits(l: Ledger, st: States, id: Model)
    requires AdmitWithoutEvict(l, st, id) && l.snap.free <= l.snap.total
    ensures AllBound(l, st, id) && Total(Holds(l, st, id)) <= l.snap.total - l.cfg.margin
  {
    if !FitsNow(l, st, id) {
      ResidualHoldsAgree(l, st, id);
    }
  }

  /**
   Through either arm, a granted load leaves the target's peak plus every other hold
   within the device, less the margin; so do the reservations alone.
   */
  lemma NoOverCommit(l: Ledger, st: States, now: int, shutting: bool, id: Model)
    requires LedgerOK(l) && l.snap.free <= l.snap.total
    requires AdmitLoad(l, st, now, shutting, id).1.None?
    ensures Total(Holds(l, st, id)) <= l.snap.total - l.cfg.margin
    ensures Total(AdmitLoad(l, st, now, shutting, id).0.reserved) <= l.snap.total - l.cfg.margin
  {
    hide AdmitWithoutEvict, Total, Holds, AllBound;
    AdmissibleFits(l, st, id);
    HoldsCoverReserved(l, st, id);
  }

  /** The device keeps its size, and never reports more free than it has. */
  ghost predicate Sized(total: int, snap: Snapshot) {
    snap.ok ==> snap.total == total && 0 <= snap.free <= total
  }

  ghost predicate SampleSized(total: int, e: Happening) {
    match e
    case Sample(snap) => Sized(total, snap)
    case Unload(_, _, snap) => Sized(total, snap)
    case _ => true
  }

  /** What is held of a model. */
  function Held(l: Ledger, id: Model): int {
    if id in l.reserved then l.reserved[id] else 0
  }

  /** A recovery result that says something about its model, whose peak is not reserved. */
  predicate Raises(l: Ledger, ev: Result, ack: Ack) {
    && !ev.kind.EndpointDown? && !(CallsClient(ev) && ack.Stale?)
    && ev.model in l.cfg.models
    && !(ev.model in l.reserved && l.reserved[ev.model] >= l.cfg.models[ev.model].peak)
  }

  /**
   A recovery result changes the reservations exactly when the endpoint was up, the client
   was not of another generation, and the peak was not reserved yet: also on a failed read
   and on a nonsensical status, which nobody believes.
   */
  lemma RaisesExactly(l: Ledger, now: int, ev: Result, ack: Ack)
    requires LedgerOK(l) && ev.model in l.cfg.models
    ensures var r := Recovered(l, now, ev, ack).reserved;
      && (r != l.reserved <==> Raises(l, ev, ack))
      && (Raises(l, ev, ack) ==> r == l.reserved[ev.model := l.cfg.models[ev.model].peak])
  {
    hide AppliedResult;
    AppliedSpec(l, now, ev);
    if Raises(l, ev, ack) {
      var r := l.reserved[ev.model := l.cfg.models[ev.model].peak];
      assert ev.model in r && r[ev.model] == l.cfg.models[ev.model].peak;
    }
  }

  /** What an event adds to each reservation, read off before it happens; the gate's own are not counted. */
  function Change(l: Ledger, e: Happening): map<Model, int> {
    match e
    case Load(_, id, fault) =>
      if fault.None? && id in l.cfg.models then map[id := l.cfg.models[id].peak - Held(l, id)] else map[]
    case Sample(snap) => if Usable(l.cfg, snap) then Drops(l, ClearedBy(l.marker, snap)) else map[]
    case Unload(ids, at, snap) =>
      if Usable(l.cfg, snap) then Drops(l, ClearedBy(MarkAll(l, ids, at).marker, snap)) else map[]
    case Probe(_, ev, ack) =>
      if Raises(l, ev, ack) then map[ev.model := l.cfg.models[ev.model].peak - Held(l, ev.model)] else map[]
    case _ => map[]
  }

  /** From what is held to the residuals. */
  function Drops(l: Ledger, cleared: set<Model>): map<Model, int> {
    map id | id in cleared && id in l.cfg.models :: l.cfg.models[id].residual - Held(l, id)
  }

  lemma {:induction false} DropsTotal(l: Ledger, cleared: set<Model>)
    ensures Total(Lowered(l.cfg, l.reserved, cleared)) == Total(l.reserved) + Total(Drops(l, cleared))
    decreases |cleared|
  {
    if cleared == {} {
      assert Lowered(l.cfg, l.reserved, {}) == l.reserved && Drops(l, {}) == map[];
    } else {
      var id :| id in cleared;
      var rest := cleared - {id};
      DropsTotal(l, rest);
      assert cleared == rest + {id};
      OneDrop(l, rest, id);
    }
  }

  lemma OneDrop(l: Ledger, rest: set<Model>, id: Model)
    requires id !in rest
    ensures Total(Lowered(l.cfg, l.reserved, rest + {id})) - Total(Lowered(l.cfg, l.reserved, rest))
         == Total(Drops(l, rest + {id})) - Total(Drops(l, rest))
  {
    var low, low' := Lowered(l.cfg, l.reserved, rest), Lowered(l.cfg, l.reserved, rest + {id});
    hide Total;
    if id in l.cfg.models {
      assert low' == low[id := l.cfg.models[id].residual];
      TotalUpdate(low, id, l.cfg.models[id].residual);
      assert Drops(l, rest + {id}) == Drops(l, rest)[id := l.cfg.models[id].residual - Held(l, id)];
      TotalUpdate(Drops(l, rest), id, l.cfg.models[id].residual - Held(l, id));
    } else {
      assert low' == low && Drops(l, rest + {id}) == Drops(l, rest);
    }
  }

  lemma OneChange(f: map<Model, int>, id: Model, bytes: int)
    ensures Total(f[id := bytes]) == Total(f) + Total(map[id := bytes - (if id in f then f[id] else 0)])
  {
    hide Total;
    TotalUpdate(f, id, bytes);
    TotalUpdate(map[], id, bytes - (if id in f then f[id] else 0));
    assert Total(map[]) == 0 by { EmptyTotal(); }
  }

  lemma EmptyTotal()
    ensures Total(map[]) == 0
  {
  }

  /** The sum moves by exactly that. */
  lemma ChangesBy(l: Ledger, e: Happening)
    requires LedgerOK(l) && Known(l.cfg, e) && !e.Gate?
    ensures Total(Apply(l, e).reserved) == Total(l.reserved) + Total(Change(l, e))
  {
    hide Total, Recovered, LedgerOK, Drops, ClearedBy, EnsurePeak, Raises;
    EmptyTotal();
    match e
    case Load(_, id, fault) => if id in l.cfg.models { OneChange(l.reserved, id, l.cfg.models[id].peak); }
    case Sample(snap) => DropsTotal(l, ClearedBy(l.marker, snap));
    case Unload(ids, at, snap) =>
      DropsTotal(MarkAll(l, ids, at), ClearedBy(MarkAll(l, ids, at).marker, snap));
      SameDrops(l, MarkAll(l, ids, at), ClearedBy(MarkAll(l, ids, at).marker, snap));
    case Probe(now, ev, ack) =>
      RaisesExactly(l, now, ev, ack);
      OneChange(l.reserved, ev.model, l.cfg.models[ev.model].peak);
    case Used(_, _) =>
  }

  lemma SameDrops(l: Ledger, r: Ledger, cleared: set<Model>)
    requires r.reserved == l.reserved && r.cfg == l.cfg
    ensures Drops(l, cleared) == Drops(r, cleared)
  {
  }

  /** The reservations fit into the device, less the margin. */
  ghost predicate WithinDevice(l: Ledger, total: int) {
    Total(l.reserved) <= total - l.cfg.margin
  }

  /**
   Whatever happens to a ledger that is within the device leaves it there if and only if
   it goes through the gate, or what it adds, read off beforehand, still fits.
   */
  lemma StaysWithinExactly(l: Ledger, e: Happening, total: int)
    requires LedgerOK(l) && Known(l.cfg, e) && (l.boot ==> Sized(total, l.snap) && l.snap.ok)
    requires WithinDevice(l, total)
    ensures WithinDevice(Apply(l, e), total) <==>
              e.Gate? || Total(l.reserved) + Total(Change(l, e)) <= total - l.cfg.margin
  {
    hide Total, Recovered, Observe, MarkAll, LoadReported, Change, LedgerOK, Known, Apply;
    ApplyOK(l, e);
    if e.Gate? {
      GateStaysWithin(l, e, total);
    } else {
      ChangesBy(l, e);
    }
  }

  lemma GateStaysWithin(l: Ledger, e: Happening, total: int)
    requires e.Gate? && LedgerOK(l) && (l.boot ==> Sized(total, l.snap) && l.snap.ok) && WithinDevice(l, total)
    ensures WithinDevice(Apply(l, e), total)
  {
    hide Total, LedgerOK, AdmitWithoutEvict;
    if AdmitLoad(l, e.st, e.now, e.shutting, e.id).1.None? {
      NoOverCommit(l, e.st, e.now, e.shutting, e.id);
    }
  }

  // ---------------------------------------------------------------- one model's reservation

  ghost predicate SameHold(l: Ledger, r: Ledger, id: Model) {
    (id in r.reserved <==> id in l.reserved) && (id in l.reserved ==> r.reserved[id] == l.reserved[id])
  }

  ghost predicate AtPeak(l: Ledger, id: Model) {
    id in l.cfg.models && id in l.reserved && l.reserved[id] == l.cfg.models[id].peak
  }

  /** The events that may raise the model's reservation. */
  predicate Lifts(e: Happening, id: Model) {
    match e
    case Gate(_, _, _, m) => m == id
    case Load(_, m, fault) => m == id && fault.None?
    case Probe(_, ev, _) => ev.model == id && !ev.kind.EndpointDown?
    case _ => false
  }

  /** A reservation stays, is raised to the peak, or falls to the residual on evidence. */
  lemma HoldMoves(l: Ledger, e: Happening, id: Model)
    requires LedgerOK(l) && Known(l.cfg, e) && id in l.cfg.models
    ensures var r := Apply(l, e);
      || SameHold(l, r, id)
      || (AtPeak(r, id) && Lifts(e, id))
      || (Evidence(l, e, id) && id in r.reserved && r.reserved[id] == l.cfg.models[id].residual)
  {
    hide AdmitWithoutEvict, GpuFresh, TimeOf, Recovered, Observe, MarkAll, Usable, LedgerOK;
    match e
    case Sample(snap) => SampleHolds(l, snap, id);
    case Unload(ids, at, snap) => MarkedBy(l, ids, at, snap, id); SampleHolds(MarkAll(l, ids, at), snap, id);
    case Probe(now, ev, ack) => ProbeHolds(l, now, ev, ack, id);
    case _ => RaisesOnly(l, e);
  }

  lemma SampleHolds(l: Ledger, snap: Snapshot, id: Model)
    requires id in l.cfg.models
    ensures var r := Observe(l, snap);
      if Usable(l.cfg, snap) && id in ClearedBy(l.marker, snap)
      then id in r.reserved && r.reserved[id] == l.cfg.models[id].residual
      else SameHold(l, r, id)
  {
  }

  lemma MarkedBy(l: Ledger, ids: seq<Model>, at: int, snap: Snapshot, id: Model)
    ensures var m := MarkAll(l, ids, at);
      m.cfg == l.cfg && m.reserved == l.reserved
      && (Usable(l.cfg, snap) && id in ClearedBy(m.marker, snap) <==> Evidence(l, Unload(ids, at, snap), id))
  {
  }

  lemma ProbeHolds(l: Ledger, now: int, ev: Result, ack: Ack, id: Model)
    requires LedgerOK(l) && ev.model in l.cfg.models && id in l.cfg.models
    ensures var r := Recovered(l, now, ev, ack);
      SameHold(l, r, id) || (AtPeak(r, id) && ev.model == id && !ev.kind.EndpointDown?)
  {
    hide Recovered;
    RecoveredRaises(l, now, ev, ack);
    RaisesExactly(l, now, ev, ack);
  }

  /** A recovery result marks only a model whose peak it holds. */
  lemma MarksAtPeak(l: Ledger, e: Happening, id: Model)
    requires LedgerOK(l) && Known(l.cfg, e) && e.Probe?
    ensures id in Apply(l, e).marker ==> id in l.marker || (e.ev.model == id && AtPeak(Apply(l, e), id))
  {
    hide Recovered, LedgerOK, AtPeak;
    RecoveredRaises(l, e.now, e.ev, e.ack);
    if e.ev.model == id && Recovered(l, e.now, e.ev, e.ack).marker != l.marker { IsLifted(l, e); }
  }

  /** What the reported or applied results are sure to have raised. */
  lemma IsLifted(l: Ledger, e: Happening)
    requires LedgerOK(l) && Known(l.cfg, e)
    ensures e.Load? && e.fault.None? && e.id in l.cfg.models ==> AtPeak(Apply(l, e), e.id)
    ensures e.Probe? && e.ack.Applied? && !e.ev.kind.EndpointDown? ==> AtPeak(Apply(l, e), e.ev.model)
  {
    hide TimeOf, Recovered;
    if e.Probe? {
      RecoveredRaises(l, e.now, e.ev, e.ack);
      RaisesExactly(l, e.now, e.ev, e.ack);
    }
  }

  // ---------------------------------------------------------------- eviction progress

  lemma RunningListed(st: States)
    ensures forall id :: id in Sorted(Running(st)) <==> id in Running(st)
  {
    var r := Sorted(Running(st));
    assert forall id :: id in r <==> id in Elements(r);
  }

  /** The eviction decision names at most one ready model, the oldest,
      and only when unloading can help and is needed. */
  lemma DecideEvicts(l: Ledger, st: States, now: int, target: Model)
    ensures var d := Decide(l, st, now, target);
      && (d.Evict? && d.ids != [] ==>
            |d.ids| == 1 && Candidate(st, target, d.ids[0])
            && !AdmitWithoutEvict(l, st, target) && FitsIfRestResidual(l, st, target)
            && forall id :: Candidate(st, target, id) ==> Before(l, d.ids[0], id))
      && (StateIn(st, target) == Some(Ready) ==> d == Evict([]))
  {
    OldestIsFirst(l, st, Sorted(Running(st)), target);
    RunningListed(st);
  }

  /** Other models that are ready. */
  function ReadyOthers(l: Ledger, st: States, target: Model): set<Model> {
    set id | id in l.cfg.models && Candidate(st, target, id)
  }

  /** The target fits once the rest is unloaded, and the rest can be, or already is. */
  ghost predicate CanMakeRoom(l: Ledger, st: States, now: int, target: Model) {
    && LedgerOK(l) && target in l.cfg.models && st.Keys == l.cfg.models.Keys
    && st[target] != Ready
    && GpuFresh(l, now) && FitsIfRestResidual(l, st, target)
    && forall id :: id in l.cfg.models && id != target ==>
         id !in l.marker && (st[id].Ready? || AtResidual(l, st, id))
  }

  /** The world after a confirmed unload of v at time `at`, seen by a sample. */
  function Unloaded(l: Ledger, v: Model, at: int, snap: Snapshot): Ledger {
    UnloadReported(l, [v], at, snap)
  }

  /** A sample for the next round: of the same device, after the unload, and fresh when used. */
  datatype Round = Round(at: int, snap: Snapshot, now: int)

  ghost predicate RoundOK(l: Ledger, r: Round) {
    Usable(l.cfg, r.snap) && r.snap.at > r.at && r.snap.total == l.snap.total
    && Fresh(r.snap, r.now, ObserveAge(l.cfg))
  }

  /** With these samples, deciding and unloading in turn ends in an admission. */
  ghost predicate AdmitsWithin(l: Ledger, st: States, now: int, target: Model, rounds: seq<Round>)
    decreases |rounds|
  {
    var d := Decide(l, st, now, target);
    d.Evict?
    && (d.ids == [] ==> l.serial.None? || l.serial == Some(target) ==> AdmitLoad(l, st, now, false, target).1.None?)
    && (d.ids != [] ==>
          |d.ids| == 1 && rounds != []
          && AdmitsWithin(Unloaded(l, d.ids[0], rounds[0].at, rounds[0].snap), st[d.ids[0] := Stopped],
                          rounds[0].now, target, rounds[1..]))
  }

  lemma RoomDecides(l: Ledger, st: States, now: int, target: Model)
    requires CanMakeRoom(l, st, now, target)
    ensures Decide(l, st, now, target).Evict?
  {
    OldestIsFirst(l, st, Sorted(Running(st)), target);
    RunningListed(st);
    if Oldest(l, st, Sorted(Running(st)), target).None? {
      assert forall id :: id in l.cfg.models && id != target ==> !Candidate(st, target, id);
      assert OthersAtResidual(l, st, target);
    }
  }

  /** Unloading one model touches the reservation of that one, and no marker survives on it. */
  lemma UnloadedSpec(l: Ledger, v: Model, r: Round)
    requires LedgerOK(l) && v in l.cfg.models && RoundOK(l, r)
    ensures var l' := Unloaded(l, v, r.at, r.snap);
      && l'.cfg == l.cfg && l'.serial == l.serial && l'.snap == r.snap && l'.boot
      && v !in l'.marker && v in l'.reserved && l'.reserved[v] == l.cfg.models[v].residual
      && (forall id :: id != v && id !in l.marker ==>
            id !in l'.marker && (id in l'.reserved <==> id in l.reserved)
            && (id in l.reserved ==> l'.reserved[id] == l.reserved[id]))
  {
    hide LedgerOK;
  }

  lemma RoomAfterUnload(l: Ledger, st: States, now: int, target: Model, v: Model, r: Round)
    requires CanMakeRoom(l, st, now, target) && v in l.cfg.models && Candidate(st, target, v)
    requires RoundOK(l, r)
    ensures var l' := Unloaded(l, v, r.at, r.snap);
      var st' := st[v := Stopped];
      CanMakeRoom(l', st', r.now, target)
      && l'.serial == l.serial && l'.cfg == l.cfg && l'.snap.total == l.snap.total
      && ReadyOthers(l', st', target) == ReadyOthers(l, st, target) - {v}
  {
    var l' := Unloaded(l, v, r.at, r.snap);
    hide LedgerOK, Unloaded, Total, AtResidual, RestHolds, AllResidable, Fresh;
    UnloadedOK(l, v, r);
    UnloadedSpec(l, v, r);
    OthersStay(l, l', st, target, v);
  }

  lemma UnloadedOK(l: Ledger, v: Model, r: Round)
    requires LedgerOK(l) && v in l.cfg.models
    ensures LedgerOK(Unloaded(l, v, r.at, r.snap))
  {
    MarkAllOK(l, [v], r.at);
    ObserveOK(MarkAll(l, [v], r.at), r.snap);
    hide LedgerOK;
  }

  lemma OthersStay(l: Ledger, l': Ledger, st: States, target: Model, v: Model)
    requires v in l.cfg.models && st.Keys == l.cfg.models.Keys && Candidate(st, target, v) && target in l.cfg.models
    requires l'.cfg == l.cfg && v !in l'.marker && v in l'.reserved && l'.reserved[v] == l.cfg.models[v].residual
    requires forall id :: id != v && id !in l.marker ==>
               id !in l'.marker && (id in l'.reserved <==> id in l.reserved)
               && (id in l.reserved ==> l'.reserved[id] == l.reserved[id])
    requires AllResidable(l, st, target)
    requires forall id :: id in l.cfg.models && id != target ==>
               id !in l.marker && (st[id].Ready? || AtResidual(l, st, id))
    ensures var st' := st[v := Stopped];
      && RestHolds(l', target) == RestHolds(l, target)
      && AllResidable(l', st', target)
      && (forall id :: id in l.cfg.models && id != target ==>
            id !in l'.marker && (st'[id].Ready? || AtResidual(l', st', id)))
      && ReadyOthers(l', st', target) == ReadyOthers(l, st, target) - {v}
  {
    var st' := st[v := Stopped];
    forall id | id in l.cfg.models && id != target
      ensures id !in l'.marker && (st'[id].Ready? || AtResidual(l', st', id)) && Residable(l', st', id)
    {
      assert Residable(l, st, id);
      if id != v && !st[id].Ready? { assert AtResidual(l, st, id); }
    }
  }

  lemma VictimIsReady(l: Ledger, st: States, now: int, target: Model, v: Model)
    requires CanMakeRoom(l, st, now, target) && Candidate(st, target, v)
    ensures v in l.cfg.models && v in ReadyOthers(l, st, target)
  {
    hide LedgerOK, FitsIfRestResidual;
  }

  /** What the decision admits, the gate grants. */
  lemma RoomAdmits(l: Ledger, st: States, now: int, target: Model)
    requires CanMakeRoom(l, st, now, target) && Decide(l, st, now, target) == Evict([])
    requires l.serial.None? || l.serial == Some(target)
    ensures AdmitLoad(l, st, now, false, target).1.None?
  {
    hide LedgerOK, AdmitWithoutEvict, FitsIfRestResidual;
  }

  /**
   If the target fits beside the others' residuals, every other model being ready or
   already at its residual, the target is never refused: after at most as many unloads
   as there are ready others it is admitted, however little memory is reported free.
   */
  lemma {:induction false} EvictionMakesProgress(l: Ledger, st: States, now: int, target: Model, rounds: seq<Round>)
    requires CanMakeRoom(l, st, now, target)
    requires |rounds| == |ReadyOthers(l, st, target)|
    requires forall i :: 0 <= i < |rounds| ==> RoundOK(l, rounds[i])
    ensures AdmitsWithin(l, st, now, target, rounds)
    decreases |rounds|
  {
    hide CanMakeRoom, LedgerOK, AdmitWithoutEvict, FitsIfRestResidual, Unloaded, Decide, Candidate;
    RoomDecides(l, st, now, target);
    DecideEvicts(l, st, now, target);
    var d := Decide(l, st, now, target);
    if d.ids == [] {
      if l.serial.None? || l.serial == Some(target) { RoomAdmits(l, st, now, target); }
    } else {
      var v := d.ids[0];
      VictimIsReady(l, st, now, target, v);
      RoomAfterUnload(l, st, now, target, v, rounds[0]);
      var l' := Unloaded(l, v, rounds[0].at, rounds[0].snap);
      EvictionMakesProgress(l', st[v := Stopped], rounds[0].now, target, rounds[1..]);
    }
  }
}
