/**
 The router's ledger in its own form: maps that the event loop updates in place, loops over
 maps in any order, and the write, reply, restore of a recovery result
 (internal/router/budget.go, recover.go and base.go). Each method is proved against the
 functions of the Ledger module.
 */
module Router {
  import opened Types
  import opened Admission
  import opened RuntimeStatus
  import opened Scheduler
  import opened Spec = Ledger
  import SchedulerLaws

  // ---------------------------------------------------------------- what the machine computes

  /** The models of the configuration in some order, as a Go map lists them. */
  ghost predicate Listing(cfg: Budget, order: seq<Model>) {
    SchedulerLaws.Distinct(order) && Elements(order) == cfg.models.Keys
  }

  function Listed(f: map<Model, int>, order: seq<Model>): seq<Hold>
    requires forall id :: id in order ==> id in f
  {
    seq(|order|, i requires 0 <= i < |order| => Hold(f[order[i]], 0))
  }

  /** Byte counts are machine words: signed ones in the configuration and the ledger, unsigned ones in a sample. */
  ghost predicate Words(l: Ledger) {
    && Is64(l.cfg.margin) && SnapWords(l.snap)
    && (forall id :: id in l.cfg.models ==> Is64(l.cfg.models[id].peak) && Is64(l.cfg.models[id].residual))
    && (forall id :: id in l.reserved ==> Is64(l.reserved[id]))
  }

  predicate SnapWords(snap: Snapshot) {
    0 <= snap.total < 0x1_0000_0000_0000_0000 && 0 <= snap.free < 0x1_0000_0000_0000_0000
  }

  /** The answer of `fits` when the map is walked in some order. */
  ghost predicate MayFit(l: Ledger, st: States, target: Model, r: bool) {
    exists order :: Listing(l.cfg, order) && r == FitsIn(l, st, target, order)
  }

  ghost predicate FitsIn(l: Ledger, st: States, target: Model, order: seq<Model>)
    requires Listing(l.cfg, order)
  {
    assert forall id :: id in order ==> id in Elements(order);
    AllBound(l, st, target) && MachineFits(Wrap(l.snap.free), l.cfg.margin, Listed(Holds(l, st, target), order))
  }

  ghost predicate MayFitRest(l: Ledger, st: States, target: Model, r: bool) {
    exists order :: Listing(l.cfg, order) && r == RestIn(l, st, target, order)
  }

  ghost predicate RestIn(l: Ledger, st: States, target: Model, order: seq<Model>)
    requires Listing(l.cfg, order)
  {
    assert forall id :: id in order ==> id in Elements(order);
    AllResidable(l, st, target) && MachineFits(Wrap(l.snap.total), l.cfg.margin, Listed(RestHolds(l, target), order))
  }

  ghost predicate MayAdmit(l: Ledger, st: States, target: Model, r: bool) {
    exists fits: bool, rest: bool ::
      MayFit(l, st, target, fits) && MayFitRest(l, st, target, rest)
      && r == (fits || (rest && OthersAtResidual(l, st, target)))
  }

  /** The decision, given whether the target is admissible and whether it would fit with the rest unloaded. */
  function DecideGiven(l: Ledger, st: States, now: int, target: Model, admissible: bool, rest: bool): Decision {
    if StateIn(st, target) == Some(Ready) then Evict([])
    else if !GpuFresh(l, now) then Refuse(NotBooted)
    else if admissible then Evict([])
    else if !rest then Refuse(Resources)
    else
      match Oldest(l, st, Sorted(Running(st)), target)
      case None => Refuse(Resources)
      case Some(v) => Evict([v])
  }

  ghost predicate MayDecide(l: Ledger, st: States, now: int, target: Model, d: Decision) {
    exists admissible: bool, rest: bool ::
      MayAdmit(l, st, target, admissible) && MayFitRest(l, st, target, rest)
      && d == DecideGiven(l, st, now, target, admissible, rest)
  }

  function GrantGiven(l: Ledger, now: int, shutting: bool, id: Model, admissible: bool): (Ledger, Option<Cause>) {
    if shutting then (l, Some(ShuttingDown))
    else if !GpuFresh(l, now) then (l, Some(NotBooted))
    else if l.serial.Some? && l.serial != Some(id) then (l, Some(Resources))
    else if !admissible then (l, Some(Resources))
    else if id !in l.cfg.models then (l, Some(ModelNotFound))
    else (Reserve(l, id, l.cfg.models[id].peak).(serial := Some(id)), None)
  }

  ghost predicate MayGrant(l: Ledger, st: States, now: int, shutting: bool, id: Model, g: (Ledger, Option<Cause>)) {
    exists admissible: bool :: MayAdmit(l, st, id, admissible) && g == GrantGiven(l, now, shutting, id, admissible)
  }

  // ---------------------------------------------------------------- and when that is the arithmetic

  /** Byte counts are 64-bit and not negative, and no bound added to the whole budget overflows. */
  ghost predicate Bytes(l: Ledger, capacity: int) {
    && 0 <= l.cfg.margin <= MAX64 && 0 <= capacity <= MAX64
    && (forall id :: id in l.cfg.models ==>
          0 <= l.cfg.models[id].residual <= l.cfg.models[id].peak <= MAX64 - capacity + l.cfg.margin
          && l.cfg.models[id].peak <= MAX64)
    && (forall id :: id in l.reserved ==>
          0 <= l.reserved[id] <= MAX64 - capacity + l.cfg.margin && l.reserved[id] <= MAX64)
  }

  /** Bounds, capacity and margin leave room for 64-bit sums. */
  ghost predicate Fitting(l: Ledger) {
    Bytes(l, l.snap.free) && Bytes(l, l.snap.total)
  }

  lemma ListedInit(f: map<Model, int>, order: seq<Model>)
    requires order != [] && SchedulerLaws.Distinct(order) && Elements(order) == f.Keys
    ensures var n := |order| - 1;
      && order[n] in f && SchedulerLaws.Distinct(order[..n]) && Elements(order[..n]) == (f - {order[n]}).Keys
  {
    var n := |order| - 1;
    assert order[n] in Elements(order);
    forall id | id in order[..n] ensures id in f && id != order[n] { assert id in Elements(order); }
    forall id | id in f && id != order[n] ensures id in order[..n] { assert id in Elements(order); }
  }

  lemma ListedMembers(f: map<Model, int>, order: seq<Model>)
    requires Elements(order) == f.Keys
    ensures forall id :: id in order ==> id in f
  {
    assert forall id :: id in order ==> id in Elements(order);
  }

  lemma ListedLast(f: map<Model, int>, order: seq<Model>)
    requires order != [] && (forall id :: id in order ==> id in f) && 0 <= f[order[|order| - 1]] <= MAX64
    requires forall i :: 0 <= i < |order| - 1 ==> order[i] != order[|order| - 1]
    ensures var n := |order| - 1;
      (forall id :: id in order[..n] ==> id in f - {order[n]})
      && SumOf(Listed(f, order)) == SumOf(Listed(f - {order[n]}, order[..n])) + f[order[n]]
  {
    var n := |order| - 1;
    assert Listed(f, order)[..n] == Listed(f - {order[n]}, order[..n]);
    assert Listed(f, order)[n] == Hold(f[order[n]], 0);
  }

  lemma {:induction false} ListedSum(f: map<Model, int>, order: seq<Model>)
    requires SchedulerLaws.Distinct(order) && Elements(order) == f.Keys
    requires forall id :: id in f ==> 0 <= f[id] <= MAX64
    ensures (forall id :: id in order ==> id in f) && SumOf(Listed(f, order)) == Total(f)
    decreases |order|
  {
    hide SumOf, Total, Listed, Elements, SchedulerLaws.Distinct;
    ListedMembers(f, order);
    if order == [] {
      NothingListed(f);
    } else {
      ListedInit(f, order);
      LastIsNew(order);
      ListedLast(f, order);
      ListedSum(f - {order[|order| - 1]}, order[..|order| - 1]);
      TotalTake(f, order[|order| - 1]);
    }
  }

  lemma LastIsNew(order: seq<Model>)
    requires order != [] && SchedulerLaws.Distinct(order)
    ensures forall i :: 0 <= i < |order| - 1 ==> order[i] != order[|order| - 1]
  {
  }

  lemma NothingListed(f: map<Model, int>)
    requires Elements([]) == f.Keys
    ensures SumOf(Listed(f, [])) == Total(f)
  {
    assert f == map[];
  }

  /** Whatever order the map is walked in, the machine's loop decides the arithmetic statement. */
  lemma MachineCovers(f: map<Model, int>, order: seq<Model>, capacity: int, margin: int)
    requires SchedulerLaws.Distinct(order) && Elements(order) == f.Keys
    requires 0 <= margin <= MAX64 && 0 <= capacity <= MAX64
    requires forall id :: id in f ==> 0 <= f[id] <= MAX64 - capacity + margin && f[id] <= MAX64
    ensures (forall id :: id in order ==> id in f)
    ensures MachineFits(Wrap(capacity), margin, Listed(f, order)) == Covers(capacity, margin, Total(f))
  {
    assert forall id :: id in order <==> id in Elements(order);
    ListedSum(f, order);
    hide SumOf, Total;
    MachineIsSum(capacity, margin, Listed(f, order));
  }

  lemma FitsExactly(l: Ledger, st: States, target: Model, r: bool)
    requires Bytes(l, l.snap.free) && MayFit(l, st, target, r)
    ensures r == FitsNow(l, st, target)
  {
    hide Total, MachineFits, Listed;
    var order :| Listing(l.cfg, order) && r == FitsIn(l, st, target, order);
    MachineCovers(Holds(l, st, target), order, l.snap.free, l.cfg.margin);
  }

  lemma RestExactly(l: Ledger, st: States, target: Model, r: bool)
    requires Bytes(l, l.snap.total) && MayFitRest(l, st, target, r)
    ensures r == FitsIfRestResidual(l, st, target)
  {
    hide Total, MachineFits, Listed;
    var order :| Listing(l.cfg, order) && r == RestIn(l, st, target, order);
    MachineCovers(RestHolds(l, target), order, l.snap.total, l.cfg.margin);
  }

  lemma AdmitsExactly(l: Ledger, st: States, target: Model, r: bool)
    requires Fitting(l) && MayAdmit(l, st, target, r)
    ensures r == AdmitWithoutEvict(l, st, target)
  {
    hide Bytes, MayFit, MayFitRest, FitsNow, FitsIfRestResidual, OthersAtResidual;
    var fits: bool, rest: bool :|
      MayFit(l, st, target, fits) && MayFitRest(l, st, target, rest)
      && r == (fits || (rest && OthersAtResidual(l, st, target)));
    FitsExactly(l, st, target, fits);
    RestExactly(l, st, target, rest);
  }

  /** So wherever sums stay within 64 bits there is one decision, the arithmetic one. */
  lemma DecidesExactly(l: Ledger, st: States, now: int, target: Model, d: Decision)
    requires Fitting(l) && MayDecide(l, st, now, target, d)
    ensures d == Spec.Decide(l, st, now, target)
  {
    hide Bytes, MayAdmit, MayFitRest, AdmitWithoutEvict, FitsIfRestResidual, GpuFresh;
    var admissible: bool, rest: bool :|
      MayAdmit(l, st, target, admissible) && MayFitRest(l, st, target, rest)
      && d == DecideGiven(l, st, now, target, admissible, rest);
    AdmitsExactly(l, st, target, admissible);
    RestExactly(l, st, target, rest);
  }

  lemma GrantsExactly(l: Ledger, st: States, now: int, shutting: bool, id: Model, g: (Ledger, Option<Cause>))
    requires Fitting(l) && MayGrant(l, st, now, shutting, id, g)
    ensures g == Spec.AdmitLoad(l, st, now, shutting, id)
  {
    hide Fitting, MayAdmit, AdmitWithoutEvict, GpuFresh;
    var admissible: bool :| MayAdmit(l, st, id, admissible) && g == GrantGiven(l, now, shutting, id, admissible);
    AdmitsExactly(l, st, id, admissible);
  }

  /** Taking one more model into the search for the oldest. */
  lemma OldestTakesLast(l: Ledger, st: States, running: seq<Model>, id: Model, target: Model)
    ensures var before := Oldest(l, st, running, target);
      Oldest(l, st, running + [id], target)
      == if Candidate(st, target, id) && (before.None? || !Before(l, before.value, id)) then Some(id) else before
  {
    hide Oldest, Age;
    OldestIsFirst(l, st, running, target);
    OldestIsFirst(l, st, running + [id], target);
    var r := Oldest(l, st, running + [id], target);
    assert id in running + [id];
    if r.Some? && r.value != id {
      assert r.value in running;
    }
    if Oldest(l, st, running, target).Some? {
      assert Oldest(l, st, running, target).value in running + [id];
    }
  }

  /** The ledger between writing a result and the client's reply. */
  function Tried(l: Ledger, ev: Result): Ledger {
    match ev.rec
    case ReadyIdle => EnsurePeak(l.(marker := l.marker - {ev.model}), ev.model)
    case UnloadedIdle | FailedNotResidentIdle =>
      EnsurePeak(l, ev.model).(marker := l.marker[ev.model := Later(l, ev.model, ev.completedAt)])
    case _ => EnsurePeak(l, ev.model)
  }

  /** The client's reply, and whether shutdown came in; `Untaken`: it came before the client took the request. */
  datatype Reply = Untaken | Replied(ack: Ack, shutting: bool)

  /** What a result leaves behind: under shutdown, only an applied one leaves anything. */
  function AfterReply(l: Ledger, now: int, ev: Result, reply: Reply): Ledger {
    if !CallsClient(ev) then Recovered(l, now, ev, Applied)
    else
      match reply
      case Untaken => l
      case Replied(ack, shutting) => if shutting && !ack.Applied? then l else Recovered(l, now, ev, ack)
  }

  lemma PeakTouches(l: Ledger, id: Model)
    ensures var r := EnsurePeak(l, id);
      r == l.(reserved := r.reserved) && r.reserved - {id} == l.reserved - {id}
  {
  }

  /** Trying a result touches its own model's reservation and marker. */
  lemma TriedTouches(l: Ledger, ev: Result)
    ensures var r := Tried(l, ev);
      && r == l.(reserved := r.reserved, marker := r.marker)
      && r.reserved - {ev.model} == l.reserved - {ev.model}
      && r.marker - {ev.model} == l.marker - {ev.model}
  {
    PeakTouches(l, ev.model);
    PeakTouches(l.(marker := l.marker - {ev.model}), ev.model);
    hide EnsurePeak, Later;
  }

  /** Putting that model's entries back restores the whole ledger. */
  lemma PutBack(l: Ledger, r: Ledger, ev: Result)
    requires var t := Tried(l, ev);
      && r == t.(reserved := r.reserved, marker := r.marker)
      && r.reserved == (if ev.model in l.reserved
                         then t.reserved[ev.model := l.reserved[ev.model]] else t.reserved - {ev.model})
      && r.marker == (if ev.model in l.marker then t.marker[ev.model := l.marker[ev.model]] else t.marker - {ev.model})
    ensures r == l
  {
    TriedTouches(l, ev);
    hide Tried;
    var t := Tried(l, ev);
    OneEntry(l.reserved, t.reserved, ev.model);
    OneEntry(l.marker, t.marker, ev.model);
  }

  lemma OneEntry(m: map<Model, int>, t: map<Model, int>, k: Model)
    requires t - {k} == m - {k}
    ensures (if k in m then t[k := m[k]] else t - {k}) == m
  {
    forall x | x in m && x != k
      ensures x in t && t[x] == m[x]
    {
      assert (m - {k})[x] == m[x] && x in t - {k};
    }
    forall x | x in t && x != k
      ensures x in m
    {
      assert x in t - {k};
    }
    if k !in m { assert m - {k} == m; }
  }

  lemma TriedIsApplied(l: Ledger, now: int, ev: Result)
    requires CallsClient(ev)
    ensures Recovered(l, now, ev, Applied)
         == if ev.rec.ReadyIdle? then Spec.NoteRecoveredReady(Tried(l, ev), now, ev.model) else Tried(l, ev)
  {
  }

  /** A failed read, or a nonsensical status, only raises; a dead endpoint says nothing. */
  lemma TriedUnasked(l: Ledger, ev: Result)
    requires !CallsClient(ev) && (!ev.kind.NoErr? ==> ev.rec.RecInvalid?)
    ensures Recovered(l, 0, ev, Applied) == if ev.kind.EndpointDown? then l else Tried(l, ev)
  {
  }

  lemma HoldKeys(l: Ledger, st: States, target: Model)
    ensures Holds(l, st, target).Keys == l.cfg.models.Keys && RestHolds(l, target).Keys == l.cfg.models.Keys
  {
  }

  lemma HoldOf(l: Ledger, st: States, target: Model, id: Model)
    requires id in l.cfg.models && (id == target || BoundFor(l, st, id).Some?)
    ensures Holds(l, st, target)[id] == if id == target then l.cfg.models[id].peak else BoundFor(l, st, id).value
  {
  }

  lemma RestHoldOf(l: Ledger, target: Model, id: Model)
    requires id in l.cfg.models
    ensures RestHolds(l, target)[id]
         == if id == target || id in l.marker then l.cfg.models[id].peak else l.cfg.models[id].residual
  {
  }

  lemma WordsFit(l: Ledger)
    requires Words(l)
    ensures Is64(Wrap(l.snap.free)) && Is64(Wrap(l.snap.total)) && Is64(l.cfg.margin)
  {
  }

  lemma SomeListing(cfg: Budget)
    ensures Listing(cfg, Sorted(cfg.models.Keys))
  {
  }

  /** With a model whose bytes are unknown the answer is no. */
  lemma NoAnswer(l: Ledger, st: States, target: Model)
    requires !AllBound(l, st, target)
    ensures MayFit(l, st, target, false)
  {
    SomeListing(l.cfg);
    assert !FitsIn(l, st, target, Sorted(l.cfg.models.Keys));
  }

  lemma NoAnswerRest(l: Ledger, st: States, target: Model, id: Model)
    requires id in l.cfg.models && id != target && !Residable(l, st, id)
    ensures MayFitRest(l, st, target, false)
  {
    SomeListing(l.cfg);
    assert !RestIn(l, st, target, Sorted(l.cfg.models.Keys));
  }

  /** Some order gives some answer. */
  lemma RestAnswered(l: Ledger, st: States, target: Model)
    ensures exists rest: bool :: MayFitRest(l, st, target, rest)
  {
    SomeListing(l.cfg);
    assert MayFitRest(l, st, target, RestIn(l, st, target, Sorted(l.cfg.models.Keys)));
  }

  lemma AdmitAnswered(l: Ledger, st: States, target: Model)
    ensures exists admissible: bool, rest: bool ::
              MayAdmit(l, st, target, admissible) && MayFitRest(l, st, target, rest)
  {
    SomeListing(l.cfg);
    RestAnswered(l, st, target);
    hide MayFitRest, AllBound, MachineFits, OthersAtResidual;
    var fits := FitsIn(l, st, target, Sorted(l.cfg.models.Keys));
    assert MayFit(l, st, target, fits);
    var rest: bool :| MayFitRest(l, st, target, rest);
    assert MayAdmit(l, st, target, fits || (rest && OthersAtResidual(l, st, target)));
  }

  lemma Decided(l: Ledger, st: States, now: int, target: Model, admissible: bool, rest: bool)
    requires MayAdmit(l, st, target, admissible) && MayFitRest(l, st, target, rest)
    ensures MayDecide(l, st, now, target, DecideGiven(l, st, now, target, admissible, rest))
  {
  }

  /** A decision that asks for no answer. */
  lemma DecidedAnyhow(l: Ledger, st: States, now: int, target: Model)
    requires StateIn(st, target) == Some(Ready) || !GpuFresh(l, now)
    ensures MayDecide(l, st, now, target, if StateIn(st, target) == Some(Ready) then Evict([]) else Refuse(NotBooted))
  {
    hide MayAdmit, MayFitRest, GpuFresh;
    AdmitAnswered(l, st, target);
    var admissible: bool, rest: bool :| MayAdmit(l, st, target, admissible) && MayFitRest(l, st, target, rest);
    Decided(l, st, now, target, admissible, rest);
  }

  lemma Granted(l: Ledger, st: States, now: int, shutting: bool, id: Model, admissible: bool)
    requires MayAdmit(l, st, id, admissible)
    ensures MayGrant(l, st, now, shutting, id, GrantGiven(l, now, shutting, id, admissible))
  {
  }

  /** A refusal that asks for no answer. */
  lemma RefusedAnyhow(l: Ledger, st: States, now: int, shutting: bool, id: Model, cause: Cause)
    requires GrantGiven(l, now, shutting, id, true) == GrantGiven(l, now, shutting, id, false) == (l, Some(cause))
    ensures MayGrant(l, st, now, shutting, id, (l, Some(cause)))
  {
    hide MayAdmit, MayFitRest, GrantGiven;
    AdmitAnswered(l, st, id);
    var admissible: bool, rest: bool :| MayAdmit(l, st, id, admissible) && MayFitRest(l, st, id, rest);
    Granted(l, st, now, shutting, id, admissible);
  }

  /** The holds of the models taken so far, in the order in which they were taken. */
  ghost predicate Collected(f: map<Model, int>, left: set<Model>, order: seq<Model>, holds: seq<Hold>) {
    && left <= f.Keys && SchedulerLaws.Distinct(order) && Elements(order) == f.Keys - left
    && (forall id :: id in order ==> id in f) && holds == Listed(f, order) && Holds64(holds)
  }

  lemma StartsCollecting(f: map<Model, int>)
    ensures Collected(f, f.Keys, [], [])
  {
  }

  lemma Collects(f: map<Model, int>, left: set<Model>, order: seq<Model>, holds: seq<Hold>, id: Model)
    requires Collected(f, left, order, holds) && id in left && Is64(f[id])
    ensures Collected(f, left - {id}, order + [id], holds + [Hold(f[id], 0)])
  {
    assert id !in Elements(order);
    assert Elements(order + [id]) == Elements(order) + {id};
    assert Listed(f, order + [id]) == Listed(f, order) + [Hold(f[id], 0)];
  }

  lemma HasCollected(f: map<Model, int>, order: seq<Model>, holds: seq<Hold>)
    requires Collected(f, {}, order, holds)
    ensures SchedulerLaws.Distinct(order) && Elements(order) == f.Keys && Holds64(holds)
    ensures (forall id :: id in order ==> id in f) && holds == Listed(f, order)
  {
    assert f.Keys - {} == f.Keys;
  }

  lemma HoldIsWord(l: Ledger, st: States, target: Model, id: Model)
    requires Words(l) && id in l.cfg.models
    ensures id in Holds(l, st, target) && Is64(Holds(l, st, target)[id])
    ensures id in RestHolds(l, target) && Is64(RestHolds(l, target)[id])
  {
  }

  lemma LoweredTakes(cfg: Budget, reserved: map<Model, int>, cleared: set<Model>, id: Model)
    ensures Lowered(cfg, reserved, cleared + {id})
         == if id in cfg.models then Lowered(cfg, reserved, cleared)[id := cfg.models[id].residual]
            else Lowered(cfg, reserved, cleared)
  {
  }

  class Router {
    const cfg: Budget

    var reserved: map<Model, int>
    var residualAfter: map<Model, int>
    var snap: Snapshot
    var bootGPU: bool
    var loadSerial: Option<Model>
    var lastUse: map<Model, int>
    var loadedAt: map<Model, int>

    ghost function View(): Ledger
      reads this
    {
      Ledger(cfg, reserved, residualAfter, snap, bootGPU, loadSerial, lastUse, loadedAt)
    }

    // -------------------------------------------------------------- fits

    function BoundOf(st: States, id: Model, asLoad: bool): (b: Option<int>)
      requires id in cfg.models
      reads this
      ensures b == if asLoad then Some(cfg.models[id].peak) else BoundFor(View(), st, id)
    {
      if asLoad then Some(cfg.models[id].peak)
      else if id in reserved then Some(reserved[id])
      else
        match StateIn(st, id)
        case Some(Ready) | Some(Starting) | Some(Stopping) => Some(cfg.models[id].peak)
        case Some(Stopped) => Some(cfg.models[id].residual)
        case _ => None
    }

    method Fits(st: States, target: Model) returns (r: bool)
      requires Words(View())
      ensures MayFit(View(), st, target, r)
    {
      hide Words, Holds, RestHolds, BoundFor, MachineFits, Listed, Collected, Holds64, SchedulerLaws.Distinct, Elements;
      ghost var all := Holds(View(), st, target);
      HoldKeys(View(), st, target);
      StartsCollecting(all);
      ghost var order: seq<Model> := [];
      var holds: seq<Hold> := [];
      var left := cfg.models.Keys;
      while left != {}
        invariant left <= cfg.models.Keys
        invariant forall id :: id in cfg.models && id !in left && id != target ==> BoundFor(View(), st, id).Some?
        invariant Collected(all, left, order, holds)
        decreases left
      {
        var id :| id in left;
        var bound := BoundOf(st, id, id == target);
        if bound.None? {
          NoAnswer(View(), st, target);
          return false;
        }
        HoldOf(View(), st, target, id);
        HoldIsWord(View(), st, target, id);
        Collects(all, left, order, holds, id);
        order := order + [id];
        holds := holds + [Hold(bound.value, 0)];
        left := left - {id};
      }
      HasCollected(all, order, holds);
      WordsFit(View());
      r := Admission.Fits(Wrap(snap.free), cfg.margin, holds);
      assert r == FitsIn(View(), st, target, order);
    }

    method FitsIfRest(st: States, target: Model) returns (r: bool)
      requires Words(View())
      ensures MayFitRest(View(), st, target, r)
    {
      hide Words, Holds, RestHolds, BoundFor, MachineFits, Listed, Collected, Holds64, SchedulerLaws.Distinct, Elements;
      ghost var all := RestHolds(View(), target);
      HoldKeys(View(), st, target);
      StartsCollecting(all);
      ghost var order: seq<Model> := [];
      var holds: seq<Hold> := [];
      var left := cfg.models.Keys;
      while left != {}
        invariant left <= cfg.models.Keys
        invariant forall id :: id in cfg.models && id !in left && id != target ==> Residable(View(), st, id)
        invariant Collected(all, left, order, holds)
        decreases left
      {
        var id :| id in left;
        var bound := cfg.models[id].peak;
        if id != target && id !in residualAfter {
          var state := StateIn(st, id);
          if state.None? || state.value.Unknown? || state.value.Failed? || state.value.Shutdown? {
            NoAnswerRest(View(), st, target, id);
            return false;
          }
          bound := cfg.models[id].residual;
        }
        RestHoldOf(View(), target, id);
        HoldIsWord(View(), st, target, id);
        Collects(all, left, order, holds, id);
        order := order + [id];
        holds := holds + [Hold(bound, 0)];
        left := left - {id};
      }
      HasCollected(all, order, holds);
      WordsFit(View());
      r := Admission.Fits(Wrap(snap.total), cfg.margin, holds);
      assert r == RestIn(View(), st, target, order);
    }

    method AllOthersAtResidual(st: States, target: Model) returns (r: bool)
      ensures r == OthersAtResidual(View(), st, target)
    {
      var left := cfg.models.Keys;
      while left != {}
        invariant left <= cfg.models.Keys
        invariant forall id :: id in cfg.models && id !in left && id != target ==> AtResidual(View(), st, id)
        decreases left
      {
        var id :| id in left;
        left := left - {id};
        if id != target {
          var hold := BoundOf(st, id, false);
          if id in residualAfter || hold != Some(cfg.models[id].residual) || StateIn(st, id) != Some(Stopped) {
            return false;
          }
        }
      }
      return true;
    }

    method Admissible(st: States, target: Model) returns (r: bool)
      requires Words(View())
      ensures MayAdmit(View(), st, target, r)
    {
      hide Words, MayFit, MayFitRest, OthersAtResidual;
      RestAnswered(View(), st, target);
      r := Fits(st, target);
      if !r {
        r := FitsIfRest(st, target);
        if r {
          r := AllOthersAtResidual(st, target);
        }
      }
    }

    predicate IsFresh(now: int)
      reads this
    {
      bootGPU && Fresh(snap, now, ObserveAge(cfg))
    }

    // -------------------------------------------------------------- eviction

    /** Last use, or loading; the zero time reads as 0. */
    function AgeOf(id: Model): (at: int)
      reads this
      ensures at == Age(View(), id)
    {
      if TimeOf(lastUse, id) == 0 then TimeOf(loadedAt, id) else TimeOf(lastUse, id)
    }

    /** The first of the candidates in the order of sort.Slice: the older, then the smaller id. */
    method OldestResident(st: States, running: seq<Model>, target: Model) returns (victim: Option<Model>)
      ensures victim == Oldest(View(), st, running, target)
    {
      victim := None;
      for i := 0 to |running|
        invariant victim == Oldest(View(), st, running[..i], target)
      {
        var id := running[i];
        OldestTakesLast(View(), st, running[..i], id, target);
        assert running[..i + 1] == running[..i] + [id];
        if id != target && StateIn(st, id) == Some(Ready) {
          if victim.None? || AgeOf(id) < AgeOf(victim.value)
             || (AgeOf(id) == AgeOf(victim.value) && id < victim.value) {
            victim := Some(id);
          }
        }
      }
      assert running[..|running|] == running;
    }

    /** `running` is what RunningModels lists, in any order. */
    method Decide(st: States, now: int, target: Model, running: seq<Model>) returns (d: Decision)
      requires Words(View()) && Elements(running) == Running(st)
      ensures MayDecide(View(), st, now, target, d)
    {
      hide Words, MayAdmit, MayFitRest, MayDecide, Oldest, Running, Sorted;
      if StateIn(st, target) == Some(Ready) {
        DecidedAnyhow(View(), st, now, target);
        return Evict([]);
      }
      if !IsFresh(now) {
        DecidedAnyhow(View(), st, now, target);
        return Refuse(NotBooted);
      }
      var admissible := Admissible(st, target);
      if admissible {
        RestAnswered(View(), st, target);
        ghost var answer: bool :| MayFitRest(View(), st, target, answer);
        Decided(View(), st, now, target, true, answer);
        return Evict([]);
      }
      var rest := FitsIfRest(st, target);
      Decided(View(), st, now, target, false, rest);
      if !rest {
        return Refuse(Resources);
      }
      var victim := OldestResident(st, running, target);
      OldestAnyOrder(View(), st, running, Sorted(Running(st)), target);
      d := match victim case None => Refuse(Resources) case Some(v) => Evict([v]);
    }

    // -------------------------------------------------------------- reservations

    constructor (cfg: Budget)
      ensures View() == Ledger(cfg, map[], map[], NO_SAMPLE, false, None, map[], map[])
    {
      this.cfg := cfg;
      reserved, residualAfter, lastUse, loadedAt := map[], map[], map[], map[];
      snap, bootGPU, loadSerial := NO_SAMPLE, false, None;
    }

    method AdmitLoad(st: States, now: int, shutting: bool, id: Model) returns (refused: Option<Cause>)
      requires Words(View())
      modifies this`reserved, this`loadSerial
      ensures MayGrant(old(View()), st, now, shutting, id, (View(), refused))
    {
      hide Words, MayAdmit, MayFitRest, MayGrant;
      if shutting {
        RefusedAnyhow(View(), st, now, shutting, id, ShuttingDown);
        return Some(ShuttingDown);
      }
      if !IsFresh(now) {
        RefusedAnyhow(View(), st, now, shutting, id, NotBooted);
        return Some(NotBooted);
      }
      if loadSerial.Some? && loadSerial != Some(id) {
        RefusedAnyhow(View(), st, now, shutting, id, Resources);
        return Some(Resources);
      }
      var admissible := Admissible(st, id);
      Granted(View(), st, now, shutting, id, admissible);
      if !admissible {
        return Some(Resources);
      }
      if id !in cfg.models {
        return Some(ModelNotFound);
      }
      reserved := reserved[id := cfg.models[id].peak];
      loadSerial := Some(id);
      return None;
    }

    method NoteUse(now: int, id: Model)
      modifies this`lastUse
      ensures View() == Spec.NoteUse(old(View()), now, id)
    {
      lastUse := lastUse[id := now];
    }

    method NoteRecoveredReady(now: int, id: Model)
      modifies this`loadedAt
      ensures View() == Spec.NoteRecoveredReady(old(View()), now, id)
    {
      if TimeOf(loadedAt, id) == 0 && TimeOf(lastUse, id) == 0 {
        loadedAt := loadedAt[id := now];
      }
    }

    method NoteLoaded(now: int, id: Model)
      modifies this`loadedAt, this`lastUse, this`reserved
      ensures View() == Spec.NoteLoaded(old(View()), now, id)
    {
      loadedAt := loadedAt[id := now];
      if TimeOf(lastUse, id) == 0 {
        lastUse := lastUse[id := now];
      }
      if id in cfg.models {
        reserved := reserved[id := cfg.models[id].peak];
      }
    }

    /** The swap-done branch of the loop. */
    method LoadReported(now: int, id: Model, fault: Option<Fault>)
      modifies this
      ensures View() == Spec.LoadReported(old(View()), now, id, fault)
    {
      if fault.None? {
        NoteLoaded(now, id);
      }
      if loadSerial == Some(id) {
        loadSerial := None;
      }
    }

    method HoldResidual(id: Model)
      modifies this`reserved
      ensures reserved == if id in cfg.models then old(reserved)[id := cfg.models[id].residual] else old(reserved)
    {
      if id in cfg.models {
        reserved := reserved[id := cfg.models[id].residual];
      }
    }

    /** The cleared markers, in the order the map gives them up. */
    method ClearLater(sample: Snapshot) returns (cleared: seq<Model>)
      modifies this`residualAfter, this`reserved
      ensures SchedulerLaws.Distinct(cleared) && Elements(cleared) == ClearedBy(old(residualAfter), sample)
      ensures residualAfter == old(residualAfter) - Elements(cleared)
      ensures reserved == Lowered(cfg, old(reserved), Elements(cleared))
    {
      cleared := [];
      ghost var marks, held := residualAfter, reserved;
      var left := residualAfter.Keys;
      while left != {}
        invariant left <= residualAfter.Keys
        invariant SchedulerLaws.Distinct(cleared) && Elements(cleared) == ClearedBy(marks, sample) - left
        invariant residualAfter == marks - Elements(cleared)
        invariant reserved == Lowered(cfg, held, Elements(cleared))
        decreases left
      {
        var id :| id in left;
        if sample.at > residualAfter[id] {
          LoweredTakes(cfg, held, Elements(cleared), id);
          assert id !in Elements(cleared);
          assert Elements(cleared + [id]) == Elements(cleared) + {id};
          HoldResidual(id);
          residualAfter := residualAfter - {id};
          cleared := cleared + [id];
        }
        left := left - {id};
      }
    }

    method ApplyObservation(sample: Snapshot) returns (cleared: seq<Model>)
      modifies this
      ensures View() == Observe(old(View()), sample)
      ensures SchedulerLaws.Distinct(cleared)
      ensures Elements(cleared) == if Usable(cfg, sample) then ClearedBy(old(residualAfter), sample) else {}
    {
      hide ClearedBy, Lowered;
      if !sample.ok || sample.device != cfg.device {
        snap := NO_SAMPLE;
        bootGPU := false;
        return [];
      }
      snap := sample;
      bootGPU := true;
      cleared := ClearLater(sample);
    }

    /** The successful half of finishUnload. */
    method UnloadReported(ids: seq<Model>, at: int, sample: Snapshot) returns (cleared: seq<Model>)
      modifies this
      ensures View() == Spec.UnloadReported(old(View()), ids, at, sample)
      ensures SchedulerLaws.Distinct(cleared)
      ensures Elements(cleared)
           == if Usable(cfg, sample) then ClearedBy(MarkAll(old(View()), ids, at).marker, sample) else {}
    {
      for i := 0 to |ids|
        invariant View() == MarkAll(old(View()), ids[..i], at)
      {
        residualAfter := residualAfter[ids[i] := at];
        assert residualAfter == MarkAll(old(View()), ids[..i + 1], at).marker;
      }
      assert ids[..|ids|] == ids;
      cleared := ApplyObservation(sample);
    }

    // -------------------------------------------------------------- recovery results

    /** What snapLedger keeps of one model. */
    method SnapLedger(id: Model) returns (held: Option<int>, mark: Option<int>)
      ensures held == (if id in reserved then Some(reserved[id]) else None)
      ensures mark == (if id in residualAfter then Some(residualAfter[id]) else None)
    {
      held := if id in reserved then Some(reserved[id]) else None;
      mark := if id in residualAfter then Some(residualAfter[id]) else None;
    }

    method RestoreLedger(id: Model, held: Option<int>, mark: Option<int>)
      modifies this`reserved, this`residualAfter
      ensures reserved == match held case Some(b) => old(reserved)[id := b] case None => old(reserved) - {id}
      ensures residualAfter == match mark
                               case Some(at) => old(residualAfter)[id := at] case None => old(residualAfter) - {id}
    {
      reserved := match held case Some(b) => reserved[id := b] case None => reserved - {id};
      residualAfter := match mark case Some(at) => residualAfter[id := at] case None => residualAfter - {id};
    }

    method RaiseToPeak(id: Model)
      modifies this`reserved
      ensures View() == EnsurePeak(old(View()), id)
    {
      if id !in cfg.models {
        return;
      }
      if id in reserved && reserved[id] >= cfg.models[id].peak {
        return;
      }
      reserved := reserved[id := cfg.models[id].peak];
    }

    method Tentative(ev: Result)
      modifies this`reserved, this`residualAfter
      ensures View() == Tried(old(View()), ev)
    {
      match ev.rec {
        case ReadyIdle =>
          residualAfter := residualAfter - {ev.model};
          RaiseToPeak(ev.model);
        case UnloadedIdle => MarkLater(ev);
        case FailedNotResidentIdle => MarkLater(ev);
        case _ => RaiseToPeak(ev.model);
      }
    }

    method MarkLater(ev: Result)
      modifies this`reserved, this`residualAfter
      ensures View() == EnsurePeak(old(View()), ev.model)
                          .(marker := old(residualAfter)[ev.model := Later(old(View()), ev.model, ev.completedAt)])
    {
      RaiseToPeak(ev.model);
      if ev.model !in residualAfter || ev.completedAt > residualAfter[ev.model] {
        residualAfter := residualAfter[ev.model := ev.completedAt];
      }
    }

    /**
     The ledger's part of onRecover: write, ask the client, and keep or take back. The
     outcome is one transaction, whatever the client and a racing shutdown do.
     */
    method OnRecover(now: int, ev: Result, reply: Reply)
      requires !ev.kind.NoErr? ==> ev.rec.RecInvalid?
      modifies this
      ensures View() == AfterReply(old(View()), now, ev, reply)
    {
      hide Tried;
      ghost var l := View();
      var held, mark := SnapLedger(ev.model);
      if !ev.kind.EndpointDown? {
        Tentative(ev);
      }
      TriedTouches(l, ev);
      if CallsClient(ev) {
        if reply.Untaken? {
          RestoreLedger(ev.model, held, mark);
          PutBack(l, View(), ev);
          return;
        }
        if reply.ack.Applied? {
          if ev.rec.ReadyIdle? {
            NoteRecoveredReady(now, ev.model);
          }
          TriedIsApplied(l, now, ev);
        } else {
          RestoreLedger(ev.model, held, mark);
          PutBack(l, View(), ev);
          if reply.ack.AckBusy? && !reply.shutting {
            RaiseToPeak(ev.model);
          }
        }
      } else {
        TriedUnasked(l, ev);
      }
    }
  }
}
