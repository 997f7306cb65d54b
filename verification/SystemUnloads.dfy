/** How a model comes to be off the device at rest: its unload succeeds, or a recovery finds it unloaded. */
module SystemUnloads {
  import opened Types
  import opened Admission
  import opened RuntimeStatus
  import opened Scheduler
  import opened SchedulerHandlers
  import opened SchedulerRecovery
  import opened Ledger
  import opened ClientLoop
  import LedgerLaws
  import opened System
  import opened SystemLaws
  import opened SystemRuns
  import opened SystemGate
  import opened SystemRounds

  /** From y to r the model came to be stopped and held at its residual, on a fresh sample with nothing free. */
  ghost predicate PutOff(y: Sys, r: Sys, m: Model, total: int) {
    && m in y.clients && m in r.clients && r.clients == y.clients[m := r.clients[m]] && r.clients[m].state.Stopped?
    && m in y.l.cfg.models
    && r.l == y.l.(reserved := y.l.reserved[m := y.l.cfg.models[m].residual], snap := r.l.snap, boot := true)
    && FullNow(r, total)
    && (forall k :: k != m ==> SameWork(y.s.work, r.s.work, k)) && !Busy(r.s.work, m)
  }

  /** A fresh sample says that nothing is free. */
  ghost predicate FullNow(y: Sys, total: int) {
    y.now > 0 && GpuFresh(y.l, y.now) && y.l.snap.free == 0 && y.l.snap.total == total
  }

  /** Idle with an empty queue and open gates; loads, probes and admissions are as they were. */
  ghost predicate Emptied(x: Sched, r: Sched) {
    && r.phase.Idle? && r.queued == [] && r.cfg == x.cfg && r.gates.closed == {}
    && r.out.loads == x.out.loads && r.out.probes == x.out.probes && r.out.admitted == x.out.admitted
  }

  lemma EmptiedIdle(x: Sched, r: Sched)
    requires Emptied(x, r)
    ensures r.phase.Idle?
  {
  }

  function Moment(now: int): int { if now > 0 then now + 1 else 1 }

  lemma TicksOn(y: Sys, total: int)
    ensures Possible(y, Tick(Moment(y.now))) && Samples(Tick(Moment(y.now)), total)
    ensures Next(y, Tick(Moment(y.now)), {}) == y.(now := Moment(y.now))
  {
    hide HostOf;
  }

  // ---------------------------------------------------------------- a confirmed unload

  lemma CancelsWaiting(s: Sched, h: Host, id: nat, e: Model)
    requires s.phase.Unloading? && s.queued == [Req(id, e)] && s.swap.began
    ensures OnCancel(s, h, id) == s.(queued := [], out := s.out.(cancelled := s.out.cancelled + multiset{id}))
  {
    assert RemoveAt(s.queued, 0) == [];
  }

  lemma NextCancel(y: Sys, id: nat)
    ensures Possible(y, Cancel(id)) && Next(y, Cancel(id), {}) == y.(s := OnCancel(y.s, HostOf(y, {}), id))
  {
    hide OnCancel, HostOf;
  }

  /** The request that caused the unload is cancelled while it runs. */
  lemma UnloadAlone(y: Sys, x: Sys, e: Model, w: Model, next: nat)
    requires Unloads(y, x, e, w, next) && y.s.queued == []
    ensures Possible(x, Cancel(next))
    ensures var r := Next(x, Cancel(next), {});
      && r == x.(s := r.s) && CInv(r)
      && r.s == x.s.(queued := [], out := x.s.out.(cancelled := r.s.out.cancelled))
  {
    hide CInv, HostOf, OnCancel, Next, Possible;
    NextCancel(x, next);
    CancelsWaiting(x.s, HostOf(x, {}), next, e);
    Keeps(x, Cancel(next), {});
  }

  lemma EndsStopWell(x: Sys, w: Model)
    requires |x.s.out.unloads| == 1 && x.s.out.unloads[0].ids == [w] && x.s.out.unloads[0].stage.Stopping?
    requires x.s.out.loads == []
    requires w in x.clients && ClientOf(x, w).stopping
    ensures Possible(x, StopReturns(0, None))
    ensures var r := Next(x, StopReturns(0, None), {});
      && r == x.(s := SetUnload(x.s, 0, Confirmed(x.now)), clients := x.clients[w := ClientOf(r, w)])
      && ClientOf(r, w).state.Stopped?
  {
    hide HostOf;
    var s := SetUnload(x.s, 0, Confirmed(x.now));
    assert AnswerLoads(s, w, None) == s;
  }

  lemma MarksOne(l: Ledger, w: Model, at: int)
    requires l.marker == map[]
    ensures MarkAll(l, [w], at) == l.(marker := map[w := at])
  {
  }

  /** A later sample clears the only marker: the model is held at its residual. */
  lemma ClearsMarker(l: Ledger, m: Model, at: int, sample: Snapshot)
    requires m in l.cfg.models && l.marker == map[m := at] && Usable(l.cfg, sample) && sample.at > at
    ensures Observe(l, sample)
         == l.(reserved := l.reserved[m := l.cfg.models[m].residual], marker := map[], snap := sample, boot := true)
    ensures Lists([m], ClearedBy(l.marker, sample))
  {
    assert ClearedBy(l.marker, sample) == {m} == Elements([m]);
    LowersOne(l, m);
    hide Lowered, ClearedBy, Usable;
    assert l.marker - {m} == map[];
  }

  lemma LowersOne(l: Ledger, m: Model)
    requires m in l.cfg.models
    ensures Lowered(l.cfg, l.reserved, {m}) == l.reserved[m := l.cfg.models[m].residual]
  {
  }

  /** The ledger after the report. */
  lemma ReportLedger(l: Ledger, w: Model, at: int, sample: Snapshot)
    requires l.marker == map[] && Usable(l.cfg, sample) && sample.at > at && w in l.cfg.models
    ensures UnloadReported(l, [w], at, sample)
         == l.(reserved := l.reserved[w := l.cfg.models[w].residual], snap := sample, boot := true)
    ensures Lists([w], ClearedBy(MarkAll(l, [w], at).marker, sample))
  {
    MarksOne(l, w, at);
    hide Observe, MarkAll, ClearedBy, Usable, Lists;
    ClearsMarker(MarkAll(l, [w], at), w, at, sample);
  }

  lemma ReportSched(s: Sched, h: Host, w: Model)
    requires s.phase.Unloading? && s.queued == [] && s.swap.evict == [w] && |s.out.unloads| == 1
    ensures var r := OnUnloadDone(ClearMarkers(TakeUnload(s, 0), h, [w]), h, None);
      && Emptied(s, r) && r.work == s.work && r.out.unloads == [] && r.unloadFail == s.unloadFail - {w}
  {
    hide TryDispatch, ClearMarkers;
    var x := Unmarked(TakeUnload(s, 0), {w});
    assert Elements([w]) == {w};
    ClearMarkersOrder(TakeUnload(s, 0), h, [w]);
    EmptyDispatch(EndUnload(x, h), h);
  }

  lemma FreshReading(y: Sys, l: Ledger, total: int, free: int)
    requires y.now > 0 && y.l.cfg.device != "" && l.cfg == y.l.cfg && l.boot && l.snap == Reading(y, total, free)
    ensures GpuFresh(l, y.now) && Usable(y.l.cfg, Reading(y, total, free))
  {
  }

  lemma UnloadReports(x: Sys, w: Model, at: int, total: int)
    requires x.s.phase.Unloading? && x.s.queued == [] && x.s.swap.evict == [w]
    requires |x.s.out.unloads| == 1 && x.s.out.unloads[0].ids == [w] && x.s.out.unloads[0].stage == Confirmed(at)
    requires at < x.now && x.now > 0 && x.l.marker == map[] && x.l.cfg.device != "" && w in x.l.cfg.models && total >= 0
    ensures var e := UnloadReturns(0, Reading(x, total, 0), [w]);
      Possible(x, e) && Samples(e, total)
      && var r := Next(x, e, {});
         && r == x.(s := r.s, l := r.l) && FullNow(r, total)
         && r.l == x.l.(reserved := x.l.reserved[w := x.l.cfg.models[w].residual], snap := r.l.snap, boot := true)
         && Emptied(x.s, r.s) && r.s.work == x.s.work && r.s.out.unloads == [] && r.s.unloadFail == x.s.unloadFail - {w}
  {
    hide HostOf, OnUnloadDone, UnloadReported, ClearMarkers, ClearedBy, MarkAll, Emptied, GpuFresh, Usable;
    var sample := Reading(x, total, 0);
    FreshReading(x, x.l.(snap := sample, boot := true), total, 0);
    ReportLedger(x.l, w, at, sample);
    var l := UnloadReported(x.l, [w], at, sample);
    FreshReading(x, l, total, 0);
    ReportSched(x.s, HostOf(x.(l := l), {}), w);
  }

  lemma TakenOff(y: Sys, next: nat, w: Model, total: int, r: Sys)
    requires PutOff(y, r, w, total)
    requires Emptied(y.s.(out := y.s.out.(admitted := y.s.out.admitted + [next])), r.s)
    requires r.s.out.unloads == [] && r.s.unloadFail == {}
    requires AtRest(y, {}, next) && CInv(r)
    ensures AtRest(r, {}, next + 1)
  {
    hide CInv, GpuFresh;
  }

  /** The stop itself, from the request's unload to the confirmation. */
  ghost predicate Confirms(x: Sys, r: Sys, w: Model) {
    && w in x.clients && w in r.clients && CInv(r)
    && r == x.(s := r.s, clients := x.clients[w := r.clients[w]], now := Moment(x.now)) && r.clients[w].state.Stopped?
    && r.s == x.s.(queued := [], out := x.s.out.(cancelled := r.s.out.cancelled, unloads := r.s.out.unloads))
    && |r.s.out.unloads| == 1 && r.s.out.unloads[0].ids == [w] && r.s.out.unloads[0].stage == Confirmed(x.now)
  }

  lemma StopSucceeds(y: Sys, x: Sys, e: Model, w: Model, next: nat, total: int) returns (r: Sys)
    requires Unloads(y, x, e, w, next) && y.s.queued == [] && y.s.out.loads == [] && w in y.clients
    requires ClientOf(y, w).state.Ready?
    ensures Confirms(x, r, w) && Reaches(x, r, total)
  {
    hide CInv, HostOf, Next, Possible, Reaches, StateInv, CallsInv, Samples;
    UnloadAlone(y, x, e, w, next);
    var x1 := Next(x, Cancel(next), {});
    ReadyRuns(x1, w);
    BeginsStop(x1, w);
    var x2 := Next(x1, StopStarts(0), {});
    Keeps(x1, StopStarts(0), {});
    EndsStopWell(x2, w);
    var x3 := Next(x2, StopReturns(0, None), {});
    Keeps(x2, StopReturns(0, None), {});
    TicksOn(x3, total);
    var tick := Tick(Moment(x3.now));
    r := Next(x3, tick, {});
    Keeps(x3, tick, {});
    NoSample(Cancel(next), total);
    NoSample(StopStarts(0), total);
    NoSample(StopReturns(0, None), total);
    ReachesNext(x3, tick, total);
    ReachesFirst(x2, StopReturns(0, None), r, total);
    ReachesFirst(x1, StopStarts(0), r, total);
    ReachesFirst(x, Cancel(next), r, total);
  }

  lemma UnloadedNow(y: Sys, x: Sys, z: Sys, r: Sys, e: Model, w: Model, next: nat, total: int)
    requires Unloads(y, x, e, w, next) && Confirms(x, z, w) && !Busy(y.s.work, w)
    requires w in y.l.cfg.models && r == z.(s := r.s, l := r.l) && FullNow(r, total)
    requires r.l == z.l.(reserved := z.l.reserved[w := z.l.cfg.models[w].residual], snap := r.l.snap, boot := true)
    requires Emptied(z.s, r.s) && r.s.work == z.s.work && r.s.unloadFail == z.s.unloadFail - {w}
    requires AtRest(y, {}, next)
    ensures PutOff(y, r, w, total) && r.s.unloadFail == {} && r.l.serial == y.l.serial
    ensures Emptied(y.s.(out := y.s.out.(admitted := y.s.out.admitted + [next])), r.s)
  {
    hide CInv, AtRest, GpuFresh, Busy;
    RestSched(y, {}, next);
  }

  /** A round of eviction that succeeds: the planner's victim is unloaded, and the router is at rest again. */
  lemma UnloadRound(y: Sys, next: nat, e: Model, w: Model, total: int) returns (r: Sys)
    requires Victim(y, e, w) && total >= 0
    requires AtRest(y, {}, next)
    ensures AtRest(r, {}, next + 1) && PutOff(y, r, w, total) && Reaches(y, r, total)
  {
    hide CInv, AtRest, Reaches, Unloads, Confirms, PutOff, Busy, Slots, Victim, Next, Possible, Samples, FullNow,
         Emptied, LedgerLaws.LedgerOK;
    RestSched(y, {}, next);
    RestLedger(y, {}, next);
    DeviceOK(y.l);
    VictimFacts(y, e, w);
    var x := UnloadStarts(y, {}, next, e, w);
    var z := StopSucceeds(y, x, e, w, next, total);
    ConfirmedState(y, x, z, e, w, next);
    UnloadReports(z, w, x.now, total);
    var ev := UnloadReturns(0, Reading(z, total, 0), [w]);
    r := Next(z, ev, {});
    Keeps(z, ev, {});
    UnloadedNow(y, x, z, r, e, w, next, total);
    TakenOff(y, next, w, total, r);
    ReachesNext(z, ev, total);
    ReachesOn(x, z, r, total);
    ReachesOn(y, x, r, total);
  }

  lemma ConfirmedState(y: Sys, x: Sys, z: Sys, e: Model, w: Model, next: nat)
    requires Unloads(y, x, e, w, next) && Confirms(x, z, w) && y.l.marker == map[]
    ensures z.s.phase.Unloading? && z.s.queued == [] && z.s.swap.evict == [w] && x.now < z.now && z.now > 0
    ensures z.l == y.l
    ensures |z.s.out.unloads| == 1 && z.s.out.unloads[0].ids == [w] && z.s.out.unloads[0].stage == Confirmed(x.now)
    ensures CInv(z)
  {
    hide CInv;
  }

  // ---------------------------------------------------------------- a model found unloaded

  function OffResult(p: Probe, at: int): Result { ResultOf(p, NoErr, UnloadedIdle, 0, at) }

  /** The session has what it wants, and waits for a sample. */
  ghost predicate WaitsOne(s: Sched, r: Sched, m: Model, id: nat) {
    && r.phase.Sample? && r.queued == [Req(id, m)] && r.session.owner == id && id != 0
    && r.cfg == s.cfg && r.unloadFail == s.unloadFail && r.out.probes == []
    && r.out.loads == s.out.loads && r.out.unloads == s.out.unloads && r.out.admitted == s.out.admitted
    && (forall k :: k != m ==> SameWork(s.work, r.work, k)) && (Slots(s.work, m) == 0 ==> !Busy(r.work, m))
  }

  /** The session has asked about its one model, and wants a sample for it. */
  ghost predicate HasAsked(s: Sched, r: Sched, m: Model, id: nat) {
    && r.phase.Recover? && r.queued == [Req(id, m)] && id != 0
    && r.session == Session(r.session.token, id, m, [m], 0, {m}, {m}, false, false, false, None)
    && r.cfg == s.cfg && r.unloadFail == s.unloadFail && r.out.probes == []
    && r.out.loads == s.out.loads && r.out.unloads == s.out.unloads && r.out.admitted == s.out.admitted
    && (forall k :: k != m ==> SameWork(s.work, r.work, k)) && (Slots(s.work, m) == 0 ==> !Busy(r.work, m))
  }

  lemma AbsorbsOff(s: Sched, m: Model, id: nat, n: Note)
    requires AsksItself(s, m, id) && n.model == m
    requires n.applied && n.kind.NoErr? && n.rec.UnloadedIdle? && n.active == 0
    ensures HasAsked(s, Absorb(Noted(s, 0), n), m, id)
  {
    hide ApplyBackend, SameWork, Busy, Slots;
    WorkOff(s.work, m, n);
  }

  lemma WorkOff(w: Work, m: Model, n: Note)
    requires n.active == 0
    ensures var r := ApplyBackend(w, m, n.active, n.proof);
      (forall k :: k != m ==> SameWork(w, r, k)) && (Slots(w, m) == 0 ==> !Busy(r, m))
  {
  }

  lemma AsksNoMore(s: Sched, a: Sched, h: Host, m: Model, id: nat)
    requires HasAsked(s, a, m, id)
    ensures WaitsOne(s, LaunchProbe(a.(session := a.session.(pos := a.session.pos + 1)), h), m, id)
  {
    hide TryDispatch, FailOwner, BeginProbeAt, SameWork, Busy, Slots;
  }

  lemma OffEnds(s: Sched, h: Host, m: Model, id: nat, n: Note)
    requires AsksItself(s, m, id) && n.model == m && n.token == s.session.token && n.mode.Current?
    requires n.applied && n.ack.Applied? && n.kind.NoErr? && n.rec.UnloadedIdle? && n.active == 0
    ensures WaitsOne(s, NoteProbe(TakeProbe(s, 0), h, n), m, id)
  {
    hide NoteProbe, Noted, TakeProbe, Absorb, LaunchProbe, WaitsOne;
    NoteShape(s, h, 0, n);
    AbsorbsOff(s, m, id, n);
    AsksNoMore(s, Absorb(Noted(s, 0), n), h, m, id);
  }

  /** The waiting request is cancelled, and nothing is left. */
  lemma CancelsSession(s: Sched, h: Host, m: Model, id: nat)
    requires s.phase.Sample? && s.queued == [Req(id, m)] && s.session.owner == id
    ensures var r := OnCancel(s, h, id);
      && Emptied(s, r) && r.work == s.work && r.unloadFail == s.unloadFail && r.out.unloads == s.out.unloads
  {
    hide TryDispatch;
    assert RemoveAt(s.queued, 0) == [];
    var x := s.(queued := [], out := s.out.(cancelled := s.out.cancelled + multiset{id}));
    EmptyDispatch(DropOwner(x, id), h);
  }

  /** What the result does to the ledger: the peak is held, and a marker waits for a later sample. */
  lemma OffLedger(l: Ledger, now: int, ev: Result)
    requires CallsClient(ev) && ev.rec.UnloadedIdle? && l.marker == map[] && ev.model in l.cfg.models
    ensures var r := Recovered(l, now, ev, Applied);
      && r == l.(reserved := r.reserved, marker := map[ev.model := ev.completedAt])
      && r.reserved == EnsurePeak(l, ev.model).reserved
  {
    hide TimeOf;
  }

  lemma OffCleared(l: Ledger, r: Ledger, m: Model, at: int, sample: Snapshot)
    requires m in l.cfg.models && l.marker == map[]
    requires r == l.(reserved := EnsurePeak(l, m).reserved, marker := map[m := at])
    requires Usable(l.cfg, sample) && sample.at > at
    ensures Observe(r, sample)
         == l.(reserved := l.reserved[m := l.cfg.models[m].residual], snap := sample, boot := true)
    ensures Lists([m], ClearedBy(r.marker, sample))
  {
    hide Observe, ClearedBy, Usable, Lists;
    ClearsMarker(r, m, at, sample);
    assert r.reserved[m := l.cfg.models[m].residual] == l.reserved[m := l.cfg.models[m].residual];
  }

  /** The client is stopped, its peak is held, and the session waits for the marker to be cleared. */
  ghost predicate Confessed(y: Sys, r: Sys, m: Model, id: nat) {
    && m in y.clients && m in r.clients && m in y.l.cfg.models && r.clients[m].state.Stopped?
    && r == y.(s := r.s, l := r.l, clients := y.clients[m := r.clients[m]])
    && r.l == y.l.(reserved := EnsurePeak(y.l, m).reserved, marker := map[m := y.now])
    && WaitsOne(y.s, r.s, m, id)
  }

  /** The result comes back. */
  lemma OffReply(y: Sys, m: Model, id: nat)
    requires AsksItself(y.s, m, id) && m in y.clients && m in y.l.cfg.models && y.l.marker == map[]
    requires CInv(y)
    ensures var e := ProbeReturns(0, NoErr, UnloadedIdle, 0, y.now);
      Possible(y, e) && Confessed(y, Next(y, e, {}), m, id)
  {
    hide CInv, HostOf, NoteProbe, Recovered, AskClient, EnsurePeak, WaitsOne, TakeProbe, AfterProbe;
    var ev := OffResult(y.s.out.probes[0], y.now);
    ResultsAreApplied(y, 0, ev);
    OffClient(y, ev);
    OffLedger(y.l, y.now, ev);
    OffShape(y, ev);
    OffEnds(y.s, HostOf(Digested(y, ev), {}), m, id, NoteOf(ev, Current, Applied));
  }

  lemma ConfessedLedger(y: Sys, r: Sys, m: Model, id: nat)
    requires Confessed(y, r, m, id)
    ensures r.now == y.now && r.l == y.l.(reserved := EnsurePeak(y.l, m).reserved, marker := map[m := y.now])
    ensures WaitsOne(y.s, r.s, m, id)
  {
    hide EnsurePeak, WaitsOne;
  }

  lemma OffClient(y: Sys, ev: Result)
    requires y.s.out.probes != [] && ev == OffResult(y.s.out.probes[0], y.now) && ev.model in y.clients
    requires CInv(y)
    ensures AskClient(ClientOf(y, ev.model), ev).0.state.Stopped?
  {
    hide CInv;
    LiveProbe(y, 0);
    ClientFacts(y, ev.model);
    AskedClient(y.clients[ev.model], ev);
  }

  lemma OffShape(y: Sys, ev: Result)
    requires y.s.phase.Recover? && y.s.out.probes != [] && y.s.out.probes[0].token == y.s.session.token
    requires ev == OffResult(y.s.out.probes[0], y.now) && ev.model in y.clients
    requires AskClient(ClientOf(y, ev.model), ev).1.Applied?
    ensures var (c, ack) := AskClient(ClientOf(y, ev.model), ev);
      AfterProbe(y, {}, 0, ev)
      == y.(clients := y.clients[ev.model := c], l := Recovered(y.l, y.now, ev, Applied),
            s := NoteProbe(TakeProbe(y.s, 0), HostOf(Digested(y, ev), {}), NoteOf(ev, Current, Applied)))
  {
    hide NoteProbe, HostOf, Recovered, AskClient, TakeProbe;
  }

  lemma SampleSched(s: Sched, h: Host, m: Model)
    requires s.phase.Idle?
    ensures ClearMarkers(s, h, [m]) == Unmarked(s, {m})
  {
    hide TryDispatch;
    assert Elements([m]) == {m};
    ClearMarkersOrder(s, h, [m]);
  }

  lemma OffSampled(x: Sys, l: Ledger, m: Model, at: int, total: int)
    requires x.s.phase.Idle? && m in l.cfg.models && l.marker == map[] && l.cfg.device != "" && total >= 0
    requires x.l == l.(reserved := EnsurePeak(l, m).reserved, marker := map[m := at]) && at < x.now && x.now > 0
    ensures var e := Observes(Reading(x, total, 0), [m]);
      Possible(x, e) && Samples(e, total)
      && var r := Next(x, e, {});
         && r == x.(s := Unmarked(x.s, {m}), l := r.l) && FullNow(r, total)
         && r.l == l.(reserved := l.reserved[m := l.cfg.models[m].residual], snap := r.l.snap, boot := true)
  {
    hide HostOf, Observe, ClearMarkers, ClearedBy, EnsurePeak, GpuFresh, Usable, Unmarked;
    var sample := Reading(x, total, 0);
    FreshReading(x, x.l.(snap := sample, boot := true), total, 0);
    OffCleared(l, x.l, m, at, sample);
    FreshReading(x, Observe(x.l, sample), total, 0);
    SampleSched(x.s, HostOf(x.(l := Observe(x.l, sample)), {}), m);
  }

  lemma FoundOff(y: Sys, next: nat, m: Model, total: int, y1: Sys, y2: Sys, y3: Sys, r: Sys)
    requires m in y.clients && m in y.l.cfg.models && AskedFrom(y, y1, m, next)
    requires Confessed(y1, y2, m, next) && y3 == y2.(s := y3.s, now := y3.now)
    requires Emptied(y2.s, y3.s) && y3.s.work == y2.s.work && y3.s.unloadFail == y2.s.unloadFail
             && y3.s.out.unloads == y2.s.out.unloads
    requires r == y3.(s := Unmarked(y3.s, {m}), l := r.l) && FullNow(r, total)
    requires r.l == y.l.(reserved := y.l.reserved[m := y.l.cfg.models[m].residual], snap := r.l.snap, boot := true)
    requires AtRest(y, {m}, next)
    ensures PutOff(y, r, m, total) && r.s.unloadFail == {} && r.s.out.unloads == []
    ensures Emptied(y.s.(out := y.s.out.(admitted := y.s.out.admitted + [next])), r.s)
  {
    hide CInv;
    RestSched(y, {m}, next);
    assert Slots(y.s.work, m) == 0 by { hide CInv; }
    hide AtRest, GpuFresh, Busy, Slots, SameWork;
    forall k | k != m ensures SameWork(y.s.work, r.s.work, k) { assert SameWork(y1.s.work, y2.s.work, k); }
  }

  lemma FoundRests(y: Sys, next: nat, m: Model, total: int, r: Sys)
    requires PutOff(y, r, m, total) && r.s.unloadFail == {} && r.s.out.unloads == []
    requires Emptied(y.s.(out := y.s.out.(admitted := y.s.out.admitted + [next])), r.s)
    requires AtRest(y, {m}, next) && CInv(r)
    ensures AtRest(r, {}, next + 1)
  {
    hide CInv, GpuFresh;
  }

  /** The only model in doubt is found unloaded, and the next sample confirms it. */
  lemma DoubtUnloads(y: Sys, next: nat, m: Model, total: int) returns (r: Sys)
    requires total >= 0
    requires AtRest(y, {m}, next)
    ensures AtRest(r, {}, next + 1) && PutOff(y, r, m, total) && Reaches(y, r, total)
  {
    hide CInv, AtRest, Reaches, PutOff, Next, Possible, Samples, FullNow, Emptied, LedgerLaws.LedgerOK, AskedFrom,
         AsksItself, WaitsOne, Unmarked, EnsurePeak, Confessed;
    RestSched(y, {m}, next);
    RestLedger(y, {m}, next);
    DeviceOK(y.l);
    DoubtIsModel(y, next, m);
    RequestAsksItself(y, next, m);
    var e1 := Request(Req(next, m), false);
    var y1 := Next(y, e1, {});
    AskedLedger(y, y1, m, next);
    OffReply(y1, m, next);
    var e2 := ProbeReturns(0, NoErr, UnloadedIdle, 0, y1.now);
    var y2 := Next(y1, e2, {});
    Keeps(y1, e2, {});
    ConfessedLedger(y1, y2, m, next);
    var y3 := CancelsAndTicks(y1, y2, m, next, total);
    OffSampled(y3, y.l, m, y1.now, total);
    var e5 := Observes(Reading(y3, total, 0), [m]);
    r := Next(y3, e5, {});
    Keeps(y3, e5, {});
    FoundOff(y, next, m, total, y1, y2, y3, r);
    FoundRests(y, next, m, total, r);
    NoSample(e1, total);
    NoSample(e2, total);
    ReachesNext(y3, e5, total);
    ReachesOn(y2, y3, r, total);
    ReachesFirst(y1, e2, r, total);
    ReachesFirst(y, e1, r, total);
  }

  lemma CancelsAndTicks(y1: Sys, y: Sys, m: Model, id: nat, total: int) returns (r: Sys)
    requires WaitsOne(y1.s, y.s, m, id)
    requires CInv(y)
    ensures r == y.(s := r.s, now := r.now) && r.now > y.now && r.now > 0 && CInv(r) && Reaches(y, r, total)
    ensures Emptied(y.s, r.s) && r.s.work == y.s.work && r.s.unloadFail == y.s.unloadFail
    ensures r.s.out.unloads == y.s.out.unloads
    ensures r.s.phase.Idle?
  {
    hide CInv, Reaches, Next, Possible, Samples, Emptied, HostOf, OnCancel, SameWork;
    NextCancel(y, id);
    CancelsSession(y.s, HostOf(y, {}), m, id);
    var x := Next(y, Cancel(id), {});
    EmptiedIdle(y.s, x.s);
    Keeps(y, Cancel(id), {});
    TicksOn(x, total);
    var tick := Tick(Moment(x.now));
    r := Next(x, tick, {});
    Keeps(x, tick, {});
    NoSample(Cancel(id), total);
    ReachesNext(x, tick, total);
    ReachesFirst(y, Cancel(id), r, total);
  }

  lemma DoubtIsModel(y: Sys, next: nat, m: Model)
    requires AtRest(y, {m}, next)
    ensures m in y.clients && !ClientOf(y, m).state.Ready?
  {
    hide CInv;
  }

  lemma AskedLedger(y: Sys, r: Sys, m: Model, next: nat)
    requires AskedFrom(y, r, m, next)
    ensures r.l == y.l && r.clients == y.clients && r.now == y.now && AsksItself(r.s, m, next) && CInv(r)
  {
    hide CInv, AsksItself;
  }

  // ---------------------------------------------------------------- a load that fails

  /** The load of m failed and its request with it; all else is as at rest. */
  ghost predicate LoadGaveUp(y: Sys, r: Sys, m: Model, next: nat) {
    && m in y.clients && m in r.clients && r == y.(s := r.s, l := r.l, clients := y.clients[m := r.clients[m]])
    && r.clients[m].state.Failed? && r.l == y.l && r.s.work == y.s.work && r.s.unloadFail == y.s.unloadFail
    && r.s.out.unloads == []
    && Emptied(y.s.(out := y.s.out.(admitted := y.s.out.admitted + [next])), r.s)
  }

  lemma EnsureRuns(x: Sys, m: Model)
    requires x.s.out.loads == [LoadJob(m, Called)] && m in x.clients && !ClientOf(x, m).stopping
    requires ClientOf(x, m).state.Stopped? || ClientOf(x, m).state.Stopping?
    ensures var e := EnsureCalled(0, 0);
      var r := Next(x, e, {});
      && Possible(x, e) && m in r.clients
      && r == x.(s := SetLoad(x.s, 0, Waiting), clients := x.clients[m := ClientOf(r, m)])
      && ClientOf(r, m).op.Some? && ClientOf(r, m).state.Starting? && !ClientOf(r, m).stopping
  {
    hide HostOf;
  }

  lemma OpFails(x: Sys, m: Model)
    requires x.s.out.loads == [LoadJob(m, Waiting)] && m in x.clients && ClientOf(x, m).op.Some?
    requires !ClientOf(x, m).stopping
    requires ClientInv(ClientOf(x, m))
    ensures var e := OpReturns(m, Some(Uncoded));
      var r := Next(x, e, {});
      && Possible(x, e) && m in r.clients && ClientOf(r, m).state.Failed?
      && r == x.(s := SetLoad(x.s, 0, Answered(Some(Uncoded))), clients := x.clients[m := ClientOf(r, m)])
  {
    hide HostOf, CallsInv;
    assert AnswerLoads(x.s, m, Some(Uncoded)) == SetLoad(x.s, 0, Answered(Some(Uncoded)));
  }

  lemma LoadEnds(s: Sched, h: Host, m: Model)
    requires s.phase.Loading? && s.swap.target == Some(m) && |s.queued| == 1 && s.queued[0].model == m
    requires |s.out.loads| == 1
    ensures var r := OnSwapDone(TakeLoad(s, 0), h, m, Some(Uncoded));
      && Emptied(s.(out := s.out.(loads := [])), r) && r.work == s.work && r.unloadFail == s.unloadFail
      && r.out.unloads == s.out.unloads
  {
    hide TryDispatch;
    EmptyDispatch(EndLoad(TakeLoad(s, 0), Some(Uncoded)), h);
  }

  lemma LoadReportsFailure(x: Sys, m: Model)
    requires x.s.phase.Loading? && x.s.swap.target == Some(m) && |x.s.queued| == 1 && x.s.queued[0].model == m
    requires x.s.out.loads == [LoadJob(m, Answered(Some(Uncoded)))] && x.l.serial.None?
    ensures Possible(x, LoadReturns(0))
    ensures var r := Next(x, LoadReturns(0), {});
      && r == x.(s := r.s) && Emptied(x.s.(out := x.s.out.(loads := [])), r.s) && r.s.work == x.s.work
      && r.s.unloadFail == x.s.unloadFail && r.s.out.unloads == x.s.out.unloads
  {
    hide HostOf, OnSwapDone, Emptied;
    LoadEnds(x.s, HostOf(x, {}), m);
  }

  /** The load of m is in flight, for its own request; all else is as at rest. */
  ghost predicate LoadsFor(y: Sys, r: Sys, m: Model, next: nat) {
    && r == y.(s := r.s)
    && r.s.phase.Loading? && r.s.swap.target == Some(m) && r.s.queued == [Req(next, m)]
    && r.s.out.loads == [LoadJob(m, Called)]
    && r.s.cfg == y.s.cfg && r.s.work == y.s.work && r.s.unloadFail == y.s.unloadFail && r.s.gates.closed == {}
    && r.s.out.unloads == y.s.out.unloads && r.s.out.probes == y.s.out.probes
    && r.s.out.admitted == y.s.out.admitted + [next]
  }

  /** A model that may be loaded without unloading anything, and has no calls. */
  ghost predicate Loadable(y: Sys, m: Model) {
    && m in y.clients && (y.clients[m].state.Stopped? || y.clients[m].state.Stopping?) && Slots(y.s.work, m) == 0
    && Decide(y.l, StatesOf(y.clients), y.now, m) == Evict([])
  }

  lemma StartsLoad(s: Sched, h: Host, id: nat, m: Model)
    requires s.phase.Idle? && s.queued == [] && s.out.loads == [] && s.cfg.maxQ > 0 && id != 0 && m in h.states
    requires s.gates.closed == {} && s.gates.at.Keys == {}
    requires Suspects(h, s.unloadFail) == {} && Marked(h) == {} && Slots(s.work, m) == 0
    requires DecideOf(h, m) == Evict([]) && !StateOf(h, m).Ready?
    ensures var r := OnRequest(s, h, Req(id, m), false);
      var x := Admit(s, Req(id, m));
      r == StartLoad(x.(gates := r.gates), m) && r.gates.closed == {}
  {
    hide Suspects, Marked, MustRecover, Slots, TryDispatch, StartLoad, ReopenUnusedGates;
    var x := Admit(s, Req(id, m));
    AdmitsIt(s, h, id, m);
    NothingAsked(x, h, Req(id, m));
    LoadTurn(x, h);
    StillOpen(x, h);
    StartedAs(ReopenUnusedGates(x, h), m);
  }

  lemma StartedAs(s: Sched, m: Model)
    ensures StartLoad(s, m).gates == s.gates
  {
  }

  lemma LoadsNow(y: Sys, next: nat, m: Model)
    requires Loadable(y, m)
    requires AtRest(y, {}, next)
    ensures var e := Request(Req(next, m), false);
      Possible(y, e) && LoadsFor(y, Next(y, e, {}), m, next) && CInv(Next(y, e, {}))
  {
    hide CInv, AtRest, HostOf, Suspects, Marked, Next, OnRequest, Slots, Decide;
    NoDoubt(y, {}, next, m);
    RestHost(y, {}, next, m);
    RestSched(y, {}, next);
    var e := Request(Req(next, m), false);
    assert Possible(y, e);
    hide Possible;
    NextRequest(y, Req(next, m), {});
    StartsLoad(y.s, HostOf(y, {}), next, m);
    Keeps(y, e, {});
  }

  lemma NotInStop(x: Sys, m: Model)
    requires m in x.clients && x.s.out.unloads == []
    requires CInv(x)
    ensures !ClientOf(x, m).stopping && ClientInv(ClientOf(x, m))
  {
    hide CInv, ClientInv;
    ClientFacts(x, m);
  }

  /** The client of m runs the operation. */
  ghost predicate OpRuns(y: Sys, r: Sys, m: Model, next: nat) {
    && m in y.clients && m in r.clients && r == y.(s := r.s, clients := y.clients[m := r.clients[m]])
    && r.clients[m].op.Some? && r.clients[m].state.Starting? && !r.clients[m].stopping
    && r.s.phase.Loading? && r.s.swap.target == Some(m) && r.s.queued == [Req(next, m)]
    && r.s.out.loads == [LoadJob(m, Waiting)]
    && r.s.cfg == y.s.cfg && r.s.work == y.s.work && r.s.unloadFail == y.s.unloadFail && r.s.gates.closed == {}
    && r.s.out.unloads == [] && r.s.out.probes == y.s.out.probes && r.s.out.admitted == y.s.out.admitted + [next]
  }

  lemma LoadRuns(y: Sys, next: nat, m: Model, total: int) returns (r: Sys)
    requires Loadable(y, m)
    requires AtRest(y, {}, next)
    ensures OpRuns(y, r, m, next) && CInv(r) && Reaches(y, r, total)
  {
    hide CInv, AtRest, Next, Possible, Samples, Reaches, Decide, Slots, ClientInv;
    RestSched(y, {}, next);
    LoadsNow(y, next, m);
    var e := Request(Req(next, m), false);
    var x := Next(y, e, {});
    NotInStop(x, m);
    EnsureRuns(x, m);
    r := Next(x, EnsureCalled(0, 0), {});
    Keeps(x, EnsureCalled(0, 0), {});
    NoSample(e, total);
    NoSample(EnsureCalled(0, 0), total);
    ReachesNext(x, EnsureCalled(0, 0), total);
    ReachesFirst(y, e, r, total);
  }

  lemma FailureReported(y: Sys, x: Sys, r: Sys, m: Model, next: nat)
    requires OpRuns(y, x, m, next) && y.s.out.loads == []
    requires m in r.clients && r == x.(s := r.s, clients := x.clients[m := ClientOf(r, m)])
    requires ClientOf(r, m).state.Failed?
    requires Emptied(x.s.(out := x.s.out.(loads := [])), r.s) && r.s.work == x.s.work
    requires r.s.unloadFail == x.s.unloadFail && r.s.out.unloads == x.s.out.unloads
    ensures LoadGaveUp(y, r, m, next)
  {
  }

  lemma FailureRests(y: Sys, r: Sys, m: Model, next: nat)
    requires LoadGaveUp(y, r, m, next) && Slots(y.s.work, m) == 0
    requires AtRest(y, {}, next) && CInv(r)
    ensures AtRest(r, {m}, next + 1)
  {
    hide CInv, Slots;
  }

  /** A load that may start fails, and leaves its model in doubt. */
  lemma LoadRoundFails(y: Sys, next: nat, m: Model, total: int) returns (r: Sys)
    requires Loadable(y, m) && y.l.serial.None?
    requires AtRest(y, {}, next)
    ensures AtRest(r, {m}, next + 1) && LoadGaveUp(y, r, m, next) && Reaches(y, r, total)
  {
    hide CInv, AtRest, Next, Possible, Samples, Reaches, Decide, Slots, ClientInv, LoadGaveUp, Emptied;
    RestSched(y, {}, next);
    var x := LoadRuns(y, next, m, total);
    NotInStop(x, m);
    OpFails(x, m);
    var e := OpReturns(m, Some(Uncoded));
    var x1 := Next(x, e, {});
    Keeps(x, e, {});
    LoadReportsFailure(x1, m);
    r := Next(x1, LoadReturns(0), {});
    Keeps(x1, LoadReturns(0), {});
    SameCleared(x.s, x1.s, r.s);
    FailureReported(y, x, r, m, next);
    FailureRests(y, r, m, next);
    NoSample(e, total);
    NoSample(LoadReturns(0), total);
    ReachesNext(x1, LoadReturns(0), total);
    ReachesFirst(x, e, r, total);
    ReachesOn(y, x, r, total);
  }

  lemma SameCleared(s: Sched, x: Sched, r: Sched)
    requires x == s.(out := s.out.(loads := x.out.loads))
    requires Emptied(x.(out := x.out.(loads := [])), r)
    ensures Emptied(s.(out := s.out.(loads := [])), r)
  {
  }
}
