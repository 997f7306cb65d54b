/** What holds in every reachable state and across every step of the router. */
module SystemPromises {
  import opened Types
  import opened Admission
  import opened Scheduler
  import opened SchedulerLaws
  import opened SchedulerDispatch
  import opened SchedulerHandlers
  import opened SchedulerRecovery
  import opened SchedulerFrames
  import opened Ledger
  import opened ClientLoop
  import LedgerLaws
  import opened System
  import opened SystemLaws

  // ---------------------------------------------------------------- the scheduler and the ledger

  /**
   While the scheduler recovers or waits for samples, it waits for exactly the ledger's
   markers, on behalf of the head of its queue; and it never waits for none.
   */
  lemma SchedulerAndLedgerAgree(y: Sys)
    requires CInv(y)
    ensures InSession(y.s) ==>
              && y.s.session.needSample == y.l.marker.Keys
              && y.s.queued != [] && y.s.session.owner == y.s.queued[0].id && y.s.session.token > 0
    ensures y.s.phase.Sample? ==> y.l.marker.Keys != {}
  {
    hide CoreInv, LiveInv, AskInv, SeenInv, TargetInv, AroundOK, Decide;
  }

  /** What the scheduler does with a usable sample depends on what it cleared, not on the order. */
  lemma SampleReported(y: Sys, sample: Snapshot, order: seq<Model>, gone: set<nat>)
    requires Usable(y.l.cfg, sample) && Lists(order, ClearedBy(y.l.marker, sample))
    requires CInv(y)
    ensures var l := Observe(y.l, sample);
      var h := HostOf(y.(l := l), gone);
      var cleared := ClearedBy(y.l.marker, sample);
      && AfterSample(y, gone, sample, order)
         == y.(l := l, s := if y.s.phase.Sample? && y.s.session.needSample == cleared
                            then TryDispatch(EndSession(Unmarked(y.s, cleared)), h)
                            else Unmarked(y.s, cleared))
      && (y.s.phase.Sample? ==> (y.s.session.needSample == cleared <==> l.marker == map[]))
  {
    hide CInv, TryDispatch, HostOf, Usable;
    NeedsAreMarkers(y);
    var l := Observe(y.l, sample);
    ClearMarkersOrder(y.s, HostOf(y.(l := l), gone), order);
    LastMarker(y.l, sample);
  }

  lemma LastMarker(l: Ledger, sample: Snapshot)
    requires Usable(l.cfg, sample)
    ensures Observe(l, sample).marker == map[] <==> l.marker.Keys == ClearedBy(l.marker, sample)
  {
    var r := Observe(l, sample).marker;
    var cleared := ClearedBy(l.marker, sample);
    assert r.Keys == l.marker.Keys - cleared;
    if l.marker.Keys != cleared {
      var m :| m in l.marker && m !in cleared;
      assert m in r;
    }
  }

  /** The order in which a sample's markers are reported makes no difference. */
  lemma AnyReportOrder(y: Sys, sample: Snapshot, a: seq<Model>, b: seq<Model>, gone: set<nat>)
    requires Usable(y.l.cfg, sample)
    requires Lists(a, ClearedBy(y.l.marker, sample)) && Lists(b, ClearedBy(y.l.marker, sample))
    requires CInv(y)
    ensures AfterSample(y, gone, sample, a) == AfterSample(y, gone, sample, b)
  {
    hide CInv, HostOf, AfterSample, Observe, TryDispatch, Lists, ClearedBy, Usable;
    SampleReported(y, sample, a, gone);
    SampleReported(y, sample, b, gone);
  }

  /** A usable sample ends the wait if it clears the last marker, with one dispatch, and else leaves it. */
  lemma DispatchResumesAtTheLastMarker(y: Sys, sample: Snapshot, order: seq<Model>, gone: set<nat>)
    requires y.s.phase.Sample? && Usable(y.l.cfg, sample) && Lists(order, ClearedBy(y.l.marker, sample))
    requires CInv(y)
    ensures var y' := AfterSample(y, gone, sample, order);
      if y'.l.marker == map[]
      then y'.s == TryDispatch(EndSession(Unmarked(y.s, Elements(order))), HostOf(y', gone))
      else y'.s == Unmarked(y.s, Elements(order)) && y'.s.phase.Sample?
  {
    hide CInv, HostOf, AfterSample, Observe, TryDispatch, ClearedBy, Usable;
    SampleReported(y, sample, order, gone);
    SameHost(y.(l := Observe(y.l, sample)), AfterSample(y, gone, sample, order), gone);
  }

  /** Still waiting for samples, for the same request. */
  ghost predicate StillWaits(y: Sys, r: Sys) {
    r.s.phase.Sample? && y.s.queued != [] && r.s.queued != [] && r.s.queued[0] == y.s.queued[0]
  }

  /** The request leaves, a sample cannot be used, or one clears the last marker. */
  ghost predicate EndsWait(y: Sys, e: Event) {
    && y.s.queued != []
    && match e
       case Cancel(id) => id == y.s.queued[0].id
       case TimesOut(id) => id == y.s.queued[0].id
       case Observes(sample, _) => !Usable(y.l.cfg, sample) || y.l.marker.Keys == ClearedBy(y.l.marker, sample)
       case _ => false
  }

  lemma SampleHalts(s: Sched, h: Host)
    requires s.phase.Sample?
    ensures TryDispatch(s, h) == s
  {
  }

  lemma QuietHandlers(y: Sys, e: Event, gone: set<nat>)
    requires Possible(y, e) && y.s.phase.Sample? && y.s.queued != []
    requires !e.Cancel? && !e.TimesOut? && !e.Observes? && !e.ProbeReturns? && !e.UnloadReturns? && !e.UnloadFails?
    requires !e.LoadReturns?
    ensures StillWaits(y, Next(y, e, gone))
  {
    hide HostOf, TryDispatch, AdmitLoad, OnReady, OnOpDone, BeginStop, EndStop, Slots, ApplyBackend, ServeDone;
    var h := HostOf(y, gone);
    match e
    case Request(req, left) => SampleHalts(Admit(y.s, req), h);
    case GrantCancelled(m) => var s := Ungrant(y.s, m); SampleHalts(s.(work := CancelGranted(s.work, m)), h);
    case ServeEnds(m) =>
      SampleHalts(y.s.(work := ServeDone(y.s.work, m)),
                  HostOf(y.(l := NoteUse(y.l, y.now, m), serving := y.serving - multiset{m}), gone));
    case StatusReturns(i, count) =>
      if count.Some? {
        SampleHalts(y.s.(work := ApplyBackend(y.s.work, y.statuses[i].model, count.value, y.statuses[i].gen)), h); }
    case BackendEnds(m) => SampleHalts(y.s.(work := y.s.work.(backend := y.s.work.backend - {m})), h);
    case Reminder(i) => var s := TakeReminder(y.s, i); SampleHalts(s.(gates := s.gates.(armed := false)), h);
    case _ =>
  }

  /** Whoever cancels or times out is no longer in the queue. */
  lemma LeftQueue(s: Sched, h: Host, id: nat)
    requires Distinct(Ids(s.queued))
    ensures forall q :: q in OnCancel(s, h, id).queued || q in OnQueueTimeout(s, h, id).queued ==> q.id != id
  {
    hide TryDispatch;
    var i := IndexOf(s.queued, id);
    if i < |s.queued| {
      var rest := RemoveAt(s.queued, i);
      assert forall k :: 0 <= k < |rest| ==> rest[k].id == Ids(s.queued)[if k < i then k else k + 1];
      assert forall q :: q in rest ==> q.id != id;
      var c := s.(queued := rest, out := s.out.(cancelled := s.out.cancelled + multiset{id}));
      DispatchQueue(DropOwner(c, id), h);
      var d := DropOwner(s.(queued := rest), id);
      DispatchQueue(d.(out := Answer(d.out, id, Errored(QueueTimeout))), h);
    }
  }

  lemma OthersLeave(s: Sched, h: Host, id: nat)
    requires s.phase.Sample? && s.queued != [] && s.session.owner == s.queued[0].id && id != s.queued[0].id
    ensures var r := OnCancel(s, h, id); r.phase.Sample? && r.queued != [] && r.queued[0] == s.queued[0]
    ensures var r := OnQueueTimeout(s, h, id); r.phase.Sample? && r.queued != [] && r.queued[0] == s.queued[0]
  {
    hide TryDispatch;
    var i := IndexOf(s.queued, id);
    if i < |s.queued| {
      var q := s.(queued := RemoveAt(s.queued, i));
      SampleHalts(q.(out := q.out.(cancelled := q.out.cancelled + multiset{id})), h);
      SampleHalts(q.(out := Answer(q.out, id, Errored(QueueTimeout))), h);
    }
  }

  lemma QueueIds(y: Sys)
    requires CInv(y)
    ensures Distinct(Ids(y.s.queued))
  {
    hide WorkInv, TallyInv, GateInv, LifeInv, LateInv, RecInv, AroundOK, HostOf, Ids, Distinct;
  }

  lemma LeaveEndsWait(y: Sys, id: nat, gone: set<nat>)
    requires y.s.phase.Sample? && y.s.queued != [] && y.s.session.owner == y.s.queued[0].id
    requires CInv(y)
    ensures var h := HostOf(y, gone);
      && (StillWaits(y, y.(s := OnCancel(y.s, h, id))) <==> id != y.s.queued[0].id)
      && (StillWaits(y, y.(s := OnQueueTimeout(y.s, h, id))) <==> id != y.s.queued[0].id)
  {
    hide CInv, HostOf, OnCancel, OnQueueTimeout, Ids, Distinct;
    if id == y.s.queued[0].id {
      QueueIds(y);
      LeftQueue(y.s, HostOf(y, gone), id);
    } else {
      OthersLeave(y.s, HostOf(y, gone), id);
    }
  }

  /** An unusable sample fails the head. */
  lemma FailedSampleLeaves(s: Sched, h: Host)
    requires s.phase.Sample? && s.queued != [] && s.session.owner == s.queued[0].id && Distinct(Ids(s.queued))
    ensures forall q :: q in SampleFailed(s, h).queued ==> q != s.queued[0]
  {
    hide TryDispatch;
    assert forall k :: 0 < k < |s.queued| ==> s.queued[k].id == Ids(s.queued)[k] && s.queued[0].id == Ids(s.queued)[0];
    assert forall q :: q in s.queued[1..] ==> q != s.queued[0];
    var s1 := EndSession(s).(session := s.session.(token := 0, owner := 0, current := None));
    DispatchQueue(FailHead(s1, NotBooted), h);
  }

  lemma SampleEndsWait(y: Sys, sample: Snapshot, order: seq<Model>, gone: set<nat>)
    requires y.s.phase.Sample? && y.s.queued != [] && y.s.session.owner == y.s.queued[0].id
    requires Usable(y.l.cfg, sample) ==> Lists(order, ClearedBy(y.l.marker, sample))
    requires CInv(y) && CInv(AfterSample(y, gone, sample, order))
    ensures StillWaits(y, AfterSample(y, gone, sample, order)) <==> !EndsWait(y, Observes(sample, order))
  {
    hide CInv, HostOf, Observe, TryDispatch, ClearedBy, Usable, SampleFailed, ClearMarkers, Distinct, Ids;
    var r := AfterSample(y, gone, sample, order);
    if Usable(y.l.cfg, sample) {
      DispatchResumesAtTheLastMarker(y, sample, order, gone);
      LastMarker(y.l, sample);
      SchedulerAndLedgerAgree(r);
    } else {
      QueueIds(y);
      FailedSampleLeaves(y.s, HostOf(y.(l := Observe(y.l, sample)), gone));
      assert r.s.queued != [] ==> r.s.queued[0] in r.s.queued;
    }
  }

  /** What else might have ended it cannot happen: no job is in flight, and no result is for this session. */
  lemma NothingElseReturns(y: Sys)
    requires y.s.phase.Sample?
    requires CInv(y)
    ensures y.s.out.loads == [] && y.s.out.unloads == [] && y.s.queued != [] && y.s.session.owner == y.s.queued[0].id
  {
    hide WorkInv, QueueInv, TallyInv, GateInv, LateInv, RecInv, AroundOK, HostOf;
    SchedulerAndLedgerAgree(y);
  }

  lemma ReturnedWaits(y: Sys, i: nat, ev: Result, gone: set<nat>)
    requires i < |y.s.out.probes| && ev.model in y.clients && y.s.phase.Sample? && y.s.queued != []
    ensures StillWaits(y, AfterProbe(y, gone, i, ev))
  {
    hide HostOf, NoteProbe;
  }

  lemma NoReport(y: Sys, e: Event)
    requires Possible(y, e) && y.s.out.loads == [] && y.s.out.unloads == []
    ensures !e.LoadReturns? && !e.UnloadReturns? && !e.UnloadFails?
  {
    hide Usable, ClearedBy, MarkAll;
  }

  /**
   Over every event: a wait for samples ends exactly when its request leaves the queue, a
   sample cannot be used, or a sample clears the last marker.
   */
  lemma WaitEndsExactly(y: Sys, e: Event, gone: set<nat>)
    requires Possible(y, e) && y.s.phase.Sample?
    requires CInv(y)
    ensures StillWaits(y, Next(y, e, gone)) <==> !EndsWait(y, e)
  {
    hide CInv, HostOf, OnRequest, OnCancel, OnQueueTimeout, AfterSample, StillWaits, RecoverMode, AfterProbe,
         AfterServe, AfterProxy, AfterEnsure, AfterOp, AfterStopStarts, AfterStopReturns, AfterLoad, AfterUnload,
         OnStatus, OnBackendDone, OnRemind, OnUnloadDone, OnCancelGranted, AdmitLoad, MarkAll;
    NothingElseReturns(y);
    NoReport(y, e);
    match e
    case Cancel(id) => LeaveEndsWait(y, id, gone);
    case TimesOut(id) => LeaveEndsWait(y, id, gone);
    case Observes(sample, order) => Keeps(y, e, gone); SampleEndsWait(y, sample, order, gone);
    case ProbeReturns(i, kind, rec, active, at) =>
      ReturnedWaits(y, i, ResultOf(y.s.out.probes[i], kind, rec, active, at), gone);
    case _ => QuietHandlers(y, e, gone);
  }

  // ---------------------------------------------------------------- bytes are freed only for stopped models

  ghost function HappeningOf(y: Sys, e: Event): Option<LedgerLaws.Happening> {
    if !Possible(y, e) then None
    else
      match e
      case ServeEnds(m) => Some(LedgerLaws.Used(y.now, m))
      case LoadReturns(i) => Some(LedgerLaws.Load(y.now, y.s.out.loads[i].model, y.s.out.loads[i].stage.fault))
      case GateAsked(m) => Some(LedgerLaws.Gate(StatesOf(y.clients), y.now, false, m))
      case Observes(sample, _) => Some(LedgerLaws.Happening.Sample(sample))
      case UnloadReturns(i, sample, _) =>
        Some(LedgerLaws.Unload(y.s.out.unloads[i].ids, y.s.out.unloads[i].stage.at, sample))
      case ProbeReturns(i, kind, rec, active, at) =>
        var ev := ResultOf(y.s.out.probes[i], kind, rec, active, at);
        if RecoverMode(y.s, ev.token).Drop? then None
        else Some(LedgerLaws.Happening.Probe(y.now, ev, AskClient(y.clients[ev.model], ev).1))
      case _ => None
  }

  lemma LedgerStep(y: Sys, e: Event, gone: set<nat>)
    requires Possible(y, e)
    ensures var h := HappeningOf(y, e);
      Next(y, e, gone).l == if h.None? then y.l else LedgerLaws.Apply(y.l, h.value)
  {
    hide TryDispatch, OnRequest, OnCancel, OnQueueTimeout, OnServeDone, OnStatus, OnBackendDone, OnRemind, OnSwapDone,
         OnUnloadDone, NoteProbe, ClearMarkers, SampleFailed, Recovered, AdmitLoad, LoadReported, UnloadReported,
         Observe, Decide, RecoverMode, OnCancelGranted, OnProxyStart, OnReady, OnOpDone, AnswerLoads, BeginStop,
         EndStop, Usable, ClearedBy;
  }

  /** Every marked model, and every model whose unload is confirmed, is stopped with nothing in flight. */
  lemma EvidenceIsOfStopped(y: Sys, e: Event, id: Model)
    requires Possible(y, e) && HappeningOf(y, e).Some? && LedgerLaws.Evidence(y.l, HappeningOf(y, e).value, id)
    requires CInv(y)
    ensures id in y.clients && ClientOf(y, id).state.Stopped? && ClientOf(y, id).op.None?
  {
    hide Inv, LedgerLaws.LedgerOK, ReadsOK, ServingOK, OnceOK, CallsInv, Decide, AskClient, RecoverMode;
  }

  lemma HappeningIsKnown(y: Sys, e: Event)
    requires Possible(y, e) && HappeningOf(y, e).Some?
    requires CInv(y)
    ensures LedgerLaws.LedgerOK(y.l) && LedgerLaws.Known(y.l.cfg, HappeningOf(y, e).value)
  {
    hide CInv, LedgerLaws.LedgerOK, AskClient, RecoverMode, Lists, Usable, ClearedBy, MarkAll, UnloadAt;
    LedgerFacts(y);
    if e.UnloadReturns? { UnloadTarget(y, e.i); }
  }

  /**
   A reservation falls only for a model whose client is stopped with no operation in
   flight, to its residual, on a sample later than a recorded proof; and the clients are
   as they were when it has fallen. No live model ever loses its bytes.
   */
  lemma OnlyStoppedModelsAreLowered(y: Sys, e: Event, gone: set<nat>, id: Model)
    requires Possible(y, e) && id in y.l.reserved
    requires CInv(y)
    ensures var r := Next(y, e, gone);
      && id in r.l.reserved
      && (r.l.reserved[id] < y.l.reserved[id] ==>
            && r.clients == y.clients && id in r.clients && ClientOf(r, id).state.Stopped? && ClientOf(r, id).op.None?
            && r.l.reserved[id] == y.l.cfg.models[id].residual
            && (e.Observes? || e.UnloadReturns?))
  {
    hide CInv, Possible, Next, LedgerLaws.LedgerOK, LedgerLaws.Known, LedgerLaws.Apply, LedgerLaws.Evidence,
         HappeningOf;
    LedgerStep(y, e, gone);
    if HappeningOf(y, e).Some? {
      var h := HappeningOf(y, e).value;
      HappeningIsKnown(y, e);
      LedgerLaws.FallsOnlyOnEvidence(y.l, h, id);
      if Next(y, e, gone).l.reserved[id] < y.l.reserved[id] {
        EvidenceIsOfStopped(y, e, id);
        EvidenceIsASample(y, e, gone, id);
      }
    }
  }

  lemma EvidenceIsASample(y: Sys, e: Event, gone: set<nat>, id: Model)
    requires Possible(y, e) && HappeningOf(y, e).Some? && LedgerLaws.Evidence(y.l, HappeningOf(y, e).value, id)
    ensures (e.Observes? || e.UnloadReturns?) && Next(y, e, gone).clients == y.clients
  {
    hide HostOf, TryDispatch, ClearMarkers, OnUnloadDone, SampleFailed, AskClient, RecoverMode;
  }

  ghost predicate RoundAt(y: Sys, r: Sys, j: UnloadJob, sample: Snapshot, gone: set<nat>)
    requires j.stage.Confirmed?
  {
    && |j.ids| == 1 && j.ids[0] in r.clients && r.clients == y.clients && r.clients[j.ids[0]].state.Stopped?
    && r.l == LedgerLaws.Unloaded(y.l, j.ids[0], j.stage.at, sample)
    && forall t :: t in r.clients ==>
         DecideOf(HostOf(r, gone), t)
         == Decide(LedgerLaws.Unloaded(y.l, j.ids[0], j.stage.at, sample), StatesOf(r.clients), r.now, t)
  }

  /**
   A round of eviction is the report of an unload: its victim is stopped, the ledger is the
   one of a confirmed unload seen by a later usable sample, and that is the ledger the
   planner decides on for the head.
   */
  lemma EvictionRound(y: Sys, i: nat, sample: Snapshot, order: seq<Model>, gone: set<nat>)
    requires i < |y.s.out.unloads| && y.s.out.unloads[i].stage.Confirmed?
    requires Usable(y.l.cfg, sample) && sample.at > y.s.out.unloads[i].stage.at
    requires CInv(y)
    ensures RoundAt(y, AfterUnload(y, gone, i, sample, order), y.s.out.unloads[i], sample, gone)
  {
    hide Inv, LedgerLaws.LedgerOK, ReadsOK, ServingOK, OnceOK, MarkedOK, ClientInv, Decide, Observe, MarkAll, ClearedBy,
         Usable, OnUnloadDone, ClearMarkers;
    UnloadTarget(y, i);
    assert y.s.out.unloads[i].ids == [y.s.out.unloads[i].ids[0]];
  }

  // ---------------------------------------------------------------- recovery

  /** One probe at most is in flight in the whole router. */
  lemma OneProbe(y: Sys)
    requires CInv(y)
    ensures |y.s.out.probes| <= 1
  {
    hide CoreInv, SessionInv, AskInv, SeenInv, TargetInv, AroundOK, Decide;
  }

  /** No request has a model asked about twice on its behalf, so it causes no more probes than there are models. */
  lemma ProbesPerRequestBounded(y: Sys, owner: nat)
    requires CInv(y)
    ensures forall m :: y.s.out.begun[(owner, m)] <= if m in y.clients then 1 else 0
    ensures |set m | m in y.clients && y.s.out.begun[(owner, m)] > 0| <= |y.clients|
  {
    hide CoreInv, SessionInv, AskInv, LiveInv, AroundOK, SeenBy, Decide;
    var asked := set m | m in y.clients && y.s.out.begun[(owner, m)] > 0;
    SubsetSize(asked, y.clients.Keys);
  }

  lemma SubsetSize(a: set<Model>, b: set<Model>)
    requires a <= b
    ensures |a| <= |b|
  {
    assert b == a + (b - a);
  }

  /**
   Whenever a result comes back that the scheduler does not drop, the client applies it:
   before shutdown it is neither busy nor of another generation.
   */
  lemma NoResultIsStale(y: Sys, e: Event)
    requires Possible(y, e) && e.ProbeReturns?
    requires CInv(y)
    ensures var ev := ResultOf(y.s.out.probes[e.i], e.kind, e.rec, e.active, e.at);
      AskClient(ClientOf(y, ev.model), ev).1.Applied?
  {
    hide CInv;
    ResultsAreApplied(y, e.i, ResultOf(y.s.out.probes[e.i], e.kind, e.rec, e.active, e.at));
  }

  /** A late result is welcome only if nothing was started since its session was dropped. */
  lemma LateOnlyIfNothingStarted(y: Sys, token: nat)
    requires RecoverMode(y.s, token).Late?
    requires CInv(y)
    ensures token in y.s.out.droppedAt && y.s.out.droppedAt[token] == y.s.out.actions
  {
    hide WorkInv, QueueInv, TallyInv, GateInv, LifeInv, RecInv, AroundOK, Decide;
  }

  // ---------------------------------------------------------------- evidence before action

  /** The model's local state says nothing reliable about the device. */
  ghost predicate InDoubt(y: Sys, m: Model) {
    && m in y.clients
    && (y.clients[m].state.Failed? || y.clients[m].state.Unknown? || m in y.s.unloadFail)
    && !(y.clients[m].op.Some? && y.clients[m].state.Starting?)
  }

  /**
   The head for which a job was started is not ready; and either its own load is being
   joined, or no model waits for a sample and every model in doubt has reported back to
   this very request.
   */
  ghost predicate StartedOnEvidence(y: Sys) {
    && y.s.queued != [] && y.s.swap.target == Some(y.s.queued[0].model) && y.s.queued[0].model in y.clients
    && var c := y.clients[y.s.queued[0].model];
       && !c.state.Ready?
       && ((c.state.Starting? && c.op.Some?)
           || (y.l.marker == map[] && forall m: Model :: InDoubt(y, m) ==> (y.s.queued[0].id, m) in y.s.out.noted))
  }

  lemma HeadIsKnown(y: Sys)
    requires y.s.queued != []
    requires CInv(y)
    ensures y.s.queued[0].model in y.clients
  {
    hide WorkInv, TallyInv, GateInv, LifeInv, LateInv, RecInv, AroundOK, Decide;
  }

  lemma SeenHasReported(y: Sys, m: Model)
    requires y.s.queued != [] && !y.s.phase.Recover? && m in SeenBy(y.s.book, y.s.queued[0].id)
    requires CInv(y)
    ensures (y.s.queued[0].id, m) in y.s.out.noted
  {
    hide CoreInv, SessionInv, LiveInv, AskInv, TargetInv, AroundOK, HostOf, SeenBy;
  }

  lemma DoubtIsSuspect(y: Sys, m: Model, gone: set<nat>)
    requires InDoubt(y, m) && m !in y.l.marker
    ensures m in Suspects(HostOf(y, gone), y.s.unloadFail)
  {
    hide Decide;
  }

  lemma EvidenceMeans(y: Sys, gone: set<nat>)
    requires ActsFor(y.s, HostOf(y, gone)) && !y.s.phase.Recover?
    requires CInv(y)
    ensures StartedOnEvidence(y)
  {
    hide CInv, Suspects, InDoubt, Decide, SeenBy, Marked;
    MarkedHere(y, gone);
    HeadIsKnown(y);
    forall m | InDoubt(y, m) && y.l.marker.Keys == {} && m in SeenBy(y.s.book, y.s.queued[0].id)
      ensures (y.s.queued[0].id, m) in y.s.out.noted
    {
      SeenHasReported(y, m);
    }
    forall m | InDoubt(y, m) && y.l.marker.Keys == {}
      ensures m in Suspects(HostOf(y, gone), y.s.unloadFail)
    {
      DoubtIsSuspect(y, m, gone);
    }
  }

  lemma MarkedHere(y: Sys, gone: set<nat>)
    requires CInv(y)
    ensures Marked(HostOf(y, gone)) == y.l.marker.Keys
  {
    hide Inv, LedgerLaws.LedgerOK, ClientInv, UnloadsOK, ReadsOK, ServingOK, OnceOK, Decide;
  }

  /** In every run, whatever event starts a load or an unload, it starts it on that evidence. */
  lemma JobsStartOnEvidence(y: Sys, e: Event, gone: set<nat>)
    requires Possible(y, e) && !AtClient(e)
    requires CInv(y)
    ensures var r := Next(y, e, gone);
      && (r.s.out.loads != [] && r.s.out.loads != Taken(y, e).out.loads ==> StartedOnEvidence(r))
      && (r.s.out.unloads != [] && r.s.out.unloads != Taken(y, e).out.unloads ==> StartedOnEvidence(r))
  {
    hide CInv, Next, Possible, Taken, ActsFor, FairUnload, HostOf, StartedOnEvidence;
    Keeps(y, e, gone);
    var r := Next(y, e, gone);
    JobPhase(r);
    if (r.s.out.loads != [] && r.s.out.loads != Taken(y, e).out.loads)
       || (r.s.out.unloads != [] && r.s.out.unloads != Taken(y, e).out.unloads) {
      EvidenceMeans(r, gone);
    }
  }

  lemma JobPhase(y: Sys)
    requires CInv(y)
    ensures y.s.out.loads != [] || y.s.out.unloads != [] ==> !y.s.phase.Recover?
  {
    hide Inv, AroundOK, HostOf;
    OneUnload(y.s, HostOf(y, {}));
  }

  // ---------------------------------------------------------------- jobs and calls

  /**
   At most one load or unload is in flight, and from its start to its report an unload's
   victim has no call delivered, none being served and none unresolved.
   */
  lemma VictimsAreQuietThroughout(y: Sys)
    requires CInv(y)
    ensures |y.s.out.loads| + |y.s.out.unloads| <= 1
    ensures forall i, v :: 0 <= i < |y.s.out.unloads| && v in y.s.out.unloads[i].ids ==>
              y.serving[v] == 0 && y.s.out.granted[v] == 0 && Get(y.s.work.unresolved, v) == 0
  {
    hide QueueInv, TallyInv, GateInv, LateInv, RecInv, LedgerLaws.LedgerOK, ClientsOK, UnloadsOK, MarkedOK, ReadsOK,
         OnceOK, Decide, ServingOK, WorkOK, Slots, HostOf;
    forall i, v | 0 <= i < |y.s.out.unloads| && v in y.s.out.unloads[i].ids
      ensures y.serving[v] == 0 && y.s.out.granted[v] == 0 && Get(y.s.work.unresolved, v) == 0
    {
      assert v in y.s.swap.evict && Slots(y.s.work, v) == 0;
      SlotsAreCalls(y, v);
    }
  }

  /** The scheduler's counters are the calls themselves. */
  lemma SlotsAreCalls(y: Sys, m: Model)
    requires CInv(y)
    ensures Slots(y.s.work, m) == y.s.out.granted[m] + y.serving[m] + Get(y.s.work.unresolved, m)
    ensures Slots(y.s.work, m) <= Limit(y.s.cfg, m)
  {
    hide QueueInv, TallyInv, GateInv, LateInv, LifeInv, RecInv, LedgerLaws.LedgerOK, ClientsOK, UnloadsOK, MarkedOK,
         ReadsOK, OnceOK, Decide, HostOf, Limit;
  }

  /** Every admitted request is queued, answered or cancelled, once. */
  lemma ExactlyOnce(y: Sys, id: nat)
    requires id in y.s.out.admitted
    requires CInv(y)
    ensures multiset(Ids(y.s.queued))[id] + y.s.out.answered[id] + y.s.out.cancelled[id] == 1
  {
    hide WorkInv, GateInv, LateInv, LifeInv, RecInv, LedgerLaws.LedgerOK, ClientsOK, UnloadsOK, MarkedOK, ReadsOK,
         Decide, Subseq, ServingOK, HostOf;
    assert multiset(y.s.out.admitted)[id] == 1;
  }

  lemma {:induction false} PrefixIsSubseq(a: seq<nat>, tail: seq<nat>, b: seq<nat>)
    requires Subseq(a + tail, b)
    ensures Subseq(a, b)
    decreases |tail|
  {
    if tail == [] {
      assert a + tail == a;
    } else {
      var all := a + tail;
      SubseqInit(all, b);
      assert all[..|all| - 1] == a + tail[..|tail| - 1];
      PrefixIsSubseq(a, tail[..|tail| - 1], b);
    }
  }

  // ---------------------------------------------------------------- the idle proof

  /** A report that the model has no call active, begun with none out here, and none granted since. */
  ghost predicate ProvenIdle(y: Sys, e: Event, m: Model) {
    && Possible(y, e)
    && match e
       case StatusReturns(i, count) =>
         var r := y.statuses[i];
         r.model == m && count == Some(0) && r.busy == 0 && r.grants == Get(y.s.work.dispatchGen, m)
       case ProbeReturns(i, kind, _, active, _) =>
         var p := y.s.out.probes[i];
         p.model == m && kind.NoErr? && active == 0 && p.busy == 0 && p.grants == Get(y.s.work.dispatchGen, m)
       case _ => false
  }

  /** The queue's own events leave unfinished work and failed unloads alone. */
  lemma QueueResolvesNothing(y: Sys, e: Event, gone: set<nat>)
    requires Possible(y, e)
    requires e.Request? || e.Cancel? || e.TimesOut? || e.GrantCancelled? || e.BackendEnds? || e.Reminder?
    ensures var r := Next(y, e, gone).s;
      r.work.unresolved == y.s.work.unresolved && r.unloadFail == y.s.unloadFail
  {
    hide TryDispatch, OnRequest, OnCancel, OnQueueTimeout, OnBackendDone, OnRemind, OnCancelGranted, HostOf, RemoveAt;
    var h := HostOf(y, gone);
    match e
    case Request(req, left) => RequestCalm(y.s, h, req, left);
    case Cancel(id) => CancelCalm(y.s, h, id);
    case TimesOut(id) => TimeoutCalm(y.s, h, id);
    case GrantCancelled(k) => CancelGrantedCalm(Ungrant(y.s, k), h, k);
    case BackendEnds(k) => BackendCalm(y.s, h, k);
    case Reminder(i) => RemindCalm(TakeReminder(y.s, i), h);
  }

  /** The marker of m goes, on a sample later than the proof that it is off the device. */
  ghost predicate MarkerGoes(y: Sys, e: Event, m: Model) {
    ((e.Observes? && Usable(y.l.cfg, e.sample)) || e.UnloadReturns?) && m in Elements(e.order)
  }

  /** The events that are not about a status resolve nothing, and free only what a sample clears. */
  lemma OthersResolveNothing(y: Sys, e: Event, gone: set<nat>, m: Model)
    requires Possible(y, e) && !e.StatusReturns? && !e.ProbeReturns?
    requires CInv(y)
    ensures var r := Next(y, e, gone).s;
      && Get(r.work.unresolved, m) >= Get(y.s.work.unresolved, m)
      && (m in y.s.unloadFail ==> m in r.unloadFail || MarkerGoes(y, e, m))
  {
    hide CInv, AfterServe, AfterLoad, AfterUnload, AfterSample, Get, OnUnloadDone, HostOf, AdmitLoad, Usable,
         ClearedBy, MarkAll, AfterEnsure, AfterOp, AfterStopStarts, AfterStopReturns, OnRequest, OnCancel,
         OnQueueTimeout, OnCancelGranted, OnBackendDone, OnRemind, Lower;
    match e
    case ProxyStarts(_) =>
    case ServeEnds(k) => ServeResolvesNothing(y, k, gone, m);
    case LoadReturns(i) => LoadResolvesNothing(y, i, gone);
    case UnloadFails(i, error) => UnloadCalm(TakeUnload(y.s, i), HostOf(y, gone), Some(error));
    case UnloadReturns(i, sample, order) => UnloadResolvesNothing(y, i, sample, order, gone);
    case Observes(sample, order) => SampleResolvesNothing(y, sample, order, gone);
    case EnsureCalled(_, _) => ClientResolvesNothing(y, e, gone);
    case OpReturns(_, _) => ClientResolvesNothing(y, e, gone);
    case StopStarts(_) => ClientResolvesNothing(y, e, gone);
    case StopReturns(_, _) => ClientResolvesNothing(y, e, gone);
    case GateAsked(_) =>
    case Tick(_) =>
    case _ => QueueResolvesNothing(y, e, gone);
  }

  lemma ClientResolvesNothing(y: Sys, e: Event, gone: set<nat>)
    requires Possible(y, e) && AtClient(e)
    ensures Next(y, e, gone).s.work == y.s.work && Next(y, e, gone).s.unloadFail == y.s.unloadFail
  {
    hide HostOf, OnReady, OnOpDone, BeginStop, EndStop;
  }

  lemma ServeResolvesNothing(y: Sys, k: Model, gone: set<nat>, m: Model)
    ensures Get(AfterServe(y, gone, k).s.work.unresolved, m) >= Get(y.s.work.unresolved, m)
    ensures AfterServe(y, gone, k).s.unloadFail == y.s.unloadFail
  {
    hide HostOf, OnServeDone;
    ServeCalm(y.s, HostOf(y.(l := NoteUse(y.l, y.now, k), serving := y.serving - multiset{k}), gone), k);
  }

  lemma LoadResolvesNothing(y: Sys, i: nat, gone: set<nat>)
    requires i < |y.s.out.loads| && y.s.out.loads[i].stage.Answered?
    ensures AfterLoad(y, gone, i).s.work.unresolved == y.s.work.unresolved
    ensures AfterLoad(y, gone, i).s.unloadFail == y.s.unloadFail
  {
    hide HostOf, OnSwapDone, LoadReported;
    var j := y.s.out.loads[i];
    SwapCalm(TakeLoad(y.s, i), HostOf(y.(l := LoadReported(y.l, y.now, j.model, j.stage.fault)), gone),
             j.model, j.stage.fault);
  }

  lemma UnloadResolvesNothing(y: Sys, i: nat, sample: Snapshot, order: seq<Model>, gone: set<nat>)
    requires i < |y.s.out.unloads| && y.s.out.unloads[i].stage.Confirmed? && Distinct(order)
    requires CInv(y)
    ensures AfterUnload(y, gone, i, sample, order).s.work.unresolved == y.s.work.unresolved
    ensures y.s.unloadFail - Elements(order) <= AfterUnload(y, gone, i, sample, order).s.unloadFail
  {
    hide CInv, HostOf, OnUnloadDone, UnloadReported, ClearMarkers;
    UnloadTarget(y, i);
    var j := y.s.out.unloads[i];
    var h := HostOf(y.(l := UnloadReported(y.l, j.ids, j.stage.at, sample)), gone);
    ClearMarkersCalm(TakeUnload(y.s, i), h, order);
    UnloadCalm(ClearMarkers(TakeUnload(y.s, i), h, order), h, None);
  }

  lemma SampleResolvesNothing(y: Sys, sample: Snapshot, order: seq<Model>, gone: set<nat>)
    requires Usable(y.l.cfg, sample) ==> Lists(order, ClearedBy(y.l.marker, sample))
    requires CInv(y)
    ensures AfterSample(y, gone, sample, order).s.work.unresolved == y.s.work.unresolved
    ensures AfterSample(y, gone, sample, order).s.unloadFail
         == if Usable(y.l.cfg, sample) then y.s.unloadFail - Elements(order) else y.s.unloadFail
  {
    hide CInv, HostOf, SampleFailed, Observe, ClearMarkers, Usable;
    NeedsAreMarkers(y);
    var h := HostOf(y.(l := Observe(y.l, sample)), gone);
    if Usable(y.l.cfg, sample) {
      assert Elements(order) <= y.l.marker.Keys;
      ClearMarkersCalm(y.s, h, order);
    } else {
      SampleFailedCalm(y.s, h);
    }
  }

  lemma ApplyBackendResolves(w: Work, m: Model, active: nat, proof: nat, k: Model)
    ensures Get(ApplyBackend(w, m, active, proof).unresolved, k) < Get(w.unresolved, k) ==>
              k == m && active == 0 && proof != 0 && proof == Get(w.dispatchGen, m)
              && Get(w.pending, m) == 0 && Get(w.httpIn, m) == 0
  {
  }

  lemma ReadsNow(y: Sys)
    requires CInv(y)
    ensures ReadsOK(y.statuses)
  {
    hide Inv, LedgerLaws.LedgerOK, ClientsOK, MarkedOK, UnloadsOK, ServingOK, OnceOK, ReadsOK, HostOf, Awake;
  }

  lemma StatusResolves(y: Sys, i: nat, count: Option<nat>, gone: set<nat>, m: Model)
    requires i < |y.statuses|
    requires CInv(y)
    ensures var r := y.statuses[i];
      Get(OnStatus(y.s, HostOf(y, gone), r.model, count, r.gen).work.unresolved, m) < Get(y.s.work.unresolved, m) ==>
        && r.model == m && count == Some(0) && r.busy == 0 && r.grants == Get(y.s.work.dispatchGen, m)
        && Get(y.s.work.pending, m) == 0 && Get(y.s.work.httpIn, m) == 0
  {
    hide CInv, HostOf, OnStatus, ApplyBackend, Get;
    ReadsNow(y);
    var r := y.statuses[i];
    StatusDigest(y.s, HostOf(y, gone), r.model, count, r.gen);
    if count.Some? { ApplyBackendResolves(y.s.work, r.model, count.value, r.gen, m); }
  }

  lemma ProbeProof(y: Sys, i: nat)
    requires i < |y.s.out.probes|
    requires CInv(y)
    ensures var p := y.s.out.probes[i]; p.proof != 0 ==> p.proof == p.grants && p.busy == 0
  {
    hide CoreInv, SessionInv, AskInv, SeenInv, TargetInv, AroundOK, HostOf, Suspects;
  }

  lemma ProbeResolves(y: Sys, i: nat, ev: Result, gone: set<nat>, m: Model)
    requires i < |y.s.out.probes| && ResultFor(y.s.out.probes[i], ev) && ev.model in y.clients
    requires CInv(y)
    ensures Get(AfterProbe(y, gone, i, ev).s.work.unresolved, m) < Get(y.s.work.unresolved, m) ==>
              var p := y.s.out.probes[i];
              && p.model == m && ev.kind.NoErr? && ev.active == 0 && p.busy == 0
              && p.grants == Get(y.s.work.dispatchGen, m)
              && Get(y.s.work.pending, m) == 0 && Get(y.s.work.httpIn, m) == 0
  {
    hide CInv, HostOf, NoteProbe, Digested, RecoverMode, ApplyBackend, Get, AskClient;
    ProbeProof(y, i);
    var mode := RecoverMode(y.s, ev.token);
    if !mode.Drop? {
      var n := NoteOf(ev, mode, AskClient(y.clients[ev.model], ev).1);
      NoteDigest(TakeProbe(y.s, i), HostOf(Digested(y, ev), gone), n);
      ApplyBackendResolves(y.s.work, n.model, n.active, n.proof, m);
    }
  }

  /**
   The idle proof: a model's unresolved work is forgotten only on a report of no activity
   whose status read began after every call ever granted to the model had ended here or
   been given up, with none granted since, and none in progress now.
   */
  lemma ResolvedOnlyWhenProvenIdle(y: Sys, e: Event, gone: set<nat>, m: Model)
    requires Possible(y, e)
    requires CInv(y)
    ensures Get(Next(y, e, gone).s.work.unresolved, m) < Get(y.s.work.unresolved, m) ==>
              ProvenIdle(y, e, m) && y.s.out.granted[m] == 0 && y.serving[m] == 0
  {
    hide CInv, Get, HostOf, OnStatus, AfterProbe, AfterServe, AfterProxy, AfterLoad, AfterUnload, AfterSample,
         OnRequest, Usable, ClearedBy, MarkAll;
    PendingAreCalls(y, m);
    match e
    case StatusReturns(i, count) => StatusResolves(y, i, count, gone, m);
    case ProbeReturns(i, kind, rec, active, at) =>
      ProbeResolves(y, i, ResultOf(y.s.out.probes[i], kind, rec, active, at), gone, m);
    case _ => OthersResolveNothing(y, e, gone, m);
  }

  lemma PendingAreCalls(y: Sys, m: Model)
    requires CInv(y)
    ensures Get(y.s.work.pending, m) == y.s.out.granted[m] && Get(y.s.work.httpIn, m) == y.serving[m]
  {
    hide QueueInv, TallyInv, GateInv, LateInv, LifeInv, RecInv, LedgerLaws.LedgerOK, ClientsOK, UnloadsOK, MarkedOK,
         ReadsOK, OnceOK, Decide, HostOf, Limit, Slots;
  }

  // ---------------------------------------------------------------- failed unloads

  lemma ProbeFrees(y: Sys, i: nat, ev: Result, gone: set<nat>, m: Model)
    requires i < |y.s.out.probes| && ResultFor(y.s.out.probes[i], ev) && ev.model in y.clients
    requires CInv(y)
    ensures var r := AfterProbe(y, gone, i, ev).s;
      m in y.s.unloadFail ==> m in r.unloadFail || (ev.model == m && CallsClient(ev) && ev.rec.ReadyIdle?)
  {
    hide CInv, HostOf, NoteProbe, Digested, RecoverMode, ApplyBackend, AskClient;
    var mode := RecoverMode(y.s, ev.token);
    if !mode.Drop? {
      var n := NoteOf(ev, mode, AskClient(y.clients[ev.model], ev).1);
      NoteDigest(TakeProbe(y.s, i), HostOf(Digested(y, ev), gone), n);
    }
  }

  lemma StatusFrees(y: Sys, i: nat, count: Option<nat>, gone: set<nat>)
    requires i < |y.statuses|
    ensures Next(y, StatusReturns(i, count), gone).s.unloadFail == y.s.unloadFail
  {
    hide HostOf, OnStatus, ApplyBackend;
    StatusDigest(y.s, HostOf(y, gone), y.statuses[i].model, count, y.statuses[i].gen);
  }

  /** A recovery finds the model ready and idle. */
  ghost predicate FoundReady(y: Sys, e: Event, m: Model) {
    Asks(y, e, m) && e.kind.NoErr? && e.rec.ReadyIdle?
  }

  /**
   A model whose unload failed stays blocked, and so is never a victim again, until a
   recovery finds it ready and idle or a sample clears its marker.
   */
  lemma FailedUnloadsStick(y: Sys, e: Event, gone: set<nat>, m: Model)
    requires Possible(y, e) && m in y.s.unloadFail
    requires CInv(y)
    ensures m in Next(y, e, gone).s.unloadFail
            || MarkerGoes(y, e, m)
            || FoundReady(y, e, m)
  {
    hide CInv, HostOf, AfterProbe, OnStatus, MarkerGoes;
    match e
    case StatusReturns(i, count) => StatusFrees(y, i, count, gone);
    case ProbeReturns(i, kind, rec, active, at) =>
      ProbeFrees(y, i, ResultOf(y.s.out.probes[i], kind, rec, active, at), gone, m);
    case _ => OthersResolveNothing(y, e, gone, m);
  }

  // ---------------------------------------------------------------- in every run

  /** A reminder is outstanding that is due no later than the end of any closed gate's drain. */
  ghost predicate RemindedInTime(y: Sys) {
    exists i ::
      0 <= i < |y.s.out.reminders| && DueBy(y.s.gates, y.s.cfg.drain, y.now, y.s.out.reminders[i])
  }

  /** The router is idle, and its head could be served if only its model were ready. */
  predicate HeadHasRoom(y: Sys) {
    y.s.phase.Idle? && y.s.queued != [] && Slots(y.s.work, y.s.queued[0].model) < Limit(y.s.cfg, y.s.queued[0].model)
  }

  /** What a reader of the router's state can count on. */
  ghost predicate Safe(y: Sys) {
    // Recovery: the scheduler waits for exactly the ledger's markers, and never for none.
    && (InSession(y.s) ==> y.s.session.needSample == y.l.marker.Keys
                           && y.s.queued != [] && y.s.session.owner == y.s.queued[0].id && y.s.session.token > 0)
    && (y.s.phase.Sample? ==> y.l.marker.Keys != {})
    // One probe in flight, one a request and model.
    && |y.s.out.probes| <= 1
    && (forall owner, m :: y.s.out.begun[(owner, m)] <= if m in y.clients then 1 else 0)
    // A late result is accepted only while nothing was started since.
    && (forall t :: RecoverMode(y.s, t).Late? ==> t in y.s.out.droppedAt && y.s.out.droppedAt[t] == y.s.out.actions)
    // One load or unload in flight, and its victims are quiet.
    && |y.s.out.loads| + |y.s.out.unloads| <= 1
    && (forall i, v :: 0 <= i < |y.s.out.unloads| && v in y.s.out.unloads[i].ids ==>
          y.serving[v] == 0 && y.s.out.granted[v] == 0 && Get(y.s.work.unresolved, v) == 0)
    // An idle router with a head that has room is waiting for a drain, and will be reminded in time.
    && (HeadHasRoom(y) ==> y.s.gates.armed && RemindedInTime(y))
    // Only stopped models wait for a sample.
    && (forall m :: m in y.l.marker ==> m in y.clients && y.clients[m].state.Stopped? && y.clients[m].op.None?)
    // Calls stay within the limit, the queue within its own.
    && (forall m :: y.s.out.granted[m] + y.serving[m] + Get(y.s.work.unresolved, m) <= Limit(y.s.cfg, m))
    && |y.s.queued| <= y.s.cfg.maxQ
    // First in, first out, and exactly once.
    && (forall id :: id in y.s.out.admitted ==>
          multiset(Ids(y.s.queued))[id] + y.s.out.answered[id] + y.s.out.cancelled[id] == 1)
    && Subseq(y.s.out.served, y.s.out.admitted)
  }

  lemma MarkedAreStopped(y: Sys)
    requires CInv(y)
    ensures forall m :: m in y.l.marker ==> m in y.clients && ClientOf(y, m).state.Stopped? && ClientOf(y, m).op.None?
  {
    hide Inv, LedgerLaws.LedgerOK, UnloadsOK, ReadsOK, ServingOK, OnceOK, CallsInv, HostOf;
  }

  /**
   No lost wake-up: in every reachable state, an idle router whose head is not waiting for
   its own model's calls has a drain armed, and a reminder outstanding that is due no later
   than the end of any closed gate's drain.
   */
  lemma NoLostWakeUp(y: Sys)
    requires CInv(y)
    ensures HeadHasRoom(y) ==> y.s.gates.armed && RemindedInTime(y)
  {
    hide WorkInv, QueueInv, TallyInv, LifeInv, LateInv, RecInv, AroundOK, DueBy, Decide, Slots;
    AwakeNow(y);
  }

  lemma ServiceInOrder(y: Sys)
    requires CInv(y)
    ensures |y.s.queued| <= y.s.cfg.maxQ && Subseq(y.s.out.served, y.s.out.admitted)
  {
    hide WorkInv, GateInv, LateInv, LifeInv, RecInv, AroundOK, Subseq, HostOf;
    PrefixIsSubseq(y.s.out.served, Ids(y.s.queued), y.s.out.admitted);
  }

  lemma HoldsIsSafe(y: Sys)
    requires CInv(y)
    ensures Safe(y)
  {
    hide CInv, Subseq, Ids, RecoverMode, Limit, Get, RemindedInTime, HeadHasRoom;
    SchedulerAndLedgerAgree(y);
    OneProbe(y);
    VictimsAreQuietThroughout(y);
    MarkedAreStopped(y);
    NoLostWakeUp(y);
    ServiceInOrder(y);
    forall owner, m
      ensures y.s.out.begun[(owner, m)] <= if m in y.clients then 1 else 0
    {
      ProbesPerRequestBounded(y, owner);
    }
    forall t | RecoverMode(y.s, t).Late?
      ensures t in y.s.out.droppedAt && y.s.out.droppedAt[t] == y.s.out.actions
    {
      LateOnlyIfNothingStarted(y, t);
    }
    forall m: Model
      ensures y.s.out.granted[m] + y.serving[m] + Get(y.s.work.unresolved, m) <= Limit(y.s.cfg, m)
    {
      SlotsAreCalls(y, m);
    }
    forall id | id in y.s.out.admitted
      ensures multiset(Ids(y.s.queued))[id] + y.s.out.answered[id] + y.s.out.cancelled[id] == 1
    {
      ExactlyOnce(y, id);
    }
  }

  /** Every state of every run from boot is safe. */
  lemma EveryRunIsSafe(y: Sys, run: seq<Step>)
    requires Boot(y) && IsRun(y, run)
    ensures Safe(After(y, run))
  {
    hide Boot, IsRun, CInv, Safe, After;
    BootHolds(y);
    Always(y, run);
    HoldsIsSafe(After(y, run));
  }
}
