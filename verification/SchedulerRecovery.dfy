/** Probe results and cleared markers keep the invariant. */
module SchedulerRecovery {
  import opened Types
  import opened Scheduler
  import opened SchedulerLaws
  import opened SchedulerTurns
  import opened SchedulerDispatch
  import opened SchedulerHandlers

  function TakeProbe(s: Sched, i: nat): Sched {
    s.(out := s.out.(probes := RemoveAt(s.out.probes, i)))
  }

  /** A session with no probe of its own in flight. */
  ghost predicate RestingRec(s: Sched, h: Host) {
    && InSession(s)
    && SessionInv(s, h) && ProbeOK(s, h) && AskInv(s, h) && SeenInv(s) && TargetInv(s, h)
    && (s.phase.Recover? ==> s.out.probes == [] && s.session.current.None?)
  }

  ghost predicate Resting(s: Sched, h: Host) {
    CoreInv(s, h) && RestingRec(s, h)
  }

  lemma EndRec(s: Sched, h: Host, r: Sched)
    requires RestingRec(s, h)
    requires r == s.(phase := Idle, session := r.session) && r.session.owner == 0 && r.session.token == 0
    ensures RecInv(r, h)
  {
    hide Suspects, SeenBy;
  }

  lemma EndCore(s: Sched, h: Host, r: Sched)
    requires CoreInv(s, h) && InSession(s) && r == s.(phase := Idle, session := r.session)
    ensures CoreInv(r, h)
  {
    CoreFrame(s, h, h, r);
  }

  lemma EndInv(s: Sched, h: Host)
    requires Resting(s, h)
    ensures Inv(EndSession(s), h)
  {
    EndCore(s, h, EndSession(s));
    EndRec(s, h, EndSession(s));
    hide CoreInv, RecInv;
  }

  lemma FailOwnerInv(s: Sched, h: Host, cause: Cause)
    requires Resting(s, h) && HostOK(h)
    ensures Inv(FailOwner(s, h, cause), h) && Settled(s, FailOwner(s, h, cause), h)
  {
    hide Settled, HostOK, TryDispatch, CoreInv, RecInv, RestingRec, Story;
    OwnerIsHead(s, h);
    var r := EndSession(s).(session := s.session.(token := 0, owner := 0, current := None));
    EndCore(s, h, r);
    EndRec(s, h, r);
    FailHeadInv(r, h, cause);
    OwnerStory(s, h, FailHead(r, cause));
    DispatchFrom(s, FailHead(r, cause), h);
  }

  lemma OwnerIsHead(s: Sched, h: Host)
    requires RestingRec(s, h)
    ensures s.queued != [] && s.queued[0].id == s.session.owner && InSession(s)
  {
    hide ProbeOK, AskInv, SeenInv, TargetInv;
  }

  lemma OwnerStory(s: Sched, h: Host, r: Sched)
    requires RestingRec(s, h) && s.queued != [] && r.queued == s.queued[1..] && r.out.noted == s.out.noted
    ensures Story(s, r, h)
  {
    hide ProbeOK, AskInv, SessionInv, TargetInv, SeenInv;
    NewHead(s, r);
  }

  lemma AwakeInSession(s: Sched)
    requires !s.phase.Idle?
    ensures Awake(s)
  {
  }

  lemma SampleInv(s: Sched, h: Host)
    requires Resting(s, h) && s.phase.Recover? && s.session.needSample != {}
    ensures Inv(SetPhase(s, Sample), h)
  {
    CoreFrame(s, h, h, SetPhase(s, Sample));
    hide CoreInv, Suspects, SeenBy;
  }

  lemma FinishInv(s: Sched, h: Host)
    requires Resting(s, h) && HostOK(h) && s.phase.Recover? && !s.session.skipRest
    ensures Inv(FinishProbes(s, h), h) && Settled(s, FinishProbes(s, h), h)
  {
    hide CoreInv, RestingRec, Settled, HostOK, TryDispatch, FailOwner, RecInv, Awake;
    if s.session.skipRest || (!s.session.sawResources && !s.session.sawLifecycle && s.session.needSample == {}) {
      EndInv(s, h);
      DispatchFrom(s, EndSession(s), h);
    } else if s.session.sawResources {
      FailOwnerInv(s, h, Resources);
    } else if s.session.sawLifecycle {
      FailOwnerInv(s, h, LifecyclePending);
    } else {
      SampleInv(s, h);
      AwakeInSession(SetPhase(s, Sample));
      FairStill(s, SetPhase(s, Sample), h);
    }
  }

  /** The position in the order does not matter. */
  lemma PosResting(s: Sched, h: Host, p: nat)
    requires Resting(s, h)
    ensures Resting(s.(session := s.session.(pos := p)), h)
  {
    CoreFrame(s, h, h, s.(session := s.session.(pos := p)));
    hide CoreInv, Suspects, SeenBy;
  }

  lemma HeadIsAlone(s: Sched, h: Host)
    requires QueueInv(s, h) && s.queued != []
    ensures forall i :: 0 < i < |s.queued| ==> s.queued[i].id != s.queued[0].id
    ensures s.queued[0].id != 0 && s.queued[0].id in s.out.admitted
  {
    forall i | 0 < i < |s.queued|
      ensures s.queued[i].id != s.queued[0].id
    {
      assert Ids(s.queued)[i] != Ids(s.queued)[0];
    }
  }

  lemma NextProbeLive(s: Sched, h: Host, p: nat)
    requires ProbeOK(s, h) && WorkInv(s) && HostOK(h) && s.phase.Recover? && !s.session.skipRest && s.out.probes == []
    requires SessionInv(s, h) && p < |s.session.order| && s.session.order[p] in Suspects(h, s.unloadFail)
    ensures LiveInv(BeginProbeAt(s, h, p), h)
  {
    hide Slots, Limit, SeenBy;
    var m := s.session.order[p];
    assert m !in h.inFlight;
    assert QuietOK(s.work, m);
  }

  lemma NextProbeRest(s: Sched, h: Host, p: nat)
    requires SessionInv(s, h) && AskInv(s, h) && TargetInv(s, h) && s.phase.Recover? && s.session.current.None?
    requires s.queued != [] && s.queued[0].id != 0
    requires p < |s.session.order| && s.session.order[p] !in s.session.checked
    ensures var r := BeginProbeAt(s, h, p); SessionInv(r, h) && AskInv(r, h) && TargetInv(r, h)
  {
    var m := s.session.order[p];
    MarkSeenSpec(s.book, s.session.owner, m);
    SameSeen(MarkSeen(s.book, s.session.owner, m), BeginProbeAt(s, h, p).book);
    hide Suspects, SeenBy;
  }

  lemma NextProbeRec(s: Sched, h: Host, p: nat)
    requires RestingRec(s, h) && QueueInv(s, h) && WorkInv(s) && HostOK(h) && s.phase.Recover? && !s.session.skipRest
    requires p < |s.session.order| && s.session.order[p] !in s.session.checked
    ensures RecInv(BeginProbeAt(s, h, p), h)
  {
    assert s.session.order[p] in Suspects(h, s.unloadFail) && s.session.order[p] !in SeenBy(s.book, s.session.owner);
    hide ProbeOK, SeenInv, TargetInv, WorkInv, HostOK, QueueInv, Suspects, SeenBy, BeginProbeAt, AskInv;
    HeadIsAlone(s, h);
    BeginProbeSeen(s, h, p);
    NextProbeLive(s, h, p);
    NextProbeRest(s, h, p);
  }

  lemma NextProbeCore(s: Sched, h: Host, p: nat)
    requires CoreInv(s, h) && s.phase.Recover? && p < |s.session.order|
    ensures CoreInv(BeginProbeAt(s, h, p), h)
  {
    CoreFrame(s, h, h, BeginProbeAt(s, h, p));
  }

  lemma CoreParts(s: Sched, h: Host)
    requires CoreInv(s, h)
    ensures WorkInv(s) && QueueInv(s, h)
  {
    hide WorkInv, QueueInv, TallyInv, GateInv, LifeInv, LateInv;
  }

  lemma LaunchInv(s: Sched, h: Host)
    requires Resting(s, h) && HostOK(h) && s.phase.Recover? && !s.session.skipRest
    ensures Inv(LaunchProbe(s, h), h) && Settled(s, LaunchProbe(s, h), h)
  {
    hide CoreInv, RecInv, RestingRec, Settled, FinishProbes, HostOK, Awake, Story;
    var p := NextFresh(s.session.order, s.session.pos, s.session.checked);
    if p < |s.session.order| {
      CoreParts(s, h);
      NextProbeCore(s, h, p);
      NextProbeRec(s, h, p);
      AwakeInSession(BeginProbeAt(s, h, p));
      StorySame(s, BeginProbeAt(s, h, p), h);
      FairStill(s, BeginProbeAt(s, h, p), h);
    } else {
      var s1 := s.(session := s.session.(pos := p));
      PosResting(s, h, p);
      FinishInv(s1, h);
      StorySame(s, s1, h);
      SettledFrom(s, s1, FinishProbes(s1, h), h);
    }
  }

  // ---------------------------------------------------------------- a result comes back

  /** The host changed at one model only. */
  ghost predicate SameBut(h0: Host, h1: Host, a: Model) {
    && h1.states.Keys == h0.states.Keys && h1.now == h0.now
    && (forall m :: m != a && m in h0.states ==> h1.states[m] == h0.states[m])
    && (forall m :: m != a ==> Get(h1.gens, m) == Get(h0.gens, m))
    && (forall m :: m != a ==> (m in h1.markers <==> m in h0.markers))
    && (forall m :: m != a ==> (m in h1.inFlight <==> m in h0.inFlight))
  }

  /** What the ledger and the client did with the result: the marker set, dropped or left alone, the model ready. */
  ghost predicate MarkerFollows(h0: Host, h1: Host, n: Note) {
    && (n.applied <==> n.ack.Applied? && n.kind.NoErr? && !n.rec.RecInvalid?)
    && (n.applied && n.rec.ReadyIdle? ==> StateOf(h1, n.model).Ready?)
    && (n.model in h1.markers <==>
          if n.applied && n.rec.ReadyIdle? then false
          else if n.applied && (n.rec.UnloadedIdle? || n.rec.FailedNotResidentIdle?) then true
          else n.model in h0.markers)
  }

  /** The result of the probe in flight, removed from flight and from the book. */
  function Returned(s: Sched, i: nat): Sched {
    if i < |s.out.probes| then ForgetProbe(TakeProbe(s, i), s.out.probes[i].model) else s
  }

  lemma ReturnedRec(s: Sched, h0: Host, h1: Host, i: nat)
    requires RecInv(s, h0) && !InSession(s) && i < |s.out.probes| && SameBut(h0, h1, s.out.probes[i].model)
    ensures RecInv(Returned(s, i), h1)
  {
    hide Suspects, SeenBy, SeenInv;
    var r := Returned(s, i);
    assert r.out.probes == [] && r.book.started == map[];
    ReturnedSeen(s, i);
  }

  lemma ReturnedSeen(s: Sched, i: nat)
    requires SeenInv(s) && |s.out.probes| <= 1 && i < |s.out.probes| && !s.phase.Recover?
    ensures SeenInv(Returned(s, i)) && forall o :: SeenBy(Returned(s, i).book, o) == SeenBy(s.book, o)
  {
    assert Returned(s, i).out.probes == [];
    assert forall o :: SeenBy(Returned(s, i).book, o) == SeenBy(s.book, o);
    hide SeenBy;
  }

  lemma ReturnedCore(s: Sched, h0: Host, h1: Host, i: nat)
    requires CoreInv(s, h0) && i < |s.out.probes| && SameBut(h0, h1, s.out.probes[i].model)
    ensures CoreInv(Returned(s, i), h1)
  {
    hide WorkOK, Subseq, Ids;
  }

  /** A dropped result only frees its slot in the book. */
  lemma DropInv(s: Sched, h: Host, i: nat)
    requires Inv(s, h) && i < |s.out.probes| && RecoverMode(s, s.out.probes[i].token).Drop?
    ensures Inv(Returned(s, i), h)
  {
    hide CoreInv, SessionInv, AskInv, SeenInv, TargetInv, ProbeOK, Returned;
    ReturnedCore(s, h, h, i);
    if InSession(s) {
      DroppedWhileSampling(s, h, i);
      ReturnedSampling(s, h, i);
    } else {
      ReturnedRec(s, h, h, i);
    }
  }

  lemma DroppedWhileSampling(s: Sched, h: Host, i: nat)
    requires LiveInv(s, h) && InSession(s) && i < |s.out.probes| && RecoverMode(s, s.out.probes[i].token).Drop?
    ensures s.phase.Sample?
  {
    hide Suspects;
  }

  lemma ReturnedSampling(s: Sched, h: Host, i: nat)
    requires RecInv(s, h) && s.phase.Sample? && i < |s.out.probes|
    ensures RecInv(Returned(s, i), h)
  {
    hide Suspects, SeenBy;
    SameSeen(s.book, Returned(s, i).book);
  }

  lemma UnfailInv(s: Sched, h: Host, ids: set<Model>)
    requires Inv(s, h) && s.out.probes == [] && !s.phase.Recover?
    ensures Inv(s.(unloadFail := s.unloadFail - ids), h)
  {
    hide WorkInv, QueueInv, TallyInv, GateInv, SeenBy, Suspects;
    CoreFrame(s, h, h, s.(unloadFail := s.unloadFail - ids));
    UnfailRec(s, h, ids);
    hide CoreInv, RecInv;
  }

  lemma UnfailRec(s: Sched, h: Host, ids: set<Model>)
    requires RecInv(s, h) && s.out.probes == [] && !s.phase.Recover?
    ensures RecInv(s.(unloadFail := s.unloadFail - ids), h)
  {
    hide SeenBy, Suspects;
  }

  lemma WorkRec(s: Sched, h: Host, w: Work)
    requires RecInv(s, h)
    ensures RecInv(s.(work := w), h)
  {
    RecFrame(s, h, s.(work := w));
  }

  lemma WorkCore(s: Sched, h: Host, n: Note)
    requires CoreInv(s, h)
    ensures CoreInv(s.(work := ApplyBackend(s.work, n.model, n.active, n.proof)), h)
  {
    ApplyBackendWork(s.cfg, s.work, s.out.granted, n.model, n.active, n.proof);
    hide TallyInv, WorkOK, ApplyBackend;
  }

  lemma LateInvKept(s: Sched, h0: Host, h1: Host, i: nat, n: Note)
    requires Inv(s, h0) && HostOK(h1) && Awake(s) && i < |s.out.probes| && s.phase.Idle?
    requires n.mode.Late? && n.model == s.out.probes[i].model && SameBut(h0, h1, n.model)
    ensures Inv(NoteProbe(TakeProbe(s, i), h1, n), h1) && Settled(s, NoteProbe(TakeProbe(s, i), h1, n), h1)
  {
    hide Settled, HostOK, TryDispatch, Story, Awake;
    var r := Returned(s, i);
    StorySame(s, r, h1);
    AwakeSame(s, r);
    ReturnedCore(s, h0, h1, i);
    ReturnedRec(s, h0, h1, i);
    assert r.out.probes == [] && r.phase.Idle?;
    var r1 := r.(work := ApplyBackend(r.work, n.model, n.active, n.proof));
    WorkCore(r, h1, n);
    WorkRec(r, h1, r1.work);
    hide CoreInv, RecInv, ApplyBackend, RemoveAt;
    UnfailInv(r1, h1, {n.model});
    hide Inv;
    FairStill(s, r, h1);
    if n.ack.Stale? {
    } else if !n.applied {
      DispatchFrom(s, r, h1);
    } else if n.rec.ReadyIdle? {
      StorySame(s, r1.(unloadFail := r1.unloadFail - {n.model}), h1);
      DispatchFrom(s, r1.(unloadFail := r1.unloadFail - {n.model}), h1);
    } else {
      StorySame(s, r1, h1);
      DispatchFrom(s, r1, h1);
    }
  }

  /** The session after its probe returned, before the verdict is absorbed. */
  function Noted(s: Sched, i: nat): Sched {
    if i >= |s.out.probes| then s
    else
      var m := s.out.probes[i].model;
      var r := Returned(s, i);
      r.(book := MarkSeen(r.book, s.session.owner, m),
         session := s.session.(checked := s.session.checked + {m}, current := None),
         out := r.out.(noted := s.out.noted + {(s.session.owner, m)}))
  }

  /** The two ways the ledger's marker can differ, applied to the session's own list. */
  function Listed(s: Sched, i: nat, need: set<Model>, failed: set<Model>): Sched
    requires i < |s.out.probes|
  {
    var r := Noted(s, i);
    r.(session := r.session.(needSample := need), unloadFail := failed)
  }

  lemma OthersWait(s: Sched, h: Host)
    requires QueueInv(s, h) && SessionInv(s, h) && s.phase.Recover?
    ensures forall j :: 0 < j < |s.queued| ==> s.queued[j].id != s.session.owner
  {
    hide Ids;
    forall j | 0 < j < |s.queued|
      ensures s.queued[j].id != s.session.owner
    {
      assert Ids(s.queued)[j] != Ids(s.queued)[0];
    }
  }

  /** What the book says was asked once the result is noted. */
  lemma NotedBook(s: Sched, i: nat, need: set<Model>, failed: set<Model>)
    requires i < |s.out.probes|
    ensures var b, m, o := Listed(s, i, need, failed).book, s.out.probes[i].model, s.session.owner;
      && b == s.book.(seen := b.seen, started := s.book.started - {m})
      && b.seen.Keys == s.book.seen.Keys + (if o == 0 then {} else {o})
      && forall k :: SeenBy(b, k) == if k == o && o != 0 then SeenBy(s.book, k) + {m} else SeenBy(s.book, k)
  {
  }

  lemma NotedSeen(s: Sched, h: Host, i: nat, need: set<Model>, failed: set<Model>)
    requires RecInv(s, h) && QueueInv(s, h) && s.phase.Recover? && i < |s.out.probes|
    ensures SeenInv(Listed(s, i, need, failed))
  {
    hide MarkSeen, SeenBy, QueueInv, Noted, RecInv;
    ListedAlone(s, h, i, need, failed);
    OthersWait(s, h);
    NotedBook(s, i, need, failed);
  }

  /** The session's own probe was the only one. */
  lemma ListedAlone(s: Sched, h: Host, i: nat, need: set<Model>, failed: set<Model>)
    requires RecInv(s, h) && QueueInv(s, h) && s.phase.Recover? && i < |s.out.probes|
    ensures s.session.owner != 0 && s.session.owner in s.out.admitted
    ensures s.session.current == Some(s.out.probes[i].model)
    ensures SeenInv(s) && SessionInv(s, h)
    ensures var r := Listed(s, i, need, failed);
      && r.out.probes == [] && r.queued == s.queued && r.phase == s.phase && r.session.owner == s.session.owner
      && r.out.noted == s.out.noted + {(s.session.owner, s.out.probes[i].model)}
      && r.out.begun == s.out.begun && r.out.admitted == s.out.admitted
  {
    hide Suspects, AskInv, TargetInv, SeenInv;
  }

  lemma NotedRec(s: Sched, h0: Host, h1: Host, i: nat, need: set<Model>, failed: set<Model>)
    requires RecInv(s, h0) && QueueInv(s, h0) && s.phase.Recover? && i < |s.out.probes|
    requires SameBut(h0, h1, s.out.probes[i].model) && need == h1.markers
    requires s.unloadFail - {s.out.probes[i].model} <= failed <= s.unloadFail
    ensures RestingRec(Listed(s, i, need, failed), h1)
  {
    hide SeenInv, MarkSeen, SeenBy, QueueInv;
    NotedSeen(s, h0, i, need, failed);
    var r := Listed(s, i, need, failed);
    var a := s.out.probes[i].model;
    NotedBook(s, i, need, failed);
    assert r.out.probes == [] && r.book.started == map[];
    assert forall m :: m != a ==> (m in Suspects(h1, failed) <==> m in Suspects(h0, s.unloadFail));
    forall m | m in r.session.order && m !in r.session.checked
      ensures m in Suspects(h1, failed) && m !in SeenBy(r.book, r.session.owner)
    {
      assert m != a && s.session.current == Some(a);
    }
    hide Suspects;
  }

  lemma NotedCore(s: Sched, h0: Host, h1: Host, i: nat, need: set<Model>, failed: set<Model>)
    requires CoreInv(s, h0) && s.phase.Recover? && i < |s.out.probes| && SameBut(h0, h1, s.out.probes[i].model)
    ensures CoreInv(Listed(s, i, need, failed), h1)
  {
    CoreFrame(s, h0, h1, Listed(s, i, need, failed));
  }

  /** The core invariant does not read the session. */
  lemma CoreSession(s: Sched, h: Host, ses: Session)
    requires CoreInv(s, h)
    ensures CoreInv(s.(session := ses), h)
  {
    hide WorkOK, Subseq, Ids, DueBy, Quiet;
  }

  lemma RestingWork(s: Sched, h: Host, n: Note, ses: Session)
    requires Resting(s, h)
    requires ses == s.session.(sawResources := ses.sawResources, sawLifecycle := ses.sawLifecycle,
              skipRest := ses.skipRest)
    ensures Resting(s.(session := ses), h)
    ensures Resting(s.(session := ses, work := ApplyBackend(s.work, n.model, n.active, n.proof)), h)
  {
    hide RestingRec, CoreInv, ApplyBackend;
    WorkCore(s, h, n);
    CoreSession(s, h, ses);
    CoreSession(s.(work := ApplyBackend(s.work, n.model, n.active, n.proof)), h, ses);
    RestingFrame(s, h, ses, s.work);
    RestingFrame(s, h, ses, ApplyBackend(s.work, n.model, n.active, n.proof));
  }

  lemma RestingFrame(s: Sched, h: Host, ses: Session, w: Work)
    requires RestingRec(s, h)
    requires ses == s.session.(sawResources := ses.sawResources, sawLifecycle := ses.sawLifecycle,
              skipRest := ses.skipRest)
    ensures RestingRec(s.(session := ses, work := w), h)
  {
    hide Suspects, SeenBy;
  }

  lemma AbsorbResting(s: Sched, h0: Host, h1: Host, i: nat, n: Note)
    requires Inv(s, h0) && s.phase.Recover? && i < |s.out.probes| && n.ack.Applied?
    requires n.model == s.out.probes[i].model && SameBut(h0, h1, n.model) && MarkerFollows(h0, h1, n)
    ensures Resting(Absorb(Noted(s, i), n), h1)
  {
    VerdictNeeds(s, h0, h1, i, n);
    var r := Noted(s, i);
    var ses := Verdict(r.session, n);
    var failed := if Settles(n) && n.rec.ReadyIdle? then s.unloadFail - {n.model} else s.unloadFail;
    NotedCore(s, h0, h1, i, h1.markers, failed);
    NotedRec(s, h0, h1, i, h1.markers, failed);
    hide Inv, CoreInv, RestingRec, SameBut, MarkerFollows, ApplyBackend, Settles, RemoveAt, MarkSeen, Verdict;
    var l := Listed(s, i, h1.markers, failed);
    RestingWork(l, h1, n, ses);
    var w := if Settles(n) then ApplyBackend(l.work, n.model, n.active, n.proof) else l.work;
    assert Absorb(r, n) == l.(session := ses, work := w);
  }

  /** The session's list of samples follows the ledger's markers. */
  lemma VerdictNeeds(s: Sched, h0: Host, h1: Host, i: nat, n: Note)
    requires SessionInv(s, h0) && s.phase.Recover? && i < |s.out.probes|
    requires SameBut(h0, h1, n.model) && MarkerFollows(h0, h1, n) && n.ack.Applied?
    ensures var r := Noted(s, i).session;
      var v := Verdict(r, n);
      v.needSample == h1.markers
      && v == r.(needSample := v.needSample, sawResources := v.sawResources,
                 sawLifecycle := v.sawLifecycle, skipRest := v.skipRest)
  {
    VerdictShape(Noted(s, i).session, n);
    VerdictMarkers(Noted(s, i).session, h0, h1, n);
  }

  lemma VerdictShape(ses: Session, n: Note)
    ensures var v := Verdict(ses, n);
      v == ses.(needSample := v.needSample, sawResources := v.sawResources,
                sawLifecycle := v.sawLifecycle, skipRest := v.skipRest)
  {
  }

  lemma VerdictMarkers(ses: Session, h0: Host, h1: Host, n: Note)
    requires SameBut(h0, h1, n.model) && MarkerFollows(h0, h1, n) && n.ack.Applied? && ses.needSample == h0.markers
    ensures Verdict(ses, n).needSample == h1.markers
  {
    var need := Verdict(ses, n).needSample;
    assert forall m :: m != n.model ==> (m in need <==> m in h0.markers);
    assert n.model in need <==> n.model in h1.markers;
  }

  lemma NoteShape(s: Sched, h: Host, i: nat, n: Note)
    requires i < |s.out.probes| && n.model == s.out.probes[i].model
    requires n.mode.Current? && s.phase.Recover? && n.token == s.session.token
    ensures NoteProbe(TakeProbe(s, i), h, n) == Conclude(Noted(s, i), h, n)
    ensures Noted(s, i).phase.Recover? && Noted(s, i).session.model == s.session.model
  {
    hide Conclude, RemoveAt;
  }

  lemma NotedPhase(s: Sched, i: nat)
    requires i < |s.out.probes|
    ensures Noted(s, i).phase == s.phase
    ensures Noted(s, i).out.loads == s.out.loads && Noted(s, i).out.unloads == s.out.unloads
  {
  }

  lemma AbsorbPhase(s: Sched, n: Note)
    ensures Absorb(s, n).phase == s.phase && Absorb(s, n).out == s.out
  {
  }

  /** A session is cut short only when its own target, the head's model, was found ready. */
  lemma AbsorbSkips(s: Sched, h0: Host, h1: Host, i: nat, n: Note)
    requires Inv(s, h0) && s.phase.Recover? && i < |s.out.probes| && n.ack.Applied? && MarkerFollows(h0, h1, n)
    ensures var a := Absorb(Noted(s, i), n);
      a.session.skipRest ==> a.queued != [] && StateOf(h1, a.queued[0].model).Ready?
  {
    hide CoreInv, ProbeOK, AskInv, SeenInv, TargetInv, ApplyBackend;
  }

  lemma NoteAppliedInv(s: Sched, h0: Host, h1: Host, i: nat, n: Note)
    requires Inv(s, h0) && HostOK(h1) && s.phase.Recover? && i < |s.out.probes| && n.ack.Applied?
    requires n.model == s.out.probes[i].model && SameBut(h0, h1, n.model) && MarkerFollows(h0, h1, n)
    ensures var r := Conclude(Noted(s, i), h1, n);
      Inv(r, h1) && Settled(Absorb(Noted(s, i), n), r, h1)
  {
    hide Inv, Resting, Absorb, HostOK, SameBut, MarkerFollows, Noted, LaunchProbe, Settled, TryDispatch;
    AbsorbResting(s, h0, h1, i, n);
    AbsorbPhase(Noted(s, i), n);
    NotedPhase(s, i);
    AbsorbSkips(s, h0, h1, i, n);
    CarryOnInv(Absorb(Noted(s, i), n), h1);
  }

  lemma CarryOnInv(a: Sched, h: Host)
    requires Resting(a, h) && HostOK(h) && a.phase.Recover?
    requires a.session.skipRest ==> a.queued != [] && StateOf(h, a.queued[0].model).Ready?
    ensures var r := if a.session.skipRest then TryDispatch(EndSession(a), h)
                     else LaunchProbe(a.(session := a.session.(pos := a.session.pos + 1)), h);
      Inv(r, h) && Settled(a, r, h)
  {
    hide CoreInv, RestingRec, HostOK, RecInv, LaunchProbe, Settled, TryDispatch;
    if a.session.skipRest {
      EndInv(a, h);
      DispatchFrom(a, EndSession(a), h);
    } else {
      var a1 := a.(session := a.session.(pos := a.session.pos + 1));
      PosResting(a, h, a.session.pos + 1);
      LaunchInv(a1, h);
      StorySame(a, a1, h);
      SettledFrom(a, a1, LaunchProbe(a1, h), h);
    }
  }

  lemma NoteRefusedInv(s: Sched, h0: Host, h1: Host, i: nat, n: Note)
    requires Inv(s, h0) && HostOK(h1) && s.phase.Recover? && i < |s.out.probes| && !n.ack.Applied?
    requires n.model == s.out.probes[i].model && SameBut(h0, h1, n.model) && MarkerFollows(h0, h1, n)
    ensures var r := Conclude(Noted(s, i), h1, n);
      Inv(r, h1) && FairAction(s, r, h1) && Awake(r)
  {
    hide FairAction, TryDispatch, FailOwner, Awake, Story;
    assert s.session.needSample == h1.markers;
    NotedCore(s, h0, h1, i, h1.markers, s.unloadFail);
    NotedRec(s, h0, h1, i, h1.markers, s.unloadFail);
    var r := Noted(s, i);
    assert r == Listed(s, i, h1.markers, s.unloadFail);
    NotedPhase(s, i);
    hide Inv, CoreInv, RestingRec, HostOK, SameBut, MarkerFollows, Noted;
    if n.ack.AckBusy? && n.model == r.session.model && StateOf(h1, n.model).Starting? {
      EndInv(r, h1);
      StorySame(EndSession(r), EndSession(r), h1);
      DispatchFrom(EndSession(r), EndSession(r), h1);
      FairFrom(s, EndSession(r), TryDispatch(EndSession(r), h1), h1);
    } else {
      var cause := if n.ack.Stale? then Resources else LifecyclePending;
      FailOwnerInv(r, h1, cause);
      FairFrom(s, r, FailOwner(r, h1, cause), h1);
    }
  }

  lemma NoteCurrentInv(s: Sched, h0: Host, h1: Host, i: nat, n: Note)
    requires Inv(s, h0) && HostOK(h1) && s.phase.Recover? && i < |s.out.probes|
    requires n.mode.Current? && n.model == s.out.probes[i].model && n.token == s.session.token
    requires SameBut(h0, h1, n.model) && MarkerFollows(h0, h1, n)
    ensures var r := NoteProbe(TakeProbe(s, i), h1, n);
      && Inv(r, h1) && FairAction(s, r, h1) && Awake(r)
      && (n.ack.Applied? ==> Story(Absorb(Noted(s, i), n), r, h1))
  {
    hide Inv, HostOK, SameBut, MarkerFollows, Conclude, Noted, NoteProbe, FairAction, Awake, Story, Absorb;
    NoteShape(s, h1, i, n);
    if n.ack.Applied? {
      NoteAppliedInv(s, h0, h1, i, n);
      NotedPhase(s, i);
      AbsorbPhase(Noted(s, i), n);
      FairFrom(s, Absorb(Noted(s, i), n), Conclude(Noted(s, i), h1, n), h1);
    } else {
      NoteRefusedInv(s, h0, h1, i, n);
    }
  }

  // ---------------------------------------------------------------- markers clear

  /** The router tells the scheduler of each marker a sample cleared, in map order. */
  function ClearMarkers(s: Sched, h: Host, cleared: seq<Model>): Sched
    decreases |cleared|
  {
    if cleared == [] then s else ClearMarkers(MarkerCleared(s, h, cleared[0]), h, cleared[1..])
  }

  /** The scheduler's state when all of them are off its list, before it dispatches. */
  function Unmarked(s: Sched, cleared: set<Model>): Sched {
    s.(session := s.session.(needSample := s.session.needSample - cleared),
       unloadFail := s.unloadFail - cleared)
  }

  lemma SomeElement(ids: seq<Model>)
    ensures ids != [] ==> Elements(ids) != {}
  {
    if ids != [] { assert ids[0] in Elements(ids); }
  }

  /**
   While the scheduler waits for samples it dispatches exactly once, when the last
   marker on its list goes, whatever the order in which the router tells it.
   */
  lemma {:induction false} ClearMarkersOrder(s: Sched, h: Host, cleared: seq<Model>)
    requires Distinct(cleared)
    requires s.phase.Sample? ==> s.session.needSample != {} && Elements(cleared) <= s.session.needSample
    ensures ClearMarkers(s, h, cleared)
         == if s.phase.Sample? && s.session.needSample == Elements(cleared)
            then TryDispatch(EndSession(Unmarked(s, Elements(cleared))), h)
            else Unmarked(s, Elements(cleared))
    decreases |cleared|
  {
    hide TryDispatch;
    if cleared == [] {
      assert Unmarked(s, {}) == s;
    } else {
      var m, rest := cleared[0], cleared[1..];
      assert Elements(cleared) == {m} + Elements(rest);
      assert m !in rest;
      var s1 := Unmarked(s, {m});
      assert Unmarked(s1, Elements(rest)) == Unmarked(s, Elements(cleared));
      if s.phase.Sample? && s1.session.needSample == {} {
        assert Elements(rest) == {};
        SomeElement(rest);
        assert Elements(cleared) == {m} && s.session.needSample == {m};
        assert ClearMarkers(MarkerCleared(s, h, m), h, rest) == MarkerCleared(s, h, m);
      } else {
        ClearMarkersOrder(s1, h, rest);
      }
    }
  }
}
