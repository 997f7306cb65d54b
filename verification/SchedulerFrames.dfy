/** What each handler leaves alone: the calls being served, unfinished work, failed unloads, the jobs of others. */
module SchedulerFrames {
  import opened Types
  import opened Scheduler
  import opened SchedulerLaws
  import opened SchedulerDispatch
  import opened SchedulerRecovery

  ghost predicate NewUnload(s: Sched, r: Sched) {
    r.out.unloads == s.out.unloads
    || (OneMore(s.out.unloads, r.out.unloads) && r.out.unloads[|s.out.unloads|].stage.Draining?)
  }

  ghost predicate NewLoad(s: Sched, r: Sched) {
    r.out.loads == s.out.loads
    || (OneMore(s.out.loads, r.out.loads) && r.out.loads[|s.out.loads|].stage.Called?)
  }

  /** From s to r no call was counted in or out, and nothing that was unresolved or blocked was freed. */
  ghost predicate Calm(s: Sched, r: Sched) {
    && r.cfg == s.cfg
    && r.work.httpIn == s.work.httpIn && r.work.unresolved == s.work.unresolved
    && r.unloadFail == s.unloadFail
    && r.out.admitted == s.out.admitted
    && NewUnload(s, r) && NewLoad(s, r)
  }

  lemma DispatchCalm(s: Sched, h: Host)
    ensures Calm(s, TryDispatch(s, h))
  {
    hide TryDispatch;
    DispatchMoves(s, h);
  }

  lemma RequestCalm(s: Sched, h: Host, req: Req, left: bool)
    requires req.id != 0
    ensures var r := OnRequest(s, h, req, left);
      (r.out.admitted == s.out.admitted || r.out.admitted == s.out.admitted + [req.id])
      && Calm(s.(out := s.out.(admitted := r.out.admitted)), r)
  {
    hide TryDispatch;
    DispatchCalm(Admit(s, req), h);
  }

  lemma CancelCalm(s: Sched, h: Host, id: nat)
    ensures Calm(s, OnCancel(s, h, id))
  {
    hide TryDispatch, RemoveAt, Calm;
    SameCalm(s);
    var i := IndexOf(s.queued, id);
    if i < |s.queued| {
      var q := s.(queued := RemoveAt(s.queued, i), out := s.out.(cancelled := s.out.cancelled + multiset{id}));
      var x := DropOwner(q, id);
      DispatchCalm(x, h);
      CalmFrom(s, x, TryDispatch(x, h));
    }
  }

  lemma TimeoutCalm(s: Sched, h: Host, id: nat)
    ensures Calm(s, OnQueueTimeout(s, h, id))
  {
    hide TryDispatch, RemoveAt, Calm;
    SameCalm(s);
    var i := IndexOf(s.queued, id);
    if i < |s.queued| {
      var d := DropOwner(s.(queued := RemoveAt(s.queued, i)), id);
      var x := d.(out := Answer(d.out, id, Errored(QueueTimeout)));
      DispatchCalm(x, h);
      CalmFrom(s, x, TryDispatch(x, h));
    }
  }

  lemma SameCalm(s: Sched)
    ensures Calm(s, s)
  {
  }

  lemma CalmFrom(s: Sched, x: Sched, r: Sched)
    requires Calm(x, r) && x.cfg == s.cfg && x.work == s.work && x.unloadFail == s.unloadFail
    requires x.out.admitted == s.out.admitted && x.out.loads == s.out.loads && x.out.unloads == s.out.unloads
    ensures Calm(s, r)
  {
  }

  lemma CancelGrantedCalm(s: Sched, h: Host, m: Model)
    ensures Calm(s, OnCancelGranted(s, h, m))
  {
    hide TryDispatch;
    DispatchCalm(s.(work := CancelGranted(s.work, m)), h);
  }

  lemma ServeCalm(s: Sched, h: Host, m: Model)
    ensures Calm(s.(work := ServeDone(s.work, m)), OnServeDone(s, h, m))
  {
    DispatchCalm(s.(work := ServeDone(s.work, m)), h);
  }

  lemma BackendCalm(s: Sched, h: Host, m: Model)
    ensures Calm(s, OnBackendDone(s, h, m))
  {
    hide TryDispatch;
    DispatchCalm(s.(work := s.work.(backend := s.work.backend - {m})), h);
  }

  lemma RemindCalm(s: Sched, h: Host)
    ensures Calm(s, OnRemind(s, h))
  {
    hide TryDispatch;
    DispatchCalm(s.(gates := s.gates.(armed := false)), h);
  }

  lemma SwapCalm(s: Sched, h: Host, m: Model, fault: Option<Fault>)
    ensures Calm(s, OnSwapDone(s, h, m, fault))
  {
    hide TryDispatch;
    if s.phase.Loading? && s.swap.target == Some(m) { DispatchCalm(EndLoad(s, fault), h); }
  }

  /** A failed unload blocks its victims, unless it failed only to drain in time. */
  lemma UnloadCalm(s: Sched, h: Host, fault: Option<Fault>)
    ensures var r := OnUnloadDone(s, h, fault);
      Calm(s.(unloadFail := r.unloadFail), r) && s.unloadFail <= r.unloadFail
  {
    hide TryDispatch, ReopenUnusedGates, OpenGates;
    if s.phase.Unloading? {
      match fault
      case Some(f) => DispatchCalm(FailUnload(s, f), h);
      case None =>
        ReopenCalm(s.(gates := OpenGates(s.gates, Elements(s.swap.evict)), phase := Idle,
                   swap := Swap(None, [], false)), h);
        DispatchCalm(EndUnload(s, h), h);
    }
  }

  lemma ReopenCalm(s: Sched, h: Host)
    ensures ReopenUnusedGates(s, h) == s.(gates := ReopenUnusedGates(s, h).gates)
  {
  }

  lemma FailOwnerCalm(s: Sched, h: Host, cause: Cause)
    ensures Calm(s, FailOwner(s, h, cause))
  {
    hide TryDispatch;
    var s1 := EndSession(s).(session := s.session.(token := 0, owner := 0, current := None));
    DispatchCalm(s1, h);
    if s1.queued != [] { DispatchCalm(FailHead(s1, cause), h); }
  }

  lemma SampleFailedCalm(s: Sched, h: Host)
    ensures Calm(s, SampleFailed(s, h))
  {
    FailOwnerCalm(s, h, NotBooted);
  }

  lemma LaunchCalm(s: Sched, h: Host)
    ensures Calm(s, LaunchProbe(s, h))
  {
    hide FailOwner, TryDispatch;
    var p := NextFresh(s.session.order, s.session.pos, s.session.checked);
    if p >= |s.session.order| {
      var s1 := s.(session := s.session.(pos := p));
      FailOwnerCalm(s1, h, Resources);
      FailOwnerCalm(s1, h, LifecyclePending);
      DispatchCalm(EndSession(s1), h);
    }
  }

  /** A result may settle its own model's work, and free it to be unloaded again. */
  ghost predicate Digest(s: Sched, r: Sched, n: Note) {
    && Calm(s.(work := s.work.(unresolved := r.work.unresolved), unloadFail := r.unloadFail), r)
    && (r.work.unresolved == s.work.unresolved
        || (n.applied && r.work.unresolved == ApplyBackend(s.work, n.model, n.active, n.proof).unresolved))
    && (r.unloadFail == s.unloadFail
        || (n.applied && n.rec.ReadyIdle? && r.unloadFail == s.unloadFail - {n.model}))
  }

  lemma ConcludeDigest(s: Sched, h: Host, n: Note)
    ensures Digest(s, Conclude(s, h, n), n)
  {
    hide FailOwner, TryDispatch, LaunchProbe, Verdict, ApplyBackend;
    FailOwnerCalm(s, h, Resources);
    FailOwnerCalm(s, h, LifecyclePending);
    DispatchCalm(EndSession(s), h);
    BackendOnly(s.work, n.model, n.active, n.proof);
    var s1 := Absorb(s, n);
    DispatchCalm(EndSession(s1), h);
    LaunchCalm(s1.(session := s1.session.(pos := s1.session.pos + 1)), h);
  }

  lemma LateDigest(s: Sched, h: Host, n: Note)
    ensures Digest(s, NoteLate(s, h, n), n)
  {
    hide TryDispatch;
    var s1 := if !n.applied then s
              else s.(work := ApplyBackend(s.work, n.model, n.active, n.proof),
                      unloadFail := if n.rec.ReadyIdle? then s.unloadFail - {n.model} else s.unloadFail);
    DispatchCalm(s1, h);
  }

  lemma NoteDigest(s: Sched, h: Host, n: Note)
    ensures Digest(s, NoteProbe(s, h, n), n)
  {
    hide NoteLate, Conclude, ApplyBackend, MarkSeen;
    var s1 := ForgetProbe(s, n.model);
    LateDigest(s1, h, n);
    var s2 := s1.(book := MarkSeen(s1.book, s1.session.owner, n.model));
    ConcludeDigest(s2.(session := s2.session.(checked := s2.session.checked + {n.model}, current := None),
                       out := s2.out.(noted := s2.out.noted + {(s2.session.owner, n.model)})), h, n);
  }

  lemma StatusDigest(s: Sched, h: Host, m: Model, active: Option<nat>, gen: nat)
    ensures var r := OnStatus(s, h, m, active, gen);
      && Calm(s.(work := s.work.(unresolved := r.work.unresolved)), r)
      && (r.work.unresolved == s.work.unresolved
          || (active.Some? && r.work.unresolved == ApplyBackend(s.work, m, active.value, gen).unresolved))
  {
    hide TryDispatch, ApplyBackend;
    if active.Some? {
      BackendOnly(s.work, m, active.value, gen);
      DispatchCalm(s.(work := ApplyBackend(s.work, m, active.value, gen)), h);
    }
  }

  lemma BackendOnly(w: Work, m: Model, active: nat, proof: nat)
    ensures var r := ApplyBackend(w, m, active, proof);
      r == w.(backend := r.backend, unresolved := r.unresolved)
  {
  }

  /** Cleared markers free their models to be unloaded again, and nothing else. */
  lemma ClearMarkersCalm(s: Sched, h: Host, cleared: seq<Model>)
    requires Distinct(cleared)
    requires s.phase.Sample? ==> s.session.needSample != {} && Elements(cleared) <= s.session.needSample
    ensures Calm(s.(unloadFail := s.unloadFail - Elements(cleared)), ClearMarkers(s, h, cleared))
  {
    hide TryDispatch;
    ClearMarkersOrder(s, h, cleared);
    DispatchCalm(EndSession(Unmarked(s, Elements(cleared))), h);
  }
}
