/** How the invariant follows the host: the clock, the clients, the jobs in flight, the markers. */
module SchedulerHosts {
  import opened Types
  import opened Scheduler
  import opened SchedulerLaws
  import opened SchedulerTurns
  import opened SchedulerDispatch
  import opened SchedulerHandlers
  import opened SchedulerRecovery

  // ---------------------------------------------------------------- between events

  /** The same clients and markers; the planner's answers and the callers may differ. */
  ghost predicate SameFacts(h0: Host, h1: Host) {
    h1.states == h0.states && h1.gens == h0.gens && h1.markers == h0.markers && h1.inFlight == h0.inFlight
  }

  /** The core invariant reads the models' names and the clock. */
  lemma CoreLater(s: Sched, h0: Host, h1: Host)
    requires CoreInv(s, h0) && h1.now >= h0.now && h1.states.Keys == h0.states.Keys
    ensures CoreInv(s, h1)
  {
    hide WorkOK, Subseq, Ids, Slots;
    if s.gates.armed {
      var i :| 0 <= i < |s.out.reminders| && DueBy(s.gates, s.cfg.drain, h0.now, s.out.reminders[i]);
      assert DueBy(s.gates, s.cfg.drain, h1.now, s.out.reminders[i]);
    }
  }

  lemma RecSame(s: Sched, h0: Host, h1: Host)
    requires RecInv(s, h0) && SameFacts(h0, h1)
    ensures RecInv(s, h1)
  {
    assert Suspects(h1, s.unloadFail) == Suspects(h0, s.unloadFail);
    hide SeenBy, Suspects;
  }

  /** Time passes. */
  lemma LaterInv(s: Sched, h0: Host, h1: Host)
    requires Inv(s, h0) && SameFacts(h0, h1) && h1.now >= h0.now
    ensures Inv(s, h1)
  {
    hide CoreInv, RecInv;
    CoreLater(s, h0, h1);
    RecSame(s, h0, h1);
  }

  /** A client that nobody is asking about, or means to, does something. */
  lemma ClientMovesInv(s: Sched, h0: Host, h1: Host, a: Model)
    requires Inv(s, h0) && SameBut(h0, h1, a) && h1.markers == h0.markers
    requires a !in s.book.started
    requires s.phase.Recover? ==> a !in Suspects(h0, s.unloadFail)
    ensures Inv(s, h1)
  {
    hide WorkInv, QueueInv, TallyInv, GateInv, LifeInv, LateInv, SeenInv, SeenBy;
    assert CoreInv(s, h1) by { CoreLater(s, h0, h1); }
    assert forall m :: m != a ==> (m in Suspects(h1, s.unloadFail) <==> m in Suspects(h0, s.unloadFail));
    hide CoreInv, Suspects;
  }

  // ---------------------------------------------------------------- jobs

  /** The jobs in flight progress; what they are for stays. */
  lemma JobInv(s: Sched, h: Host, r: Sched)
    requires Inv(s, h)
    requires r == s.(out := s.out.(loads := r.out.loads, unloads := r.out.unloads))
    requires |r.out.loads| == |s.out.loads| && |r.out.unloads| == |s.out.unloads|
    requires forall i :: 0 <= i < |s.out.loads| ==> r.out.loads[i].model == s.out.loads[i].model
    requires forall i :: 0 <= i < |s.out.unloads| ==> r.out.unloads[i].ids == s.out.unloads[i].ids
    ensures Inv(r, h)
  {
    hide RecInv;
    RecFrame(s, h, r);
    assert LifeInv(r) && LateInv(r);
    hide LifeInv, LateInv;
    CoreFrame(s, h, h, r);
  }

  // ---------------------------------------------------------------- samples

  lemma SampleFailedInv(s: Sched, h: Host)
    requires Inv(s, h) && HostOK(h) && Awake(s)
    ensures Inv(SampleFailed(s, h), h) && Settled(s, SampleFailed(s, h), h)
  {
    hide Settled, FailOwner, CoreInv, SessionInv, AskInv, SeenInv, TargetInv, ProbeOK;
    StorySame(s, s, h);
    FairStill(s, s, h);
    if s.phase.Sample? { FailOwnerInv(s, h, NotBooted); }
  }

  /** Markers went; nobody was asking about them, and a session was waiting for them. */
  ghost predicate Cleared(s: Sched, h0: Host, h1: Host, cleared: set<Model>) {
    && h1.states == h0.states && h1.gens == h0.gens && h1.inFlight == h0.inFlight && h1.now == h0.now
    && h1.markers == h0.markers - cleared
    && (InSession(s) ==> cleared <= h0.markers)
    && (forall m :: m in s.book.started ==> m !in cleared)
  }

  lemma ClearedSuspects(s: Sched, h0: Host, h1: Host, cleared: set<Model>)
    requires Cleared(s, h0, h1, cleared)
    ensures forall m :: m in Suspects(h0, s.unloadFail) && m !in cleared ==>
              m in Suspects(h1, s.unloadFail - cleared)
  {
  }

  /** The scheduler still waits for other markers, or is about to dispatch. */
  ghost predicate AfterClear(s: Sched, cleared: set<Model>, r: Sched) {
    if s.phase.Sample? && s.session.needSample == cleared then r == EndSession(Unmarked(s, cleared))
    else r == Unmarked(s, cleared)
  }

  lemma NothingLeft(a: set<Model>, b: set<Model>)
    requires a != b && b <= a
    ensures a - b != {}
  {
    assert !(a <= b);
    var x :| x in a && x !in b;
    assert x in a - b;
  }

  lemma UnmarkedRec(s: Sched, h0: Host, h1: Host, cleared: set<Model>, r: Sched)
    requires RecInv(s, h0) && Cleared(s, h0, h1, cleared)
    requires AfterClear(s, cleared, r)
    ensures RecInv(r, h1)
  {
    hide SeenBy;
    ClearedSuspects(s, h0, h1, cleared);
    assert s.phase.Recover? ==> forall m :: m in Suspects(h0, s.unloadFail) ==> m !in cleared;
    hide Suspects;
    assert SeenInv(r) by { assert forall o :: SeenBy(r.book, o) == SeenBy(s.book, o); }
    if s.phase.Sample? && s.session.needSample != cleared { NothingLeft(s.session.needSample, cleared); }
    hide SeenInv;
  }

  lemma UnmarkedInv(s: Sched, h0: Host, h1: Host, cleared: set<Model>, r: Sched)
    requires Inv(s, h0) && Cleared(s, h0, h1, cleared)
    requires AfterClear(s, cleared, r)
    ensures Inv(r, h1)
  {
    assert LifeInv(r) && LateInv(r);
    hide RecInv, LifeInv, LateInv;
    UnmarkedRec(s, h0, h1, cleared, r);
    CoreFrame(s, h0, h1, r);
    hide CoreInv;
  }

  lemma ClearMarkersInv(s: Sched, h0: Host, h1: Host, cleared: seq<Model>)
    requires Inv(s, h0) && HostOK(h1) && Awake(s) && Distinct(cleared) && Cleared(s, h0, h1, Elements(cleared))
    ensures Inv(ClearMarkers(s, h1, cleared), h1) && Settled(s, ClearMarkers(s, h1, cleared), h1)
  {
    assert s.phase.Sample? ==> s.session.needSample != {} && s.session.needSample == h0.markers;
    var c := Elements(cleared);
    assert Unmarked(s, c).out == s.out;
    StorySame(s, Unmarked(s, c), h1);
    AwakeSame(s, Unmarked(s, c));
    hide Inv, HostOK, Unmarked, Settled, TryDispatch;
    ClearMarkersOrder(s, h1, cleared);
    FairStill(s, Unmarked(s, c), h1);
    if s.phase.Sample? && s.session.needSample == c {
      UnmarkedInv(s, h0, h1, c, EndSession(Unmarked(s, c)));
      DispatchFrom(s, EndSession(Unmarked(s, c)), h1);
    } else {
      UnmarkedInv(s, h0, h1, c, Unmarked(s, c));
    }
  }
}
