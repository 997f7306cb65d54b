/**
 tryDispatch as a whole: it keeps the invariant, starts at most one job, and starts it on
 evidence.
 */
module SchedulerDispatch {
  import opened Types
  import opened Scheduler
  import opened SchedulerLaws
  import opened SchedulerTurns

  // ---------------------------------------------------------------- what dispatch leaves alone

  predicate OneMore<T(==)>(a: seq<T>, b: seq<T>) {
    |b| == |a| + 1 && b[..|a|] == a
  }

  /** Dispatch starts at most one job, and none unless it began idle. */
  ghost predicate Moved(s: Sched, r: Sched) {
    && r.cfg == s.cfg
    && r.unloadFail == s.unloadFail
    && r.work.httpIn == s.work.httpIn && r.work.backend == s.work.backend && r.work.unresolved == s.work.unresolved
    && r.out.admitted == s.out.admitted && r.out.cancelled == s.out.cancelled && r.out.rejected == s.out.rejected
    && (!s.phase.Idle? ==> r.out == s.out && r.phase == s.phase)
    && (r.out.loads == s.out.loads
        || (s.phase.Idle? && OneMore(s.out.loads, r.out.loads) && r.out.loads[|s.out.loads|].stage.Called?))
    && (r.out.unloads == s.out.unloads
        || (s.phase.Idle? && OneMore(s.out.unloads, r.out.unloads) && r.out.unloads[|s.out.unloads|].stage.Draining?))
  }

  lemma SessionMoves(s: Sched, h: Host)
    requires s.phase.Idle? && s.queued != []
    ensures Moved(s, BeginSession(s, h))
  {
    hide Unseen, Suspects, StatusOrder;
  }

  lemma HeadMoves(s: Sched, h: Host)
    requires s.phase.Idle? && s.queued != []
    ensures Moved(s, HeadTurn(s, h).s)
    ensures HeadTurn(s, h).Again? ==>
              HeadTurn(s, h).s.phase.Idle? && HeadTurn(s, h).s.out.loads == s.out.loads
              && HeadTurn(s, h).s.out.unloads == s.out.unloads
  {
    hide CloseGates, OpenGates, DrainDeadline, DrainExpired, AnyBusy, AnyFailed, Slots;
  }

  lemma TurnMoves(s: Sched, h: Host)
    ensures Moved(s, TakeTurn(s, h).s)
    ensures TakeTurn(s, h).Again? ==>
              s.phase.Idle? && TakeTurn(s, h).s.phase.Idle? && TakeTurn(s, h).s.out.loads == s.out.loads
              && TakeTurn(s, h).s.out.unloads == s.out.unloads
  {
    hide HeadTurn, BeginSession, MustRecover, NeededGates;
    if s.phase.Idle? && s.queued != [] {
      SessionMoves(s, h);
      HeadMoves(ReopenUnusedGates(s, h), h);
    }
  }

  lemma {:induction false} DispatchMoves(s: Sched, h: Host)
    ensures Moved(s, TryDispatch(s, h))
    decreases |s.queued|
  {
    hide TakeTurn;
    TurnMoves(s, h);
    match TakeTurn(s, h)
    case Halt(s') =>
    case Again(s') => DispatchMoves(s', h);
  }

  lemma HeadQueue(s: Sched, h: Host)
    requires s.queued != []
    ensures HeadTurn(s, h).s.queued == if HeadTurn(s, h).Again? then s.queued[1..] else s.queued
  {
    hide CloseGates, OpenGates, DrainDeadline, DrainExpired, AnyBusy, AnyFailed, Slots;
  }

  lemma TurnQueue(s: Sched, h: Host)
    ensures TakeTurn(s, h).s.queued == if TakeTurn(s, h).Again? then s.queued[1..] else s.queued
  {
    hide HeadTurn, MustRecover, NeededGates, Unseen;
    if s.queued != [] { HeadQueue(ReopenUnusedGates(s, h), h); }
  }

  /** Dispatch lets nobody into the queue. */
  lemma {:induction false} DispatchQueue(s: Sched, h: Host)
    ensures forall q :: q in TryDispatch(s, h).queued ==> q in s.queued
    decreases |s.queued|
  {
    hide TakeTurn;
    TurnQueue(s, h);
    match TakeTurn(s, h)
    case Halt(s') =>
    case Again(s') => DispatchQueue(s', h);
  }

  // ---------------------------------------------------------------- nothing waits for nothing

  /** The head waits for its own model's slots, or for busy victims with the drain clock running. */
  ghost predicate WaitsItsTurn(r: Sched, h: Host)
    requires r.queued != []
  {
    var m := r.queued[0].model;
    Slots(r.work, m) >= Limit(r.cfg, m)
    || (DecideOf(h, m).Evict? && DecideOf(h, m).ids != [] && AnyBusy(r.work, DecideOf(h, m).ids)
        && Elements(DecideOf(h, m).ids) == r.gates.closed
        && !DrainExpired(r.gates.at, r.cfg.drain, DecideOf(h, m).ids, h.now)
        && r.gates.armed)
  }

  ghost predicate Waits(r: Sched, h: Host)
    requires r.queued != []
  {
    !MustRecover(r, h, r.queued[0]) && WaitsItsTurn(r, h)
  }

  /** What the head waits for does not depend on the gates and the outbox. */
  lemma RecoveryStays(s: Sched, r: Sched, h: Host, head: Req)
    requires r.unloadFail == s.unloadFail && r.book == s.book
    ensures MustRecover(r, h, head) == MustRecover(s, h, head)
  {
    assert Unseen(r, h, head) == Unseen(s, h, head);
  }

  lemma HeadSettles(s: Sched, h: Host)
    requires s.gates.at.Keys == s.gates.closed && s.phase.Idle? && s.queued != []
    requires s.gates.closed <= Elements(EvictionFor(h, s.queued[0].model))
    ensures var t := HeadTurn(s, h);
      t.Halt? && t.s.phase.Idle? ==>
        t.s.queued == s.queued && t.s.unloadFail == s.unloadFail && t.s.book == s.book
        && WaitsItsTurn(t.s, h)
  {
    hide DrainDeadline, DrainExpired, AnyBusy, AnyFailed, Slots, GrantHead, FailDrain, CloseGates;
    var ids := EvictionFor(h, s.queued[0].model);
    CloseGatesSpec(s.gates, ids, h.now);
    assert s.gates.closed + Elements(ids) == Elements(ids);
  }

  lemma TurnSettles(s: Sched, h: Host)
    requires GateInv(s, h.now) && LifeInv(s)
    ensures var t := TakeTurn(s, h);
      t.Halt? && t.s.phase.Idle? ==> t.s.queued == [] || Waits(t.s, h)
  {
    hide MustRecover, HeadTurn, WaitsItsTurn, Quiet, DueBy;
    if s.phase.Idle? && s.queued != [] && !MustRecover(s, h, s.queued[0]) {
      var s1 := ReopenUnusedGates(s, h);
      HeadSettles(s1, h);
      RecoveryStays(s, s1, h, s.queued[0]);
      var t := HeadTurn(s1, h);
      if t.Halt? && t.s.phase.Idle? {
        RecoveryStays(s1, t.s, h, s.queued[0]);
      }
    }
  }

  /**
   No lost wake-up: dispatch that ends idle with a request still queued leaves it waiting
   for slots of its own model, or for a busy victim whose gate is closed, whose drain has
   not expired, and for which a reminder is outstanding that is due in time.
   */
  lemma {:induction false} NothingWaitsForNothing(s: Sched, h: Host)
    requires HostOK(h) && Inv(s, h)
    ensures var r := TryDispatch(s, h);
      r.phase.Idle? && r.queued != [] ==>
        Waits(r, h)
        && (r.gates.armed ==>
              exists i :: 0 <= i < |r.out.reminders| && DueBy(r.gates, r.cfg.drain, h.now, r.out.reminders[i]))
    decreases |s.queued|
  {
    hide RecInv, TakeTurn, Waits, WorkOK, TallyInv;
    TurnSettles(s, h);
    TurnInv(s, h);
    match TakeTurn(s, h)
    case Halt(s') =>
    case Again(s') => NothingWaitsForNothing(s', h);
  }

  // ---------------------------------------------------------------- evidence before action

  /** Every model whose state is in doubt has been asked about for this request, and none waits for a sample. */
  ghost predicate Evidence(s: Sched, h: Host, head: Req) {
    (StateOf(h, head.model).Starting? && head.model in h.inFlight)
    || (Marked(h) == {} && forall m :: m in Suspects(h, s.unloadFail) ==> m in SeenBy(s.book, head.id))
  }

  /** The head for which r starts a load or an unload, having checked the evidence. */
  ghost predicate ActsFor(r: Sched, h: Host) {
    && r.queued != [] && r.swap.target == Some(r.queued[0].model)
    && !StateOf(h, r.queued[0].model).Ready?
    && Evidence(r, h, r.queued[0])
  }

  /** An unload's victims are idle here and not known to resist; its deadline is ahead, and soon enough. */
  ghost predicate FairUnload(r: Sched, h: Host, j: UnloadJob)
    requires r.queued != []
  {
    && j.ids == r.swap.evict && j.ids != []
    && DecideOf(h, r.queued[0].model) == Evict(j.ids)
    && (forall v :: v in j.ids ==>
          && Get(r.work.pending, v) == 0 && Get(r.work.httpIn, v) == 0
          && Get(r.work.unresolved, v) == 0 && Get(r.work.backend, v) == 0
          && v !in r.unloadFail && v in r.gates.at)
    && h.now < j.deadline
    && (forall v :: v in j.ids ==> j.deadline <= r.gates.at[v] + r.cfg.drain)
  }

  /** If r started a load or an unload, it had checked. */
  ghost predicate FairAction(s: Sched, r: Sched, h: Host) {
    && (r.out.loads != s.out.loads ==> ActsFor(r, h) && DecideOf(h, r.queued[0].model) == Evict([]))
    && (r.out.unloads != s.out.unloads ==>
          ActsFor(r, h) && r.out.unloads != [] && FairUnload(r, h, r.out.unloads[|r.out.unloads| - 1]))
  }

  lemma HeadEvidence(s: Sched, h: Host)
    requires s.phase.Idle? && s.queued != [] && !MustRecover(s, h, s.queued[0])
    ensures !StateOf(h, s.queued[0].model).Ready? ==> Evidence(s, h, s.queued[0])
  {
    SuspectsAndOrder(s, h, s.queued[0]);
    var order := Unseen(s, h, s.queued[0]);
    assert order != [] ==> order[0] in order;
  }

  lemma UnloadIsFair(s: Sched, h: Host, ids: seq<Model>)
    requires GateInv(s, h.now) && s.queued != [] && ids != [] && Elements(ids) <= s.gates.closed
    requires DecideOf(h, s.queued[0].model) == Evict(ids)
    requires !DrainExpired(s.gates.at, s.cfg.drain, ids, h.now) && !AnyBusy(s.work, ids)
    requires !AnyFailed(s.unloadFail, ids)
    ensures var r := StartUnload(s, h, s.queued[0].model, ids);
      FairUnload(r, h, r.out.unloads[|r.out.unloads| - 1])
  {
    DeadlineSpec(s.gates.at, s.cfg.drain, ids, h.now);
    assert forall v :: v in ids ==> v in Elements(ids);
    assert forall i :: 0 <= i < |ids| ==> !Busy(s.work, ids[i]) && ids[i] !in s.unloadFail;
  }

  /** The evidence is about the queue's head, what failed to unload and what was asked. */
  lemma EvidenceStays(s: Sched, r: Sched, h: Host)
    requires s.queued != [] && r.queued == s.queued && r.unloadFail == s.unloadFail && r.book.seen == s.book.seen
    ensures Evidence(r, h, r.queued[0]) == Evidence(s, h, s.queued[0])
  {
    assert SeenBy(r.book, s.queued[0].id) == SeenBy(s.book, s.queued[0].id);
  }

  /** The two ways in which a head's turn acts. */
  lemma HeadActs(s: Sched, h: Host)
    requires s.phase.Idle? && s.queued != []
    ensures var m := s.queued[0].model;
      var ids := EvictionFor(h, m);
      var closed := s.(gates := CloseGates(s.gates, ids, h.now));
      var r := HeadTurn(s, h).s;
      && (r.out.loads != s.out.loads ==>
            r.out.loads == s.out.loads + [LoadJob(m, Called)] && DecideOf(h, m) == Evict([])
            && r.queued == s.queued && r.swap.target == Some(m) && r.unloadFail == s.unloadFail
            && r.book.seen == s.book.seen && !StateOf(h, m).Ready?)
      && (r.out.unloads != s.out.unloads ==>
            && ids != [] && DecideOf(h, m) == Evict(ids)
            && !DrainExpired(closed.gates.at, s.cfg.drain, ids, h.now) && !AnyBusy(s.work, ids)
            && !AnyFailed(s.unloadFail, ids)
            && r == StartUnload(closed, h, m, ids))
  {
    hide CloseGates, OpenGates, DrainDeadline, DrainExpired, AnyBusy, AnyFailed, Slots;
  }

  /** What a head's turn that acts has checked. */
  lemma HeadTurnEvidence(s: Sched, h: Host)
    requires HostOK(h) && GateInv(s, h.now) && s.phase.Idle? && s.queued != []
    requires !StateOf(h, s.queued[0].model).Ready? ==> Evidence(s, h, s.queued[0])
    ensures FairAction(s, HeadTurn(s, h).s, h)
  {
    var r := HeadTurn(s, h).s;
    var ids := EvictionFor(h, s.queued[0].model);
    assert DecideOf(h, s.queued[0].model) == Evict(ids) && ids != [] ==> !StateOf(h, s.queued[0].model).Ready?;
    hide HeadTurn, Evidence, FairUnload, DrainExpired, AnyBusy, AnyFailed, HostOK, EvictionFor, DecideOf, DrainDeadline;
    HeadActs(s, h);
    if r.out.loads != s.out.loads {
      EvidenceStays(s, r, h);
    } else if r.out.unloads != s.out.unloads {
      CloseGatesSpec(s.gates, ids, h.now);
      UnloadIsFair(s.(gates := CloseGates(s.gates, ids, h.now)), h, ids);
      EvidenceStays(s, r, h);
    }
  }

  lemma TurnEvidence(s: Sched, h: Host)
    requires HostOK(h) && GateInv(s, h.now)
    ensures FairAction(s, TakeTurn(s, h).s, h)
  {
    hide HostOK, HeadTurn, BeginSession, MustRecover, ActsFor, FairUnload, Evidence, NeededGates;
    if s.phase.Idle? && s.queued != [] {
      if MustRecover(s, h, s.queued[0]) {
        SessionStartsNothing(s, h);
      } else {
        var s1 := ReopenUnusedGates(s, h);
        HeadEvidence(s, h);
        EvidenceStays(s, s1, h);
        HeadTurnEvidence(s1, h);
      }
    }
  }

  lemma SessionStartsNothing(s: Sched, h: Host)
    requires s.phase.Idle? && s.queued != []
    ensures BeginSession(s, h).out.loads == s.out.loads && BeginSession(s, h).out.unloads == s.out.unloads
  {
    hide Unseen;
  }

  // ---------------------------------------------------------------- the head's own story

  /** A head with room for a call of its own model is being watched over by a reminder. */
  ghost predicate Awake(s: Sched) {
    s.phase.Idle? && s.queued != [] && Slots(s.work, s.queued[0].model) < Limit(s.cfg, s.queued[0].model) ==>
      s.gates.armed
  }

  /** No result has come back for the head. */
  ghost predicate Unheard(s: Sched)
    requires s.queued != []
  {
    forall m :: (s.queued[0].id, m) !in s.out.noted
  }

  /** The head will not act for lack of an answer: its session is failing it, or its model is ready. */
  ghost predicate Excused(s: Sched, h: Host) {
    && s.queued != []
    && ((s.phase.Recover? && s.session.sawResources) || (s.phase.Idle? && StateOf(h, s.queued[0].model).Ready?))
  }

  /** What became of the head: it is a new one, or it has heard nothing more and its excuse still holds. */
  ghost predicate Story(s: Sched, r: Sched, h: Host) {
    || r.queued == []
    || Unheard(r)
    || (s.queued != [] && r.queued[0] == s.queued[0] && r.out.noted == s.out.noted && (Excused(s, h) ==> Excused(r, h)))
  }

  /** Whatever is started is started on evidence, the head stays awake, and its story goes on. */
  ghost predicate Settled(s: Sched, r: Sched, h: Host) {
    FairAction(s, r, h) && Awake(r) && Story(s, r, h)
  }

  lemma NewHead(s: Sched, r: Sched)
    requires SeenInv(s) && s.queued != [] && r.queued == s.queued[1..] && r.out.noted == s.out.noted
    ensures r.queued != [] ==> Unheard(r)
  {
    hide SeenBy;
    if r.queued != [] { assert r.queued[0] == s.queued[1]; }
  }

  lemma StorySame(s: Sched, r: Sched, h: Host)
    requires r.queued == s.queued && r.phase == s.phase && r.out.noted == s.out.noted
    requires r.session.sawResources == s.session.sawResources
    ensures Story(s, r, h)
  {
  }

  lemma StoryGoesOn(s: Sched, x: Sched, r: Sched, h: Host)
    requires Story(s, x, h) && Story(x, r, h)
    ensures Story(s, r, h)
  {
  }

  lemma HeadStory(s: Sched, h: Host)
    requires HostOK(h) && SeenInv(s) && s.phase.Idle? && s.queued != []
    ensures Story(s, HeadTurn(s, h).s, h)
  {
    hide HeadTurn, SeenInv, Slots, Limit;
    var r := HeadTurn(s, h).s;
    HeadStays(s, h);
    if HeadTurn(s, h).Again? { NewHead(s, r); }
  }

  lemma ReadyPlans(h: Host, m: Model)
    requires HostOK(h)
    ensures StateOf(h, m).Ready? && DecideOf(h, m).Evict? ==> DecideOf(h, m) == Evict([])
  {
  }

  /** A ready head that is not served stays where it is, idle. */
  lemma HeadStays(s: Sched, h: Host)
    requires HostOK(h) && s.phase.Idle? && s.queued != []
    ensures var t := HeadTurn(s, h);
      && t.s.out.noted == s.out.noted
      && (t.Again? ==> t.s.queued == s.queued[1..])
      && (t.Halt? ==> t.s.queued == s.queued && (StateOf(h, s.queued[0].model).Ready? ==> t.s.phase.Idle?))
  {
    hide CloseGates, OpenGates, DrainDeadline, DrainExpired, AnyBusy, AnyFailed, Slots, HostOK, DecideOf;
    ReadyPlans(h, s.queued[0].model);
  }

  lemma SessionStory(s: Sched, h: Host)
    requires s.phase.Idle? && s.queued != [] && MustRecover(s, h, s.queued[0])
    ensures Story(s, BeginSession(s, h), h)
  {
    hide Unseen, Marked;
  }

  lemma TurnStory(s: Sched, h: Host)
    requires HostOK(h) && SeenInv(s)
    ensures Story(s, TakeTurn(s, h).s, h)
  {
    hide HeadTurn, BeginSession, MustRecover, NeededGates, SeenInv, HostOK;
    var s1 := ReopenUnusedGates(s, h);
    StorySame(s, s, h);
    StorySame(s, s1, h);
    if s.phase.Idle? && s.queued != [] {
      if MustRecover(s, h, s.queued[0]) {
        SessionStory(s, h);
      } else {
        SeenRead(s, s1);
        HeadStory(s1, h);
        StoryGoesOn(s, s1, HeadTurn(s1, h).s, h);
      }
    }
  }

  lemma SeenRead(s: Sched, r: Sched)
    requires SeenInv(s) && r == s.(gates := r.gates)
    ensures SeenInv(r)
  {
    hide SeenBy;
  }

  lemma AwakeByWaiting(s: Sched, h: Host)
    requires s.phase.Idle? && s.queued != [] ==> Waits(s, h)
    ensures Awake(s)
  {
    hide MustRecover, Slots, AnyBusy, DrainExpired;
  }

  /**
   Dispatch keeps the invariant. A load or an unload is started only for a head that is not
   ready, with no marker left and every doubtful model already asked about for that request,
   except to join the head's own load in flight. An unload besides has only idle victims
   that have not resisted, and a deadline after now and within the drain time of closing
   their gates.
   */
  lemma {:induction false} DispatchInv(s: Sched, h: Host)
    requires HostOK(h) && Inv(s, h)
    ensures Inv(TryDispatch(s, h), h)
    ensures FairAction(s, TryDispatch(s, h), h) && Story(s, TryDispatch(s, h), h)
    decreases |s.queued|
  {
    hide SessionInv, LiveInv, AskInv, SeenInv, TargetInv, TakeTurn, ActsFor, FairUnload, HostOK, WorkInv, QueueInv,
         TallyInv, GateInv, LifeInv, LateInv, Story;
    TurnEvidence(s, h);
    TurnMoves(s, h);
    TurnInv(s, h);
    TurnStory(s, h);
    match TakeTurn(s, h)
    case Halt(s') =>
    case Again(s') =>
      DispatchInv(s', h);
      StoryGoesOn(s, s', TryDispatch(s', h), h);
  }

  /** Only jobs started since the same ones were in flight need evidence. */
  lemma FairFrom(s: Sched, x: Sched, r: Sched, h: Host)
    requires FairAction(x, r, h) && x.out.loads == s.out.loads && x.out.unloads == s.out.unloads
    ensures FairAction(s, r, h)
  {
    hide ActsFor, FairUnload;
  }

  /** Nothing was started, and the head is where it was. */
  lemma FairStill(s: Sched, r: Sched, h: Host)
    requires r.out.loads == s.out.loads && r.out.unloads == s.out.unloads
    requires Awake(r) && Story(s, r, h)
    ensures Settled(s, r, h)
  {
    hide Awake, Story;
  }

  /** What settles a later state with the same jobs in flight settles an earlier one. */
  lemma SettledFrom(s: Sched, x: Sched, r: Sched, h: Host)
    requires Settled(x, r, h) && x.out.loads == s.out.loads && x.out.unloads == s.out.unloads && Story(s, x, h)
    ensures Settled(s, r, h)
  {
    hide FairAction, Awake, Story;
    FairFrom(s, x, r, h);
    StoryGoesOn(s, x, r, h);
  }

  /** Dispatch from a state with the same jobs in flight. */
  lemma DispatchFrom(s: Sched, x: Sched, h: Host)
    requires HostOK(h) && Inv(x, h) && x.out.loads == s.out.loads && x.out.unloads == s.out.unloads
    requires Story(s, x, h)
    ensures Inv(TryDispatch(x, h), h) && Settled(s, TryDispatch(x, h), h)
  {
    hide Inv, HostOK, FairAction, TryDispatch, Story, Awake, Waits;
    DispatchInv(x, h);
    NothingWaitsForNothing(x, h);
    AwakeByWaiting(TryDispatch(x, h), h);
    SettledFrom(s, x, TryDispatch(x, h), h);
  }
}
