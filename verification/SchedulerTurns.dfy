/** One pass of tryDispatch keeps the invariant; so does tryDispatch. */
module SchedulerTurns {
  import opened Types
  import opened Scheduler
  import opened SchedulerLaws

  // ---------------------------------------------------------------- gates

  lemma CloseGatesSpec(g: Gates, ids: seq<Model>, now: int)
    requires g.at.Keys == g.closed
    ensures var r := CloseGates(g, ids, now);
      && r.armed == g.armed
      && r.closed == g.closed + Elements(ids)
      && r.at.Keys == r.closed
      && forall v :: v in r.at ==> r.at[v] == (if v in g.at then g.at[v] else now)
    decreases |ids|
  {
    if ids != [] {
      var g' := if ids[0] in g.closed then g
                else g.(closed := g.closed + {ids[0]}, at := g.at[ids[0] := now]);
      CloseGatesSpec(g', ids[1..], now);
      assert Elements(ids) == {ids[0]} + Elements(ids[1..]);
    }
  }

  lemma DeadlineSpec(at: map<Model, int>, drain: int, ids: seq<Model>, now: int)
    ensures var d := DrainDeadline(at, drain, ids, now);
      && d <= now + drain
      && (forall v :: v in ids && v in at ==> d <= at[v] + drain)
      && (d == now + drain || exists v :: v in ids && v in at && d == at[v] + drain)
    decreases |ids|
  {
    if ids != [] {
      DeadlineSpec(at, drain, ids[1..], now);
    }
  }

  /** What the recovery invariant reads. */
  lemma RecFrame(s: Sched, h: Host, r: Sched)
    requires RecInv(s, h)
    requires r.queued == s.queued && r.phase == s.phase && r.session == s.session && r.book == s.book
    requires r.unloadFail == s.unloadFail && r.swap == s.swap
    requires r.out.probes == s.out.probes && r.out.begun == s.out.begun
    requires r.out.noted == s.out.noted && r.out.admitted == s.out.admitted
    ensures RecInv(r, h)
  {
    hide Suspects, SeenBy;
  }

  /** What the core invariant reads, besides the phase's own part. */
  lemma CoreFrame(s: Sched, h0: Host, h1: Host, r: Sched)
    requires CoreInv(s, h0) && LifeInv(r) && LateInv(r)
    requires h1.now == h0.now && h1.states.Keys == h0.states.Keys
    requires r.cfg == s.cfg && r.queued == s.queued && r.work == s.work && r.gates == s.gates
    requires r.out.granted == s.out.granted && r.out.admitted == s.out.admitted
    requires r.out.answered == s.out.answered && r.out.cancelled == s.out.cancelled
    requires r.out.served == s.out.served && r.out.reminders == s.out.reminders
    ensures CoreInv(r, h1)
  {
    hide WorkOK, Subseq, Slots;
  }

  /** Gates matter to GateInv only. */
  lemma GatesFrame(s: Sched, h: Host, g: Gates)
    requires Inv(s, h) && GateInv(s.(gates := g), h.now)
    ensures Inv(s.(gates := g), h)
  {
    hide WorkOK, Subseq, Ids, Quiet, GateInv, SessionInv, LiveInv, AskInv, SeenInv, TargetInv;
    RecFrame(s, h, s.(gates := g));
  }

  lemma OpenGatesInv(s: Sched, h: Host, ids: set<Model>)
    requires Inv(s, h)
    ensures Inv(s.(gates := OpenGates(s.gates, ids)), h)
  {
    GatesFrame(s, h, OpenGates(s.gates, ids));
  }

  lemma ReopenInv(s: Sched, h: Host)
    requires Inv(s, h)
    ensures Inv(ReopenUnusedGates(s, h), h)
  {
    OpenGatesInv(s, h, s.gates.closed - NeededGates(s, h));
  }

  lemma CloseGatesInv(s: Sched, h: Host, ids: seq<Model>)
    requires Inv(s, h)
    ensures Inv(s.(gates := CloseGates(s.gates, ids, h.now)), h)
  {
    hide CloseGates, RecInv, WorkInv, QueueInv, TallyInv, LifeInv, LateInv;
    CloseGatesSpec(s.gates, ids, h.now);
    var r := s.(gates := CloseGates(s.gates, ids, h.now));
    if s.gates.armed {
      var i :| 0 <= i < |s.out.reminders| && DueBy(s.gates, s.cfg.drain, h.now, s.out.reminders[i]);
      assert DueBy(r.gates, r.cfg.drain, h.now, r.out.reminders[i]);
    }
    GatesFrame(s, h, r.gates);
  }

  lemma ArmDrainInv(s: Sched, h: Host, ids: seq<Model>)
    requires Inv(s, h) && s.gates.closed <= Elements(ids)
    ensures Inv(ArmDrain(s, h, ids), h)
  {
    var r := ArmDrain(s, h, ids);
    if !s.gates.armed {
      DeadlineSpec(s.gates.at, s.cfg.drain, ids, h.now);
      assert DueBy(r.gates, r.cfg.drain, h.now, r.out.reminders[|r.out.reminders| - 1]);
    }
  }

  // ---------------------------------------------------------------- the head leaves

  lemma PopTally(s: Sched)
    requires TallyInv(s) && s.queued != []
    ensures var rest := Ids(s.queued[1..]);
      && multiset(Ids(s.queued)) == multiset{s.queued[0].id} + multiset(rest)
      && Subseq(s.out.served + rest, s.out.admitted)
      && (s.out.served + [s.queued[0].id]) + rest == s.out.served + Ids(s.queued)
  {
    IdsPop(s.queued);
    var rest := Ids(s.queued[1..]);
    var all := s.out.served + Ids(s.queued);
    assert RemoveAt(all, |s.out.served|) == s.out.served + rest;
    SubseqRemove(all, s.out.admitted, |s.out.served|);
  }

  /** Popping the head keeps what does not concern the answer it gets. */
  lemma PopQueue(s: Sched, h: Host, r: Sched)
    requires QueueInv(s, h) && GateInv(s, h.now) && LifeInv(s) && LateInv(s) && s.queued != []
    requires r == s.(queued := s.queued[1..], work := r.work, out := r.out)
    requires r.out == s.out.(granted := r.out.granted, answered := r.out.answered,
                             outcomes := r.out.outcomes, served := r.out.served)
    requires r.work == s.work || !s.phase.Unloading?
    ensures QueueInv(r, h) && GateInv(r, h.now) && LifeInv(r) && LateInv(r)
  {
    assert forall i :: 0 <= i < |r.queued| ==> r.queued[i] == s.queued[i + 1];
    forall i, j | 0 <= i < j < |r.queued|
      ensures Ids(r.queued)[i] != Ids(r.queued)[j]
    {
      assert Ids(s.queued)[i + 1] != Ids(s.queued)[j + 1];
    }
  }

  lemma FailHeadCore(s: Sched, h: Host, cause: Cause)
    requires CoreInv(s, h) && s.queued != []
    ensures CoreInv(FailHead(s, cause), h)
  {
    hide QueueInv, GateInv, LifeInv, LateInv;
    PopTally(s);
    PopQueue(s, h, FailHead(s, cause));
  }

  lemma PopRec(s: Sched, h: Host, r: Sched)
    requires RecInv(s, h) && QueueInv(s, h) && s.queued != [] && !InSession(s)
    requires r == s.(queued := s.queued[1..], work := r.work, out := r.out)
    requires r.out.probes == s.out.probes && r.out.begun == s.out.begun
    requires r.out.admitted == s.out.admitted && r.out.noted == s.out.noted
    ensures RecInv(r, h)
  {
    hide Suspects, Distinct, Ids;
    assert forall i :: 0 <= i < |r.queued| ==> r.queued[i] == s.queued[i + 1];
    if r.queued != [] { assert r.queued[0].id !in r.book.seen; }
  }

  lemma FailHeadInv(s: Sched, h: Host, cause: Cause)
    requires Inv(s, h) && s.queued != [] && !InSession(s)
    ensures Inv(FailHead(s, cause), h)
  {
    FailHeadCore(s, h, cause);
    PopRec(s, h, FailHead(s, cause));
  }

  lemma GrantWork(s: Sched, h: Host)
    requires WorkInv(s) && s.queued != [] && Slots(s.work, s.queued[0].model) < Limit(s.cfg, s.queued[0].model)
    ensures WorkInv(GrantHead(s, h))
  {
    var r := GrantHead(s, h);
    var m := s.queued[0].model;
    forall k
      ensures Slots(r.work, k) <= Limit(r.cfg, k) && QuietOK(r.work, k)
      ensures Get(r.work.pending, k) == r.out.granted[k]
    {
      assert Slots(s.work, k) <= Limit(s.cfg, k) && QuietOK(s.work, k);
      if k == m {
        assert s.queued[0].id in h.gone || Get(r.work.quietGen, k) == 0;
      }
    }
  }

  lemma GrantHeadInv(s: Sched, h: Host)
    requires Inv(s, h) && s.queued != [] && s.phase.Idle?
    requires Slots(s.work, s.queued[0].model) < Limit(s.cfg, s.queued[0].model)
    ensures Inv(GrantHead(s, h), h)
  {
    GrantCore(s, h);
    PopRec(s, h, GrantHead(s, h));
  }

  lemma GrantTally(s: Sched, h: Host)
    requires TallyInv(s) && s.queued != []
    ensures TallyInv(GrantHead(s, h))
  {
    PopTally(s);
  }

  lemma GrantCore(s: Sched, h: Host)
    requires CoreInv(s, h) && s.queued != [] && s.phase.Idle?
    requires Slots(s.work, s.queued[0].model) < Limit(s.cfg, s.queued[0].model)
    ensures CoreInv(GrantHead(s, h), h)
  {
    hide WorkInv, TallyInv, QueueInv, GateInv, LifeInv, LateInv;
    GrantWork(s, h);
    GrantTally(s, h);
    PopQueue(s, h, GrantHead(s, h));
  }

  // ---------------------------------------------------------------- loads and unloads

  lemma StartLoadInv(s: Sched, h: Host, m: Model)
    requires Inv(s, h) && s.phase.Idle? && m !in h.markers && m !in s.book.started
    requires s.queued != [] && m == s.queued[0].model
    ensures Inv(StartLoad(s, m), h)
  {
    hide Slots, QuietOK, Subseq, Suspects;
  }

  lemma StartUnloadInv(s: Sched, h: Host, target: Model, ids: seq<Model>)
    requires Inv(s, h) && s.phase.Idle? && s.queued != [] && target == s.queued[0].model
    requires |ids| == 1 && ids[0] in h.states && ids[0] !in h.markers && ids[0] !in s.book.started
    requires !AnyBusy(s.work, ids)
    ensures Inv(StartUnload(s, h, target, ids), h)
  {
    hide CoreInv, RecInv;
    StartUnloadCore(s, h, target, ids);
    StartUnloadRec(s, h, target, ids);
  }

  lemma StartUnloadCore(s: Sched, h: Host, target: Model, ids: seq<Model>)
    requires CoreInv(s, h) && s.phase.Idle? && |ids| == 1 && !AnyBusy(s.work, ids)
    ensures CoreInv(StartUnload(s, h, target, ids), h)
  {
    hide QuietOK, Subseq, Ids, Limit, DrainDeadline, Distinct;
    assert !Busy(s.work, ids[0]);
  }

  lemma StartUnloadRec(s: Sched, h: Host, target: Model, ids: seq<Model>)
    requires RecInv(s, h) && s.phase.Idle? && s.queued != [] && target == s.queued[0].model
    requires |ids| == 1 && ids[0] in h.states && ids[0] !in h.markers && ids[0] !in s.book.started
    ensures RecInv(StartUnload(s, h, target, ids), h)
  {
    hide Suspects, DrainDeadline;
  }

  // ---------------------------------------------------------------- sessions

  lemma SuspectsAndOrder(s: Sched, h: Host, head: Req)
    ensures forall m :: m in Unseen(s, h, head) <==>
              m in Suspects(h, s.unloadFail) && m !in SeenBy(s.book, head.id)
  {
    var order := StatusOrder(h, s.unloadFail, head.model);
    assert forall m :: m in Unseen(s, h, head) <==> m in Elements(Unseen(s, h, head));
    assert forall m :: m in order <==> m in Elements(order);
  }

  /** A live probe is one the next head still has to ask about, so the next session joins it. */
  lemma LiveIsUnseen(s: Sched, h: Host)
    requires LiveInv(s, h) && SeenInv(s) && s.phase.Idle? && s.queued != [] && s.out.probes != []
    ensures FirstLive(Unseen(s, h, s.queued[0]), s.book.started) == Some(s.out.probes[0].model)
  {
    hide Unseen, Suspects, SeenBy;
    LiveIsAsked(s, h);
    assert forall m :: m in Unseen(s, h, s.queued[0]) && m in s.book.started ==> m == s.out.probes[0].model;
  }

  lemma LiveIsAsked(s: Sched, h: Host)
    requires LiveInv(s, h) && SeenInv(s) && s.phase.Idle? && s.queued != [] && s.out.probes != []
    ensures s.out.probes[0].model in Unseen(s, h, s.queued[0])
  {
    SuspectsAndOrder(s, h, s.queued[0]);
    hide Unseen;
  }

  lemma OpenSessionAsk(s: Sched, h: Host)
    requires RecInv(s, h) && HostOK(h) && s.phase.Idle? && s.queued != []
    ensures Marked(h) == h.markers
    ensures AskInv(BeginSession(s, h), h)
  {
    hide LiveInv, SeenInv, SessionInv, TargetInv;
    SuspectsAndOrder(s, h, s.queued[0]);
  }

  lemma SessionCore(s: Sched, h: Host)
    requires CoreInv(s, h) && s.phase.Idle? && s.queued != []
    ensures CoreInv(BeginSession(s, h), h)
  {
    hide Unseen, FirstLive, Marked, QueueInv, WorkInv, TallyInv, GateInv;
    CoreFrame(s, h, h, BeginSession(s, h));
  }

  lemma JoinRec(s: Sched, h: Host)
    requires RecInv(s, h) && HostOK(h) && s.phase.Idle? && s.queued != [] && s.out.probes != []
    ensures RecInv(BeginSession(s, h), h)
  {
    OpenSessionAsk(s, h);
    LiveIsUnseen(s, h);
    hide AskInv, Unseen, Suspects;
  }

  lemma JoinInv(s: Sched, h: Host)
    requires Inv(s, h) && HostOK(h) && s.phase.Idle? && s.queued != [] && s.out.probes != []
    ensures Inv(BeginSession(s, h), h)
  {
    hide CoreInv, RecInv, BeginSession;
    SessionCore(s, h);
    JoinRec(s, h);
  }

  lemma FreshSessionLive(s: Sched, h: Host)
    requires LiveInv(s, h) && WorkInv(s) && HostOK(h) && s.phase.Idle? && s.queued != [] && s.out.probes == []
    ensures LiveInv(BeginSession(s, h), h)
  {
    hide SeenBy, StatusOrder, Slots;
    SuspectsAndOrder(s, h, s.queued[0]);
    var order := Unseen(s, h, s.queued[0]);
    if order != [] {
      assert order[0] in Suspects(h, s.unloadFail) && QuietOK(s.work, order[0]);
    }
  }

  lemma FreshSessionOpen(s: Sched, h: Host)
    requires SessionInv(s, h) && TargetInv(s, h) && s.phase.Idle? && s.queued != [] && s.book.started == map[]
    requires MustRecover(s, h, s.queued[0]) && Marked(h) == h.markers
    ensures SessionInv(BeginSession(s, h), h) && TargetInv(BeginSession(s, h), h)
  {
    hide SeenBy, StatusOrder, Marked, FirstLive;
    SuspectsAndOrder(s, h, s.queued[0]);
    assert FirstLive(Unseen(s, h, s.queued[0]), s.book.started).None?;
    var order := Unseen(s, h, s.queued[0]);
    if order != [] { assert order[0] in order; }
  }

  lemma FreshSessionRec(s: Sched, h: Host)
    requires RecInv(s, h) && QueueInv(s, h) && WorkInv(s)
    requires HostOK(h) && s.phase.Idle? && s.queued != [] && s.out.probes == []
    requires MustRecover(s, h, s.queued[0])
    ensures RecInv(BeginSession(s, h), h)
  {
    assert s.book.started == map[];
    hide SeenInv, LiveInv, AskInv, SessionInv, TargetInv, BeginSession, MustRecover, WorkInv, HostOK, QueueInv, Marked;
    OpenSessionAsk(s, h);
    FreshSessionSeen(s, h);
    FreshSessionLive(s, h);
    FreshSessionOpen(s, h);
  }

  lemma MarkSeenSpec(b: Book, id: nat, m: Model)
    ensures var r := MarkSeen(b, id, m);
      && (forall o :: o in r.seen ==> o in b.seen || o == id)
      && (forall o :: SeenBy(b, o) <= SeenBy(r, o))
      && (forall o :: o in b.seen ==> o in r.seen)
      && (forall o :: o != id ==> SeenBy(r, o) == SeenBy(b, o))
      && (id != 0 ==> SeenBy(r, id) == SeenBy(b, id) + {m})
  {
  }

  lemma StartedSeen(b: Book, started: map<Model, nat>)
    ensures forall k :: SeenBy(b.(started := started), k) == SeenBy(b, k)
  {
  }

  /** Asking on behalf of the head about a model it has not asked about. */
  lemma BeginProbeSeen(s: Sched, h: Host, pos: nat)
    requires s.phase.Recover? && s.queued != [] && s.session.owner == s.queued[0].id != 0
    requires s.queued[0].id in s.out.admitted
    requires forall i :: 0 < i < |s.queued| ==> s.queued[i].id != s.queued[0].id
    requires pos < |s.session.order| && s.out.probes == []
    requires s.session.order[pos] !in SeenBy(s.book, s.session.owner)
    requires SeenInv(s) && s.session.current.None?
    ensures SeenInv(BeginProbeAt(s, h, pos))
  {
    hide MarkSeen, SeenBy, Slots;
    var r := BeginProbeAt(s, h, pos);
    var o, m := s.session.owner, s.session.order[pos];
    MarkSeenSpec(s.book, o, m);
    StartedSeen(MarkSeen(s.book, o, m), r.book.started);
    assert s.out.begun[(o, m)] == 0;
  }

  lemma SeenFrame(s: Sched, r: Sched)
    requires SeenInv(s) && !s.phase.Recover?
    requires r.queued == s.queued && r.book.seen == s.book.seen && r.out == s.out
    requires r.phase.Recover? || r.out.probes == []
    ensures SeenInv(r)
  {
    assert forall o :: SeenBy(r.book, o) == SeenBy(s.book, o);
    hide SeenBy;
  }

  lemma FreshSessionSeen(s: Sched, h: Host)
    requires SeenInv(s) && QueueInv(s, h) && s.phase.Idle? && s.queued != [] && s.out.probes == []
    requires s.book.started == map[]
    ensures SeenInv(BeginSession(s, h))
  {
    var s1 := FreshSession(s, h);
    SeenFrame(s, s1);
    SeenFrame(s, SetPhase(s1, Sample));
    SuspectsAndOrder(s, h, s.queued[0]);
    forall i | 0 < i < |s.queued|
      ensures s.queued[i].id != s.queued[0].id
    {
      assert Ids(s.queued)[i] != Ids(s.queued)[0];
    }
    hide SeenInv, StatusOrder, Suspects, Unseen, Without, MarkSeen;
    if Unseen(s, h, s.queued[0]) != [] {
      BeginProbeSeen(s1, h, 0);
    }
  }

  lemma FreshSessionInv(s: Sched, h: Host)
    requires Inv(s, h) && HostOK(h) && s.phase.Idle? && s.queued != [] && s.out.probes == []
    requires MustRecover(s, h, s.queued[0])
    ensures Inv(BeginSession(s, h), h)
  {
    SessionCore(s, h);
    FreshSessionRec(s, h);
  }

  lemma BeginSessionInv(s: Sched, h: Host)
    requires Inv(s, h) && HostOK(h) && s.phase.Idle? && s.queued != []
    requires MustRecover(s, h, s.queued[0])
    ensures Inv(BeginSession(s, h), h)
  {
    if s.out.probes == [] { FreshSessionInv(s, h); } else { JoinInv(s, h); }
  }

  // ---------------------------------------------------------------- a turn

  /** A head that is not ready and needs no recovery is not being asked about and not marked. */
  lemma ClearHead(s: Sched, h: Host)
    requires Inv(s, h) && HostOK(h) && s.phase.Idle? && s.queued != [] && !MustRecover(s, h, s.queued[0])
    requires !StateOf(h, s.queued[0].model).Ready?
    ensures s.queued[0].model !in h.markers && s.queued[0].model !in s.book.started
  {
    assert Marked(h) == h.markers;
    if s.out.probes != [] { LiveIsUnseen(s, h); }
  }

  lemma EvictTurnInv(s: Sched, h: Host, ids: seq<Model>)
    requires Inv(s, h) && HostOK(h) && s.phase.Idle? && s.queued != []
    requires |ids| == 1 && ids[0] in h.states && h.states[ids[0]].Ready? && s.gates.closed <= Elements(ids)
    ensures Inv(EvictTurn(s, h, ids).s, h)
  {
    if DrainExpired(s.gates.at, s.cfg.drain, ids, h.now) {
      var g := OpenGates(s.gates, Elements(ids)).(armed := false);
      GatesFrame(s, h, g);
      FailHeadInv(s.(gates := g), h, DrainTimeout);
    } else if AnyBusy(s.work, ids) {
      ArmDrainInv(s, h, ids);
    } else if AnyFailed(s.unloadFail, ids) {
      FailHeadInv(s, h, UnloadBlocked);
    } else {
      assert ids[0] !in s.unloadFail;
      StartUnloadInv(s, h, s.queued[0].model, ids);
    }
  }

  lemma GateKeys(s: Sched, h: Host)
    requires Inv(s, h)
    ensures s.gates.at.Keys == s.gates.closed
  {
    hide RecInv, WorkInv, QueueInv, TallyInv, LifeInv, LateInv, DueBy;
  }

  lemma VictimsAreReady(h: Host, m: Model)
    requires HostOK(h)
    ensures var v := EvictionFor(h, m); v != [] ==> |v| == 1 && v[0] in h.states && h.states[v[0]].Ready?
  {
  }

  lemma HeadTurnInv(s: Sched, h: Host)
    requires Inv(s, h) && HostOK(h) && s.phase.Idle? && s.queued != [] && !MustRecover(s, h, s.queued[0])
    requires s.gates.closed <= Elements(EvictionFor(h, s.queued[0].model))
    ensures Inv(HeadTurn(s, h).s, h)
  {
    hide Inv, HostOK;
    var m := s.queued[0].model;
    GateKeys(s, h);
    VictimsAreReady(h, m);
    var ids := EvictionFor(h, m);
    if AnyFailed(s.unloadFail, ids) {
      FailHeadInv(s, h, UnloadBlocked);
    } else if Slots(s.work, m) < Limit(s.cfg, m) {
      match DecideOf(h, m)
      case Refuse(cause) => FailHeadInv(s, h, cause);
      case Evict(_) =>
        CloseGatesSpec(s.gates, ids, h.now);
        CloseGatesInv(s, h, ids);
        if ids != [] {
          EvictTurnInv(s.(gates := CloseGates(s.gates, ids, h.now)), h, ids);
        } else if StateOf(h, m).Ready? {
          GrantHeadInv(s, h);
        } else {
          ClearHead(s, h);
          StartLoadInv(s, h, m);
        }
    }
  }

  lemma TurnInv(s: Sched, h: Host)
    requires HostOK(h) && Inv(s, h)
    ensures Inv(TakeTurn(s, h).s, h)
  {
    hide Inv;
    if !InSession(s) {
      if s.phase.Idle? && s.queued != [] && MustRecover(s, h, s.queued[0]) {
        BeginSessionInv(s, h);
      } else {
        ReopenInv(s, h);
        var s1 := ReopenUnusedGates(s, h);
        if s1.queued != [] && s1.phase.Idle? {
          HeadTurnInv(s1, h);
        }
      }
    }
  }
}
