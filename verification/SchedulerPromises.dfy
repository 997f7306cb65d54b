/** What tryDispatch promises about the actions it takes, and about the head it leaves waiting. */
module SchedulerPromises {
  import opened Types
  import opened Scheduler
  import opened SchedulerLaws
  import opened SchedulerTurns

  // ---------------------------------------------------------------- recovery sessions

  /** The models in doubt are asked about once each, the target first and the others by id. */
  lemma AsksTargetFirst(h: Host, unloadFail: set<Model>, target: Model)
    ensures var order := StatusOrder(h, unloadFail, target);
      && (target in Suspects(h, unloadFail) ==> order != [] && order[0] == target)
      && (forall i, j :: 0 <= i < j < |order| ==> order[j] != target && (order[i] == target || order[i] < order[j]))
  {
    var want := Suspects(h, unloadFail);
    var rest := Sorted(want - {target});
    assert forall i :: 0 <= i < |rest| ==> rest[i] in Elements(rest);
    hide Sorted, Suspects;
  }

  /** A session whose owner leaves hands its token on: while nothing is started its result is still wanted. */
  lemma DroppedTokenIsWanted(s: Sched, h: Host)
    requires SessionInv(s, h) && InSession(s)
    ensures var r := DropOwner(s, s.session.owner);
      && r.phase.Idle? && r.session.owner == 0
      && RecoverMode(r, s.session.token).Late?
      && r.out.droppedAt[s.session.token] == r.out.actions
  {
  }

  // ---------------------------------------------------------------- service and shutdown

  /** Why the head of the queue may be sent away. */
  ghost predicate Justified(s: Sched, h: Host, head: Req, o: Outcome) {
    var victims := EvictionFor(h, head.model);
    match o
    case Served => StateOf(h, head.model).Ready? && Slots(s.work, head.model) < Limit(s.cfg, head.model)
      && head.id !in h.gone
    case Gone => head.id in h.gone
    case Errored(cause) =>
      || (cause == DrainTimeout
          && exists v :: v in victims && v in s.gates.at && h.now >= s.gates.at[v] + s.cfg.drain)
      || (cause == UnloadBlocked && exists v :: v in victims && v in s.unloadFail)
      || DecideOf(h, head.model) == Refuse(cause)
  }

  /** The head is answered once, for a reason that held in s, and has service only if it is not refused. */
  ghost predicate AnsweredFrom(s: Sched, h: Host, r: Sched)
    requires s.queued != []
  {
    var id := s.queued[0].id;
    && r.queued == s.queued[1..] && r.out.answered == s.out.answered + multiset{id}
    && id in r.out.outcomes && Justified(s, h, s.queued[0], r.out.outcomes[id])
    && r.out.served == (if r.out.outcomes[id].Errored? then s.out.served else s.out.served + [id])
    && r.out.granted ==
       (if r.out.outcomes[id].Served? then s.out.granted + multiset{s.queued[0].model} else s.out.granted)
  }

  /** Nobody is answered or served. */
  ghost predicate NobodyAnswered(s: Sched, r: Sched) {
    r.queued == s.queued && r.out.answered == s.out.answered && r.out.served == s.out.served
    && r.out.granted == s.out.granted
  }

  lemma EvictIsJustified(s: Sched, h: Host, ids: seq<Model>)
    requires s.gates.at.Keys == s.gates.closed && s.cfg.drain > 0 && s.queued != []
    requires ids == EvictionFor(h, s.queued[0].model)
    ensures var t := EvictTurn(s.(gates := CloseGates(s.gates, ids, h.now)), h, ids);
      if t.Again? then AnsweredFrom(s, h, t.s) else NobodyAnswered(s, t.s)
  {
    hide DrainDeadline, AnyBusy, Slots, OpenGates, CloseGates, EvictionFor, DecideOf;
    CloseGatesSpec(s.gates, ids, h.now);
  }

  lemma RefusalIsJustified(s: Sched, h: Host, cause: Cause)
    requires s.queued != [] && Justified(s, h, s.queued[0], Errored(cause))
    ensures AnsweredFrom(s, h, FailHead(s, cause))
  {
    hide Justified;
  }

  lemma GrantIsJustified(s: Sched, h: Host)
    requires s.queued != [] && StateOf(h, s.queued[0].model).Ready?
    requires Slots(s.work, s.queued[0].model) < Limit(s.cfg, s.queued[0].model)
    ensures AnsweredFrom(s, h, GrantHead(s, h))
  {
    hide Slots, StateOf, Limit;
  }

  lemma LoadAnswersNobody(s: Sched, m: Model)
    ensures NobodyAnswered(s, StartLoad(s, m))
  {
  }

  lemma HeadIsJustified(s: Sched, h: Host)
    requires s.gates.at.Keys == s.gates.closed && s.cfg.drain > 0 && s.phase.Idle? && s.queued != []
    ensures var t := HeadTurn(s, h); if t.Again? then AnsweredFrom(s, h, t.s) else NobodyAnswered(s, t.s)
  {
    hide EvictTurn, Slots, CloseGates, GrantHead, StartLoad, AnsweredFrom, FailHead, StateOf;
    var m := s.queued[0].model;
    EvictIsJustified(s, h, EvictionFor(h, m));
    if AnyFailed(s.unloadFail, EvictionFor(h, m)) { RefusalIsJustified(s, h, UnloadBlocked); }
    if DecideOf(h, m).Refuse? { RefusalIsJustified(s, h, DecideOf(h, m).cause); }
    if StateOf(h, m).Ready? && Slots(s.work, m) < Limit(s.cfg, m) { GrantIsJustified(s, h); }
    LoadAnswersNobody(s, m);
  }

  lemma SessionAnswersNobody(s: Sched, h: Host)
    requires s.queued != []
    ensures NobodyAnswered(s, BeginSession(s, h))
  {
    hide Unseen;
  }

  /**
   A pass that sends the head away answers it once, and for a reason: it is served because
   its model is ready with a slot; refused with DrainTimeout because a victim's gate had
   been closed for the whole drain time, with UnloadBlocked because a victim resisted an
   unload, or else with the planner's own cause. Any other pass answers and serves nobody.
   */
  lemma AnswersAreJustified(s: Sched, h: Host)
    requires GateInv(s, h.now) && LifeInv(s)
    ensures var t := TakeTurn(s, h);
      if t.Again? then s.queued != [] && s.phase.Idle? && AnsweredFrom(s, h, t.s) else NobodyAnswered(s, t.s)
  {
    hide HeadTurn, MustRecover, NeededGates, Quiet, DueBy, EvictionFor, DecideOf, Slots, BeginSession;
    if s.phase.Idle? && s.queued != [] {
      SessionAnswersNobody(s, h);
      HeadIsJustified(ReopenUnusedGates(s, h), h);
    }
  }

  lemma {:induction false} FailAllAnswers(out: Outbox, q: seq<Req>, cause: Cause)
    ensures FailAll(out, q, cause).answered == out.answered + multiset(Ids(q))
    ensures FailAll(out, q, cause) ==
              out.(answered := FailAll(out, q, cause).answered, outcomes := FailAll(out, q, cause).outcomes)
    decreases |q|
  {
    if q == [] {
      assert Ids(q) == [];
    } else {
      IdsPop(q);
      FailAllAnswers(Answer(out, q[0].id, Errored(cause)), q[1..], cause);
    }
  }

  /** Whoever has the error keeps it, and everyone in the queue gets it. */
  lemma {:induction false} FailAllErrors(out: Outbox, q: seq<Req>, cause: Cause, id: nat)
    requires (id in out.outcomes && out.outcomes[id] == Errored(cause)) || exists i :: 0 <= i < |q| && q[i].id == id
    ensures var r := FailAll(out, q, cause).outcomes; id in r && r[id] == Errored(cause)
    decreases |q|
  {
    if q != [] {
      if q[0].id != id && exists i :: 0 <= i < |q| && q[i].id == id {
        var i :| 0 <= i < |q| && q[i].id == id;
        assert q[1..][i - 1].id == id;
      }
      FailAllErrors(Answer(out, q[0].id, Errored(cause)), q[1..], cause, id);
    }
  }

  /** Shutdown leaves nobody waiting: everyone admitted has been answered or went away,
      and those queued got its error. */
  lemma ShutdownAnswersEveryone(s: Sched, cause: Cause)
    requires TallyInv(s)
    ensures var r := OnShutdown(s, cause);
      && r.queued == []
      && r.out.answered + r.out.cancelled == multiset(r.out.admitted)
      && (forall i :: 0 <= i < |s.queued| ==>
            s.queued[i].id in r.out.outcomes && r.out.outcomes[s.queued[i].id] == Errored(cause))
  {
    hide Subseq;
    FailAllAnswers(s.out, s.queued, cause);
    forall i | 0 <= i < |s.queued|
      ensures s.queued[i].id in OnShutdown(s, cause).out.outcomes
              && OnShutdown(s, cause).out.outcomes[s.queued[i].id] == Errored(cause)
    {
      FailAllErrors(s.out, s.queued, cause, s.queued[i].id);
    }
  }
}
