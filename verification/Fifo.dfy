/**
 The scheduler in its own form: an object whose handlers update its fields in place
 (internal/router/scheduler/fifo.go and recover.go), each proved against the functions of
 the Scheduler module. The mutual recursion of tryDispatch, maybeRecover, launchProbe,
 finishProbes, failOwner and failDrain is kept, with the measure that ends it.
 */
module Fifo {
  import opened Types
  import opened Scheduler

  /** The loop reads its list from the left; the deadline is the least of all ends either way. */
  lemma {:induction false} DeadlineTakesLast(at: map<Model, int>, drain: int, ids: seq<Model>, m: Model, now: int)
    ensures DrainDeadline(at, drain, ids + [m], now)
         == (if m in at then Earlier(at[m] + drain, DrainDeadline(at, drain, ids, now))
             else DrainDeadline(at, drain, ids, now))
    decreases |ids|
  {
    if ids == [] {
      assert ([m])[1..] == [];
    } else {
      DeadlineTakesLast(at, drain, ids[1..], m, now);
      assert (ids + [m])[1..] == ids[1..] + [m];
    }
  }

  lemma {:induction false} CloseTakesLast(g: Gates, ids: seq<Model>, m: Model, now: int)
    ensures var r := CloseGates(g, ids, now);
      CloseGates(g, ids + [m], now)
      == if m in r.closed then r else r.(closed := r.closed + {m}, at := r.at[m := now])
    decreases |ids|
  {
    if ids == [] {
      assert ([m])[1..] == [];
    } else {
      var g' := if ids[0] in g.closed then g
                else g.(closed := g.closed + {ids[0]}, at := g.at[ids[0] := now]);
      CloseTakesLast(g', ids[1..], m, now);
      assert (ids + [m])[1..] == ids[1..] + [m];
    }
  }

  lemma {:induction false} WithoutTakesLast(ids: seq<Model>, m: Model, drop: set<Model>)
    ensures Without(ids + [m], drop) == if m in drop then Without(ids, drop) else Without(ids, drop) + [m]
    decreases |ids|
  {
    if ids == [] {
      assert ([m])[1..] == [] && ids + [m] == [m];
    } else {
      WithoutTakesLast(ids[1..], m, drop);
      assert (ids + [m])[1..] == ids[1..] + [m];
    }
  }

  lemma WithoutNext(ids: seq<Model>, i: nat, drop: set<Model>)
    requires i < |ids|
    ensures Without(ids[..i + 1], drop)
         == if ids[i] in drop then Without(ids[..i], drop) else Without(ids[..i], drop) + [ids[i]]
  {
    hide Without;
    WithoutTakesLast(ids[..i], ids[i], drop);
    assert ids[..i + 1] == ids[..i] + [ids[i]];
  }

  lemma WithoutEmpty(drop: set<Model>)
    ensures Without([], drop) == []
  {
  }

  predicate Dubious(h: Host, unloadFail: set<Model>, m: Model) {
    m in h.states && !(m in h.inFlight && h.states[m].Starting?)
    && (h.states[m].Failed? || h.states[m].Unknown? || m in unloadFail)
  }

  /** The two ways in which a session begins. */
  lemma BeginsJoined(s: Sched, h: Host, order: seq<Model>, m: Model)
    requires s.queued != [] && order == Unseen(s, h, s.queued[0]) && FirstLive(order, s.book.started) == Some(m)
    ensures BeginSession(s, h) == OpenSession(s, h, s.book.started[m], Some(m))
  {
    hide Unseen, OpenSession;
  }

  lemma BeginsFresh(s: Sched, h: Host, order: seq<Model>)
    requires s.queued != [] && order == Unseen(s, h, s.queued[0]) && FirstLive(order, s.book.started).None?
    ensures FreshSession(s, h).session.order == order && FreshSession(s, h).session.pos == 0
    ensures BeginSession(s, h)
         == if order == [] then SetPhase(FreshSession(s, h), Sample) else BeginProbeAt(FreshSession(s, h), h, 0)
  {
    hide Unseen, BeginProbeAt;
  }

  /** Asking sets the position, wherever it was. */
  lemma AskingMovesThere(s: Sched, h: Host, q: nat, p: nat)
    requires p < |s.session.order|
    ensures BeginProbeAt(s.(session := s.session.(pos := q)), h, p) == BeginProbeAt(s, h, p)
  {
  }

  class FIFO {
    const cfg: Config

    var nextID: nat
    var queued: seq<Req>

    var work: Work
    var gates: Gates
    var unloadFail: set<Model>

    var phase: Phase
    var swap: Swap

    var session: Session
    var book: Book

    /** What it has asked of its Effects. */
    ghost var out: Outbox

    ghost function View(): Sched
      reads this
    {
      Sched(cfg, nextID, queued, work, gates, unloadFail, phase, swap, session, book, out)
    }

    // -------------------------------------------------------------- queries

    function SlotsOf(m: Model): (n: nat)
      reads this
      ensures n == Slots(work, m)
    {
      Get(work.pending, m) + Get(work.httpIn, m) + Get(work.unresolved, m)
    }

    method AnyBusyNow(ids: seq<Model>) returns (r: bool)
      ensures r == AnyBusy(work, ids)
    {
      for i := 0 to |ids|
        invariant forall k :: 0 <= k < i ==> !Busy(work, ids[k])
      {
        if Get(work.pending, ids[i]) + Get(work.httpIn, ids[i]) + Get(work.unresolved, ids[i])
           + Get(work.backend, ids[i]) > 0 {
          return true;
        }
      }
      return false;
    }

    method AnyFailedNow(ids: seq<Model>) returns (r: bool)
      ensures r == AnyFailed(unloadFail, ids)
    {
      for i := 0 to |ids|
        invariant forall k :: 0 <= k < i ==> ids[k] !in unloadFail
      {
        if ids[i] in unloadFail {
          return true;
        }
      }
      return false;
    }

    method Deadline(ids: seq<Model>, now: int) returns (deadline: int)
      ensures deadline == DrainDeadline(gates.at, cfg.drain, ids, now)
    {
      deadline := now + cfg.drain;
      for i := 0 to |ids|
        invariant deadline == DrainDeadline(gates.at, cfg.drain, ids[..i], now)
      {
        DeadlineTakesLast(gates.at, cfg.drain, ids[..i], ids[i], now);
        assert ids[..i + 1] == ids[..i] + [ids[i]];
        if ids[i] in gates.at {
          var end := gates.at[ids[i]] + cfg.drain;
          if end < deadline {
            deadline := end;
          }
        }
      }
      assert ids[..|ids|] == ids;
    }

    method Expired(ids: seq<Model>, now: int) returns (r: bool)
      ensures r == DrainExpired(gates.at, cfg.drain, ids, now)
    {
      if cfg.drain <= 0 {
        return false;
      }
      for i := 0 to |ids|
        invariant forall k :: 0 <= k < i ==> !(ids[k] in gates.at && now >= gates.at[ids[k]] + cfg.drain)
      {
        if ids[i] in gates.at && now >= gates.at[ids[i]] + cfg.drain {
          return true;
        }
      }
      return false;
    }

    // -------------------------------------------------------------- gates

    method CloseGate(m: Model, now: int)
      modifies this`gates
      ensures gates == if m in old(gates.closed) then old(gates)
                       else old(gates).(closed := old(gates.closed) + {m}, at := old(gates.at)[m := now])
    {
      if m !in gates.closed {
        gates := gates.(at := gates.at[m := now]);
      }
      assert m in gates.closed ==> gates.closed + {m} == gates.closed;
      gates := gates.(closed := gates.closed + {m});
    }

    method CloseAll(ids: seq<Model>, now: int)
      modifies this`gates
      ensures gates == CloseGates(old(gates), ids, now)
    {
      ghost var g := gates;
      for i := 0 to |ids|
        invariant gates == CloseGates(g, ids[..i], now)
      {
        CloseTakesLast(g, ids[..i], ids[i], now);
        assert ids[..i + 1] == ids[..i] + [ids[i]];
        CloseGate(ids[i], now);
      }
      assert ids[..|ids|] == ids;
    }

    method OpenGate(m: Model)
      modifies this`gates
      ensures gates == OpenGates(old(gates), {m})
    {
      gates := gates.(closed := gates.closed - {m});
      gates := gates.(at := gates.at - {m});
    }

    method OpenAll(ids: seq<Model>)
      modifies this`gates
      ensures gates == OpenGates(old(gates), Elements(ids))
    {
      for i := 0 to |ids|
        invariant gates == OpenGates(old(gates), Elements(ids[..i]))
      {
        assert Elements(ids[..i + 1]) == Elements(ids[..i]) + {ids[i]};
        OpenGate(ids[i]);
        assert gates.at == old(gates.at) - Elements(ids[..i + 1]);
      }
      assert ids[..|ids|] == ids;
    }

    /** Go ranges over the closed gates in any order. */
    method ReopenUnused(h: Host)
      modifies this`gates
      ensures View() == ReopenUnusedGates(old(View()), h)
    {
      ghost var s := View();
      var need: set<Model> := {};
      if queued != [] && phase.Idle? {
        need := Elements(EvictionFor(h, queued[0].model));
      }
      if !phase.Idle? && swap.began {
        need := need + Elements(swap.evict);
      }
      assert need == NeededGates(s, h);
      var left := gates.closed;
      while left != {}
        invariant left <= gates.closed <= s.gates.closed
        invariant forall m :: m in s.gates.closed && m !in left ==>
                    (m in gates.closed <==> m in need || (swap.began && !phase.Idle?))
        invariant gates.at == s.gates.at - (s.gates.closed - gates.closed) && gates.armed == s.gates.armed
        decreases left
      {
        var m :| m in left;
        left := left - {m};
        if m !in need && !(swap.began && !phase.Idle?) {
          OpenGate(m);
          assert gates.at == s.gates.at - (s.gates.closed - gates.closed);
        }
      }
      if !(swap.began && !phase.Idle?) {
        assert gates.closed == s.gates.closed - (s.gates.closed - need);
        assert s.gates.closed - gates.closed == s.gates.closed - need;
      } else {
        assert gates.closed == s.gates.closed;
        assert gates.at == s.gates.at - {};
      }
    }

    // -------------------------------------------------------------- planning a recovery

    static method FilterSeen(known: set<Model>, ids: seq<Model>) returns (r: seq<Model>)
      ensures r == Without(ids, known)
    {
      hide Without, Elements;
      if known == {} {
        WithoutNothing(ids);
        return ids;
      }
      r := [];
      WithoutEmpty(known);
      for i := 0 to |ids|
        invariant r == Without(ids[..i], known)
      {
        WithoutNext(ids, i, known);
        if ids[i] !in known {
          r := r + [ids[i]];
        }
      }
      assert ids[..|ids|] == ids;
    }

    /** The models whose state is in doubt. */
    method DoubtfulOf(h: Host, ids: seq<Model>) returns (want: set<Model>)
      requires forall m :: m in ids ==> m in h.states
      ensures forall m :: m in want <==> m in ids && Dubious(h, unloadFail, m)
    {
      want := {};
      for i := 0 to |ids|
        invariant forall m :: m in want <==> m in ids[..i] && Dubious(h, unloadFail, m)
      {
        var st := h.states[ids[i]];
        if ids[i] in h.inFlight && st.Starting? {
          continue;
        }
        if st.Failed? || st.Unknown? || ids[i] in unloadFail {
          want := want + {ids[i]};
        }
      }
    }

    /** The models that wait for a sample are not asked about. */
    static method SetAside(h: Host, ids: seq<Model>, want: set<Model>) returns (rest: set<Model>, samples: set<Model>)
      ensures forall m :: m in samples <==> m in ids && m in h.markers
      ensures rest == want - samples
    {
      rest, samples := want, {};
      for i := 0 to |ids|
        invariant forall m :: m in samples <==> m in ids[..i] && m in h.markers
        invariant rest == want - samples
      {
        if ids[i] in h.markers {
          samples := samples + {ids[i]};
          rest := rest - {ids[i]};
        }
      }
    }

    /** The models to ask about, the target first, and the models that wait for a sample. */
    method PlanRecovery(target: Model, h: Host) returns (status: seq<Model>, samples: set<Model>)
      ensures status == StatusOrder(h, unloadFail, target) && samples == Marked(h)
    {
      var ids := Sorted(h.states.Keys);
      assert forall m :: m in ids <==> m in Elements(ids);
      var want := DoubtfulOf(h, ids);
      want, samples := SetAside(h, ids, want);
      assert want == Suspects(h, unloadFail);
      status := [];
      if target in want {
        status := [target];
        want := want - {target};
      }
      status := status + Sorted(want);
      assert Suspects(h, unloadFail) - {target} == want;
    }

    method MarkSeenAs(id: nat, m: Model)
      modifies this`book
      ensures book == MarkSeen(old(book), id, m)
    {
      if id == 0 {
        return;
      }
      if id !in book.seen {
        book := book.(seen := book.seen[id := {}]);
      }
      book := book.(seen := book.seen[id := book.seen[id] + {m}]);
    }

    // -------------------------------------------------------------- effects

    method EnterPhase(p: Phase)
      modifies this`phase, this`book
      ensures phase == p && book == if p.Idle? then old(book) else old(book).(late := {})
    {
      if !p.Idle? {
        book := book.(late := {});
      }
      phase := p;
    }

    method GrantError(req: Req, cause: Cause)
      modifies this`out
      ensures out == Answer(old(out), req.id, Errored(cause))
    {
      out := Answer(out, req.id, Errored(cause));
    }

    /** False when the caller has gone. */
    method GrantServe(req: Req, h: Host) returns (delivered: bool)
      modifies this`out
      ensures delivered == (req.id !in h.gone)
      ensures var o := Answer(old(out), req.id, if delivered then Served else Gone)
                 .(served := old(out).served + [req.id]);
        out == if delivered then o.(granted := old(out).granted + multiset{req.model}) else o
    {
      delivered := req.id !in h.gone;
      out := Answer(out, req.id, if delivered then Served else Gone).(served := out.served + [req.id]);
      if delivered {
        out := out.(granted := out.granted + multiset{req.model});
      }
    }

    // -------------------------------------------------------------- dispatch

    method FailHeadWith(cause: Cause)
      requires queued != []
      modifies this`queued, this`out
      ensures View() == FailHead(old(View()), cause)
    {
      var head := queued[0];
      queued := queued[1..];
      GrantError(head, cause);
    }

    method TryDispatch(h: Host)
      modifies this
      ensures View() == Scheduler.TryDispatch(old(View()), h)
      decreases |queued|, 2
    {
      if phase.Recover? || phase.Sample? {
        return;
      }
      if phase.Idle? && queued != [] {
        var recovering := MaybeRecover(h, queued[0]);
        if recovering {
          return;
        }
      }
      ReopenUnused(h);
      if queued == [] || !phase.Idle? {
        return;
      }
      DispatchHead(h);
    }

    method DispatchHead(h: Host)
      requires queued != [] && phase.Idle?
      modifies this
      ensures View() == match HeadTurn(old(View()), h) case Halt(r) => r case Again(r) => Scheduler.TryDispatch(r, h)
      decreases |queued|, 1
    {
      hide EvictTurn, AnyFailed, Scheduler.TryDispatch, Slots;
      var head := queued[0];
      var blocked := AnyFailedNow(EvictionFor(h, head.model));
      if blocked {
        FailHeadWith(UnloadBlocked);
        TryDispatch(h);
        return;
      }
      if SlotsOf(head.model) >= Limit(cfg, head.model) {
        return;
      }
      var evict: seq<Model> := [];
      match DecideOf(h, head.model) {
        case Refuse(cause) =>
          FailHeadWith(cause);
          TryDispatch(h);
          return;
        case Evict(ids) =>
          evict := ids;
      }
      CloseAll(evict, h.now);
      if evict != [] {
        EvictFor(h, head, evict);
        return;
      }
      if StateOf(h, head.model).Ready? {
        GrantHeadNow(h);
        TryDispatch(h);
        return;
      }
      EnterPhase(Loading);
      swap := swap.(target := Some(head.model));
      out := out.(loads := out.loads + [LoadJob(head.model, Called)], actions := out.actions + 1);
    }

    method EvictFor(h: Host, head: Req, evict: seq<Model>)
      requires queued != [] && phase.Idle? && head == queued[0]
      modifies this
      ensures View() == match EvictTurn(old(View()), h, evict)
                        case Halt(r) => r case Again(r) => Scheduler.TryDispatch(r, h)
      decreases |queued|, 0, 1
    {
      hide DrainDeadline, DrainExpired, AnyBusy, AnyFailed, OpenGates, Scheduler.TryDispatch;
      var expired := Expired(evict, h.now);
      if expired {
        FailDrainFor(h, evict);
        return;
      }
      var busy := AnyBusyNow(evict);
      if busy {
        ArmDrainFor(evict, h.now);
        return;
      }
      var failed := AnyFailedNow(evict);
      if failed {
        FailHeadWith(UnloadBlocked);
        TryDispatch(h);
        return;
      }
      var deadline := Deadline(evict, h.now);
      EnterPhase(Unloading);
      swap := Swap(Some(head.model), evict, true);
      gates := gates.(armed := false);
      out := out.(unloads := out.unloads + [UnloadJob(evict, deadline, Draining)], actions := out.actions + 1);
    }

    method GrantHeadNow(h: Host)
      requires queued != []
      modifies this
      ensures View() == GrantHead(old(View()), h)
    {
      var head := queued[0];
      queued := queued[1..];
      var delivered := GrantServe(head, h);
      if delivered {
        work := work.(dispatchGen := Bump(work.dispatchGen, head.model));
        work := work.(quietGen := work.quietGen - {head.model});
        work := work.(pending := Bump(work.pending, head.model));
      }
    }

    method ArmDrainFor(ids: seq<Model>, now: int)
      modifies this`gates, this`out
      ensures forall h: Host :: h.now == now ==> View() == ArmDrain(old(View()), h, ids)
    {
      if gates.armed {
        return;
      }
      gates := gates.(armed := true);
      var deadline := Deadline(ids, now);
      out := out.(reminders := out.reminders + [deadline]);
    }

    method FailDrainFor(h: Host, evict: seq<Model>)
      requires queued != []
      modifies this
      ensures View() == Scheduler.TryDispatch(FailDrain(old(View()), evict), h)
      decreases |queued|, 0, 0
    {
      OpenAll(evict);
      gates := gates.(armed := false);
      FailHeadWith(DrainTimeout);
      TryDispatch(h);
    }

    // -------------------------------------------------------------- recovery sessions

    /** Whether a probe is left to launch without asking anyone twice. */
    ghost predicate FreshLeft()
      reads this
    {
      NextFresh(session.order, session.pos, session.checked) < |session.order|
    }

    method OpenSessionFor(h: Host, head: Req, token: nat, status: seq<Model>, samples: set<Model>,
            current: Option<Model>)
      requires queued != [] && head == queued[0]
      requires status == Unseen(View(), h, head) && samples == Marked(h)
      modifies this
      ensures View() == OpenSession(old(View()), h, token, current)
    {
      EnterPhase(Recover);
      session := Session(token, head.id, head.model, status, 0, samples, {}, false, false, false, current);
    }

    /** The first model to ask about that is being asked about already. */
    method FindLive(status: seq<Model>) returns (live: Option<Model>)
      ensures live == FirstLive(status, book.started)
    {
      for i := 0 to |status|
        invariant FirstLive(status, book.started) == FirstLive(status[i..], book.started)
      {
        assert status[i..][1..] == status[i + 1..];
        if status[i] in book.started {
          return Some(status[i]);
        }
      }
      assert status[|status|..] == [];
      return None;
    }

    /** The second half of maybeRecover: the session joins the probe in flight, or starts its own. */
    method StartSession(h: Host, head: Req, status: seq<Model>, samples: set<Model>)
      requires queued != [] && head == queued[0]
      requires status == Unseen(View(), h, head) && samples == Marked(h)
      modifies this
      ensures View() == BeginSession(old(View()), h)
      decreases |queued|, 1, 0
    {
      hide BeginProbeAt, FinishProbes, StatusOrder, Suspects, Without, BeginSession, Marked, FirstLive;
      ghost var s := View();
      var live := FindLive(status);
      if live.Some? {
        BeginsJoined(s, h, status, live.value);
        OpenSessionFor(h, head, book.started[live.value], status, samples, live);
        return;
      }
      BeginsFresh(s, h, status);
      book := book.(tokenSeq := book.tokenSeq + 1);
      OpenSessionFor(h, head, book.tokenSeq, status, samples, None);
      if status == [] {
        EnterPhase(Sample);
        return;
      }
      LaunchProbeFor(h);
    }

    method MaybeRecover(h: Host, head: Req) returns (recovering: bool)
      requires queued != [] && head == queued[0] && phase.Idle?
      modifies this
      ensures recovering == MustRecover(old(View()), h, head)
      ensures View() == if recovering then BeginSession(old(View()), h) else old(View())
      decreases |queued|, 1
    {
      hide BeginProbeAt, FinishProbes, StatusOrder, Suspects, Without, BeginSession, Marked, FirstLive;
      ghost var s := View();
      var st := StateOf(h, head.model);
      if st.Ready? {
        return false;
      }
      if st.Starting? && head.model in h.inFlight {
        return false;
      }
      var status, samples := PlanRecovery(head.model, h);
      status := FilterSeen(if head.id in book.seen then book.seen[head.id] else {}, status);
      assert status == Unseen(s, h, head);
      if status == [] && samples == {} {
        return false;
      }
      StartSession(h, head, status, samples);
      return true;
    }

    /** What the router captures when a probe begins. */
    ghost function ProbeOf(h: Host, id: Model): Probe
      reads this
    {
      Probe(session.token, id, Get(h.gens, id), Get(work.quietGen, id), Get(work.dispatchGen, id),
            Get(work.pending, id) + Get(work.httpIn, id))
    }

    method AskAbout(h: Host, id: Model)
      requires session.pos < |session.order| && session.order[session.pos] == id
      modifies this`session, this`book, this`out
      ensures View() == BeginProbeAt(old(View()), h, old(session.pos))
    {
      ghost var probe := ProbeOf(h, id);
      session := session.(current := Some(id));
      book := book.(started := book.started[id := session.token]);
      MarkSeenAs(session.owner, id);
      out := out.(probes := out.probes + [probe], begun := out.begun + multiset{(session.owner, id)},
                  actions := out.actions + 1);
    }

    method LaunchProbeFor(h: Host)
      modifies this
      ensures View() == LaunchProbe(old(View()), h)
      decreases |queued|, if FreshLeft() then 0 else 5
    {
      hide FinishProbes, BeginProbeAt;
      ghost var s := View();
      while session.pos < |session.order|
        invariant View() == s.(session := s.session.(pos := session.pos))
        invariant NextFresh(session.order, session.pos, session.checked)
                  == NextFresh(s.session.order, s.session.pos, s.session.checked)
        decreases |session.order| - session.pos
      {
        var id := session.order[session.pos];
        if id in session.checked {
          session := session.(pos := session.pos + 1);
          continue;
        }
        AskingMovesThere(s, h, session.pos, session.pos);
        AskAbout(h, id);
        return;
      }
      FinishProbesFor(h);
    }

    method CloseSession()
      modifies this
      ensures View() == EndSession(old(View()))
    {
      phase := Idle;
      session := session.(token := 0, owner := 0);
    }

    method FinishProbesFor(h: Host)
      modifies this
      ensures View() == FinishProbes(old(View()), h)
      decreases |queued|, 4
    {
      if session.skipRest {
        CloseSession();
        TryDispatch(h);
        return;
      }
      if session.sawResources {
        FailOwnerWith(h, Resources);
        return;
      }
      if session.sawLifecycle {
        FailOwnerWith(h, LifecyclePending);
        return;
      }
      if session.needSample != {} {
        EnterPhase(Sample);
        return;
      }
      CloseSession();
      TryDispatch(h);
    }

    method FailOwnerWith(h: Host, cause: Cause)
      modifies this
      ensures View() == FailOwner(old(View()), h, cause)
      decreases |queued|, 3
    {
      hide Scheduler.TryDispatch;
      var owner := session.owner;
      CloseSession();
      session := session.(current := None);
      if queued != [] && queued[0].id == owner {
        FailHeadWith(cause);
      }
      TryDispatch(h);
    }

    // -------------------------------------------------------------- requests

    constructor (cfg: Config)
      ensures View() == NewSched(cfg)
    {
      this.cfg := cfg;
      nextID, queued, unloadFail := 0, [], {};
      work, gates := EMPTY_WORK, Gates({}, map[], false);
      phase, swap := Idle, Swap(None, [], false);
      session, book := NO_SESSION, Book(0, map[], {}, map[]);
      out := EMPTY_OUTBOX;
    }

    method OnRequest(h: Host, request: Req, left: bool)
      modifies this
      ensures View() == Scheduler.OnRequest(old(View()), h, request, left)
    {
      hide Scheduler.TryDispatch;
      var req := request;
      if req.id == 0 {
        nextID := nextID + 1;
        req := req.(id := nextID);
      }
      if req.model !in h.states {
        out := out.(rejected := out.rejected + [(req.id, ModelNotFound)]);
        return;
      }
      if |queued| >= cfg.maxQ {
        out := out.(rejected := out.rejected + [(req.id, QueueFull)]);
        return;
      }
      if left {
        return;
      }
      out := out.(admitted := out.admitted + [req.id]);
      queued := queued + [req];
      TryDispatch(h);
    }

    method DropOwnerOf(id: nat)
      modifies this
      ensures View() == DropOwner(old(View()), id)
    {
      if session.owner != id {
        return;
      }
      if !phase.Recover? && !phase.Sample? {
        return;
      }
      if session.token != 0 {
        book := book.(late := book.late + {session.token});
        out := out.(droppedAt := out.droppedAt[session.token := out.actions]);
      }
      CloseSession();
    }

    method Find(id: nat) returns (i: nat)
      ensures i == IndexOf(queued, id)
    {
      i := 0;
      while i < |queued| && queued[i].id != id
        invariant i <= |queued| && IndexOf(queued, id) == i + IndexOf(queued[i..], id)
      {
        assert queued[i..][1..] == queued[i + 1..];
        i := i + 1;
      }
    }

    method OnCancel(h: Host, id: nat)
      modifies this
      ensures View() == Scheduler.OnCancel(old(View()), h, id)
    {
      hide Scheduler.TryDispatch;
      var i := Find(id);
      if i < |queued| {
        queued := queued[..i] + queued[i + 1..];
        out := out.(cancelled := out.cancelled + multiset{id});
        DropOwnerOf(id);
        TryDispatch(h);
      }
    }

    method OnQueueTimeout(h: Host, id: nat)
      modifies this
      ensures View() == Scheduler.OnQueueTimeout(old(View()), h, id)
    {
      hide Scheduler.TryDispatch;
      var i := Find(id);
      if i < |queued| {
        var req := queued[i];
        queued := queued[..i] + queued[i + 1..];
        DropOwnerOf(id);
        GrantError(req, QueueTimeout);
        TryDispatch(h);
      }
    }

    // -------------------------------------------------------------- work

    method OnProxyStart(m: Model) returns (ok: bool)
      modifies this`work
      ensures (View(), ok) == Scheduler.OnProxyStart(old(View()), m)
    {
      ok := Get(work.pending, m) > 0;
      if ok {
        work := work.(pending := Lower(work.pending, m));
        work := work.(httpIn := Bump(work.httpIn, m));
      }
    }

    method OnCancelGranted(h: Host, m: Model)
      modifies this
      ensures View() == Scheduler.OnCancelGranted(old(View()), h, m)
    {
      if Get(work.pending, m) > 0 {
        work := work.(pending := Lower(work.pending, m));
      }
      TryDispatch(h);
    }

    method OnServeDone(h: Host, m: Model)
      modifies this
      ensures View() == Scheduler.OnServeDone(old(View()), h, m)
    {
      hide Scheduler.TryDispatch;
      if Get(work.httpIn, m) > 0 {
        work := work.(httpIn := Lower(work.httpIn, m));
        work := work.(unresolved := Bump(work.unresolved, m));
        if Get(work.pending, m) == 0 && Get(work.httpIn, m) == 0 {
          work := work.(quietGen := work.quietGen[m := Get(work.dispatchGen, m)]);
        }
      }
      TryDispatch(h);
    }

    method ApplyBackendOf(m: Model, active: nat, proof: nat)
      modifies this`work
      ensures work == ApplyBackend(old(work), m, active, proof)
    {
      if active == 0 {
        work := work.(backend := work.backend - {m});
      } else {
        work := work.(backend := work.backend[m := active]);
      }
      if active == 0 && Get(work.pending, m) == 0 && Get(work.httpIn, m) == 0
         && proof != 0 && proof == Get(work.dispatchGen, m) && proof == Get(work.quietGen, m) {
        work := work.(unresolved := work.unresolved - {m});
      }
    }

    method OnStatus(h: Host, m: Model, active: Option<nat>, gen: nat)
      modifies this
      ensures View() == Scheduler.OnStatus(old(View()), h, m, active, gen)
    {
      if active.Some? {
        ApplyBackendOf(m, active.value, gen);
        TryDispatch(h);
      }
    }

    function ProofGen(m: Model): nat
      reads this
    {
      Get(work.quietGen, m)
    }

    method OnBackendDone(h: Host, m: Model)
      modifies this
      ensures View() == Scheduler.OnBackendDone(old(View()), h, m)
    {
      work := work.(backend := work.backend - {m});
      TryDispatch(h);
    }

    // -------------------------------------------------------------- swaps and reminders

    method OnUnloadDone(h: Host, fault: Option<Fault>)
      modifies this
      ensures View() == Scheduler.OnUnloadDone(old(View()), h, fault)
    {
      hide Scheduler.TryDispatch, OpenGates, NeededGates;
      if !phase.Unloading? {
        return;
      }
      if fault.Some? {
        FailUnloadWith(fault.value);
        TryDispatch(h);
        return;
      }
      OpenAll(swap.evict);
      phase := Idle;
      swap := Swap(None, [], false);
      ReopenUnused(h);
      TryDispatch(h);
    }

    method FailUnloadWith(fault: Fault)
      modifies this
      ensures View() == FailUnload(old(View()), fault)
    {
      var drained := fault == Coded(DrainTimeout);
      for i := 0 to |swap.evict|
        invariant View() == old(View()).(unloadFail := unloadFail)
        invariant unloadFail == if drained then old(unloadFail) else old(unloadFail) + Elements(swap.evict[..i])
      {
        assert Elements(swap.evict[..i + 1]) == Elements(swap.evict[..i]) + {swap.evict[i]};
        if !drained {
          unloadFail := unloadFail + {swap.evict[i]};
        }
      }
      assert swap.evict[..|swap.evict|] == swap.evict;
      phase := Idle;
      swap := swap.(began := false);
      if queued != [] {
        FailHeadWith(if drained then DrainTimeout else UnloadBlocked);
      }
    }

    method OnSwapDone(h: Host, m: Model, fault: Option<Fault>)
      modifies this
      ensures View() == Scheduler.OnSwapDone(old(View()), h, m, fault)
    {
      hide Scheduler.TryDispatch;
      if !phase.Loading? || swap.target != Some(m) {
        return;
      }
      phase := Idle;
      swap := Swap(None, [], false);
      if fault.Some? && queued != [] && queued[0].model == m {
        FailHeadWith(match fault.value case Coded(c) => c case Uncoded => LoadFailed);
      }
      TryDispatch(h);
    }

    method OnRemind(h: Host)
      modifies this
      ensures View() == Scheduler.OnRemind(old(View()), h)
    {
      gates := gates.(armed := false);
      TryDispatch(h);
    }

    method OnShutdown(cause: Cause)
      modifies this`queued, this`out
      ensures View() == Scheduler.OnShutdown(old(View()), cause)
    {
      for i := 0 to |queued|
        invariant queued == old(queued)
        invariant FailAll(old(out), queued, cause) == FailAll(out, queued[i..], cause)
      {
        assert queued[i..][1..] == queued[i + 1..];
        GrantError(queued[i], cause);
      }
      queued := [];
    }

    // -------------------------------------------------------------- recovery results

    function RecoverMode(token: nat): (m: Mode)
      reads this
      ensures m == Scheduler.RecoverMode(View(), token)
    {
      if phase.Recover? && token == session.token then Current
      else if phase.Idle? && token in book.late then Late
      else Drop
    }

    method ForgetProbe(m: Model)
      modifies this`book
      ensures View() == Scheduler.ForgetProbe(old(View()), m)
    {
      book := book.(started := book.started - {m});
    }

    method AbsorbNote(n: Note)
      modifies this`session, this`work, this`unloadFail
      ensures View() == Absorb(old(View()), n)
    {
      if n.kind.EndpointDown? {
        if n.model != session.model {
          session := session.(sawResources := true);
        }
        return;
      }
      if n.kind.OtherErr? || n.rec.RecInvalid? {
        session := session.(sawResources := true);
        return;
      }
      if n.applied {
        ApplyBackendOf(n.model, n.active, n.proof);
      }
      match n.rec {
        case ReadyIdle =>
          if n.applied {
            unloadFail := unloadFail - {n.model};
            session := session.(needSample := session.needSample - {n.model});
          }
          if n.model == session.model {
            session := session.(skipRest := true);
          }
        case UnloadedIdle =>
          if n.applied {
            session := session.(needSample := session.needSample + {n.model});
          }
        case FailedNotResidentIdle =>
          if n.applied {
            session := session.(needSample := session.needSample + {n.model});
          }
        case ReadyBusy => session := session.(sawLifecycle := true);
        case InProgress => session := session.(sawLifecycle := true);
        case FailedOccupied => session := session.(sawResources := true);
        case FailedNotResidentBusy => session := session.(sawResources := true);
        case RecInvalid =>
      }
    }

    method NoteLateResult(h: Host, n: Note)
      modifies this
      ensures View() == NoteLate(old(View()), h, n)
    {
      hide Scheduler.TryDispatch, ApplyBackend;
      if n.ack.Stale? {
        return;
      }
      if n.applied {
        ApplyBackendOf(n.model, n.active, n.proof);
        if n.rec.ReadyIdle? {
          unloadFail := unloadFail - {n.model};
        }
      }
      if phase.Idle? {
        TryDispatch(h);
      }
    }

    method NoteProbe(h: Host, n: Note)
      modifies this
      ensures View() == Scheduler.NoteProbe(old(View()), h, n)
    {
      hide NoteLate, Conclude, MarkSeen;
      ForgetProbe(n.model);
      if n.mode.Late? {
        NoteLateResult(h, n);
        return;
      }
      MarkSeenAs(session.owner, n.model);
      if !phase.Recover? || n.token != session.token {
        return;
      }
      session := session.(checked := session.checked + {n.model}, current := None);
      out := out.(noted := out.noted + {(session.owner, n.model)});
      ConcludeProbe(h, n);
    }

    method ConcludeProbe(h: Host, n: Note)
      modifies this
      ensures View() == Conclude(old(View()), h, n)
    {
      hide Scheduler.TryDispatch, FailOwner, LaunchProbe, Absorb;
      if n.ack.Stale? {
        FailOwnerWith(h, Resources);
        return;
      }
      if n.ack.AckBusy? {
        if n.model == session.model && StateOf(h, n.model).Starting? {
          CloseSession();
          TryDispatch(h);
          return;
        }
        FailOwnerWith(h, LifecyclePending);
        return;
      }
      AbsorbNote(n);
      if session.skipRest {
        CloseSession();
        TryDispatch(h);
        return;
      }
      session := session.(pos := session.pos + 1);
      LaunchProbeFor(h);
    }

    method MarkerCleared(h: Host, m: Model)
      modifies this
      ensures View() == Scheduler.MarkerCleared(old(View()), h, m)
    {
      hide Scheduler.TryDispatch;
      session := session.(needSample := session.needSample - {m});
      unloadFail := unloadFail - {m};
      if phase.Sample? && session.needSample == {} {
        CloseSession();
        TryDispatch(h);
      }
    }

    method SampleFailed(h: Host)
      modifies this
      ensures View() == Scheduler.SampleFailed(old(View()), h)
    {
      if !phase.Sample? {
        return;
      }
      FailOwnerWith(h, NotBooted);
    }
  }
}
