/**
 The router's loop in its own form (internal/router/base.go, run): one object that owns the
 scheduler and the ledger and changes both as each event comes in. Every method is proved
 to do what System.Next says of its event.
 */
module EventLoop {
  import opened Types
  import opened Admission
  import opened RuntimeStatus
  import opened Scheduler
  import opened SchedulerRecovery
  import opened SchedulerHandlers
  import opened Ledger
  import opened ClientLoop
  import opened Fifo
  import LedgerLaws
  import R = Router
  import opened System
  import opened SystemLaws

  /**
   What the scheduler may read: states, generations, markers and loads in flight as they
   are, and the planner's answers as the machine computes them; which are the arithmetic
   ones wherever sums stay within 64 bits.
   */
  ghost predicate Reads(y: Sys, gone: set<nat>, h: Host) {
    && h == HostOf(y, gone).(decide := h.decide) && h.decide.Keys == y.clients.Keys
    && (forall m :: m in y.clients ==> R.MayDecide(y.l, StatesOf(y.clients), y.now, m, h.decide[m]))
    && (R.Fitting(y.l) ==> h == HostOf(y, gone))
  }

  lemma ReadsExactly(y: Sys, gone: set<nat>, decide: map<Model, Decision>)
    requires decide.Keys == y.clients.Keys
    requires forall m :: m in y.clients ==> R.MayDecide(y.l, StatesOf(y.clients), y.now, m, decide[m])
    ensures Reads(y, gone, HostOf(y, gone).(decide := decide))
  {
    hide Decide, R.Fitting, R.MayDecide;
    if R.Fitting(y.l) {
      forall m | m in y.clients
        ensures decide[m] == Decide(y.l, StatesOf(y.clients), y.now, m)
      {
        R.DecidesExactly(y.l, StatesOf(y.clients), y.now, m, decide[m]);
      }
    }
  }

  /** What is read does not depend on the scheduler. */
  lemma ReadsSame(y: Sys, y1: Sys, gone: set<nat>, h: Host)
    requires Reads(y1, gone, h) && y1.l == y.l && y1.clients == y.clients && y1.now == y.now
    ensures Reads(y, gone, h)
  {
    hide Decide, R.Fitting, R.MayDecide, HostOf;
    SameHost(y, y1, gone);
  }

  lemma WordsUse(l: Ledger, now: int, m: Model)
    requires R.Words(l)
    ensures R.Words(NoteUse(l, now, m))
  {
  }

  lemma WordsLoad(l: Ledger, now: int, m: Model, fault: Option<Fault>)
    requires R.Words(l)
    ensures R.Words(LoadReported(l, now, m, fault))
  {
    hide TimeOf, NoteLoaded;
    LedgerLaws.NotesRaise(l, now, m);
  }

  lemma WordsRecovered(l: Ledger, now: int, ev: Result, ack: Ack)
    requires R.Words(l)
    ensures R.Words(Recovered(l, now, ev, ack))
  {
    hide AppliedResult;
    LedgerLaws.AppliedSpec(l, now, ev);
  }

  lemma WordsObserve(l: Ledger, sample: Snapshot)
    requires R.Words(l) && R.SnapWords(sample)
    ensures R.Words(Observe(l, sample))
  {
    hide ClearedBy;
  }

  lemma WordsUnload(l: Ledger, ids: seq<Model>, at: int, sample: Snapshot)
    requires R.Words(l) && R.SnapWords(sample)
    ensures R.Words(UnloadReported(l, ids, at, sample))
  {
    hide Observe;
    WordsObserve(MarkAll(l, ids, at), sample);
  }

  /** A result the client is not asked about counts as acknowledged. */
  lemma AskedOnlyIfBelieved(c: Client, ev: Result)
    ensures !CallsClient(ev) ==> AskClient(c, ev) == (c, Applied)
  {
  }

  /** The serve-done branch, for what the scheduler read during it. */
  function ServedBy(y: Sys, h: Host, m: Model): Sys {
    var r := Scheduler.OnServeDone(y.s, h, m);
    y.(l := NoteUse(y.l, y.now, m), serving := y.serving - multiset{m}, s := r,
       statuses := y.statuses + [StatusRead(m, Get(r.work.quietGen, m), Get(r.work.dispatchGen, m),
                                            Get(r.work.pending, m) + Get(r.work.httpIn, m))])
  }

  function LoadedBy(y: Sys, h: Host, i: nat): Sys
    requires i < |y.s.out.loads| && y.s.out.loads[i].stage.Answered?
  {
    var j := y.s.out.loads[i];
    y.(l := LoadReported(y.l, y.now, j.model, j.stage.fault),
       s := Scheduler.OnSwapDone(TakeLoad(y.s, i), h, j.model, j.stage.fault))
  }

  function SampledBy(y: Sys, h: Host, sample: Snapshot, order: seq<Model>): Sys {
    y.(l := Observe(y.l, sample),
       s := if Usable(y.l.cfg, sample) then ClearMarkers(y.s, h, order) else Scheduler.SampleFailed(y.s, h))
  }

  function UnloadedBy(y: Sys, h: Host, i: nat, sample: Snapshot, order: seq<Model>): Sys
    requires i < |y.s.out.unloads| && y.s.out.unloads[i].stage.Confirmed?
  {
    var j := y.s.out.unloads[i];
    y.(l := UnloadReported(y.l, j.ids, j.stage.at, sample),
       s := Scheduler.OnUnloadDone(ClearMarkers(TakeUnload(y.s, i), h, order), h, None))
  }

  function RecoveredBy(y: Sys, h: Host, i: nat, ev: Result): Sys
    requires i < |y.s.out.probes| && ev.model in y.clients
  {
    var mode := Scheduler.RecoverMode(y.s, ev.token);
    if mode.Drop? then y.(s := Returned(y.s, i))
    else Digested(y, ev).(s := Scheduler.NoteProbe(TakeProbe(y.s, i), h,
          NoteOf(ev, mode, AskClient(y.clients[ev.model], ev).1)))
  }

  /** The branches that change the ledger first are the composite's events, when they read what it reads. */
  lemma BranchesAreEvents(y: Sys, gone: set<nat>)
    ensures forall m: Model :: ServedBy(y, HostOf(y.(l := NoteUse(y.l, y.now, m)), gone), m) == AfterServe(y, gone, m)
    ensures forall i :: 0 <= i < |y.s.out.loads| && y.s.out.loads[i].stage.Answered? ==>
              LoadedBy(y, HostOf(LoadedBy(y, HostOf(y, gone), i).(s := y.s), gone), i) == AfterLoad(y, gone, i)
    ensures forall sample, order ::
              SampledBy(y, HostOf(y.(l := Observe(y.l, sample)), gone), sample, order)
              == AfterSample(y, gone, sample, order)
    ensures forall i, sample, order :: 0 <= i < |y.s.out.unloads| && y.s.out.unloads[i].stage.Confirmed? ==>
              UnloadedBy(y, HostOf(UnloadedBy(y, HostOf(y, gone), i, sample, order).(s := y.s), gone), i, sample, order)
              == AfterUnload(y, gone, i, sample, order)
    ensures forall i, ev: Result :: 0 <= i < |y.s.out.probes| && ev.model in y.clients ==>
              RecoveredBy(y, HostOf(Digested(y, ev), gone), i, ev) == AfterProbe(y, gone, i, ev)
  {
    hide HostOf, Scheduler.OnSwapDone, ClearMarkers, Scheduler.SampleFailed, Scheduler.OnUnloadDone,
         Scheduler.NoteProbe, LoadReported, Observe, UnloadReported, Digested, Scheduler.OnServeDone,
         Scheduler.RecoverMode, AskClient, Usable;
    forall m ensures ServedBy(y, HostOf(y.(l := NoteUse(y.l, y.now, m)), gone), m) == AfterServe(y, gone, m) {
      AfterServeIs(y, m, gone); }
  }

  class RunLoop {
    const schedule: FIFO
    const ledger: R.Router
    var clients: map<Model, Client>
    var now: int
    /** Handler functions inside ServeHTTP, and status reads begun after them. */
    ghost var serving: multiset<Model>
    ghost var statuses: seq<StatusRead>

    ghost function View(): Sys
      reads this, schedule, ledger
    {
      Sys(schedule.View(), ledger.View(), clients, serving, statuses, now)
    }

    constructor (cfg: Config, budget: Budget, clients: map<Model, Client>, now: int)
      ensures View() == Sys(NewSched(cfg), Ledger(budget, map[], map[], NO_SAMPLE, false, None, map[], map[]), clients,
                            multiset{}, [], now)
      ensures fresh(schedule) && fresh(ledger)
    {
      schedule := new FIFO(cfg);
      ledger := new R.Router(budget);
      this.clients, this.now := clients, now;
      serving, statuses := multiset{}, [];
    }

    /** RecoveryFacts and the planner's answers, as the scheduler would read them now. */
    method Facts(gone: set<nat>) returns (h: Host)
      requires R.Words(ledger.View())
      ensures Reads(View(), gone, h)
    {
      hide Decide, R.Words, R.MayDecide, Reads;
      var st := StatesOf(clients);
      var decide: map<Model, Decision> := map[];
      var left := clients.Keys;
      while left != {}
        invariant left <= clients.Keys && decide.Keys == clients.Keys - left
        invariant forall m :: m in decide ==> R.MayDecide(ledger.View(), st, now, m, decide[m])
        decreases left
      {
        var m :| m in left;
        var d := ledger.Decide(st, now, m, Sorted(Running(st)));
        decide := decide[m := d];
        left := left - {m};
      }
      var inFlight := set m | m in clients && clients[m].op.Some?;
      var gens := map m | m in clients :: clients[m].gen;
      h := Host(st, gens, ledger.residualAfter.Keys, inFlight, decide, now, gone);
      ReadsExactly(View(), gone, decide);
    }

    // -------------------------------------------------------------- requests

    method OnHandler(req: Req, left: bool, gone: set<nat>) returns (ghost h: Host)
      requires R.Words(ledger.View())
      modifies schedule
      ensures Reads(old(View()), gone, h)
      ensures View() == old(View()).(s := Scheduler.OnRequest(old(View()).s, h, req, left))
    {
      hide R.Words, Reads, HostOf, Scheduler.OnRequest;
      ghost var y := View();
      var facts := Facts(gone);
      h := facts;
      ReadsSame(y, View(), gone, h);
      schedule.OnRequest(facts, req, left);
    }

    method OnCancel(id: nat, gone: set<nat>) returns (ghost h: Host)
      requires R.Words(ledger.View())
      modifies schedule
      ensures Reads(old(View()), gone, h)
      ensures View() == old(View()).(s := Scheduler.OnCancel(old(View()).s, h, id))
    {
      hide R.Words, Reads, HostOf, RemoveAt, Scheduler.OnCancel, Scheduler.OnQueueTimeout, Scheduler.OnCancelGranted,
           Scheduler.OnStatus, Scheduler.OnBackendDone, Scheduler.OnRemind;
      ghost var y := View();
      var facts := Facts(gone);
      h := facts;
      ReadsSame(y, View(), gone, h);
      schedule.OnCancel(facts, id);
    }

    method OnTimeout(id: nat, gone: set<nat>) returns (ghost h: Host)
      requires R.Words(ledger.View())
      modifies schedule
      ensures Reads(old(View()), gone, h)
      ensures View() == old(View()).(s := Scheduler.OnQueueTimeout(old(View()).s, h, id))
    {
      hide R.Words, Reads, HostOf, RemoveAt, Scheduler.OnCancel, Scheduler.OnQueueTimeout, Scheduler.OnCancelGranted,
           Scheduler.OnStatus, Scheduler.OnBackendDone, Scheduler.OnRemind;
      ghost var y := View();
      var facts := Facts(gone);
      h := facts;
      ReadsSame(y, View(), gone, h);
      schedule.OnQueueTimeout(facts, id);
    }

    method OnCancelGranted(m: Model, gone: set<nat>) returns (ghost h: Host)
      requires R.Words(ledger.View())
      modifies schedule
      ensures Reads(old(View()), gone, h)
      ensures View() == old(View()).(s := Scheduler.OnCancelGranted(Ungrant(old(View()).s, m), h, m))
    {
      hide R.Words, Reads, HostOf, RemoveAt, Scheduler.OnCancel, Scheduler.OnQueueTimeout, Scheduler.OnCancelGranted,
           Scheduler.OnStatus, Scheduler.OnBackendDone, Scheduler.OnRemind;
      ghost var y := View();
      schedule.out := schedule.out.(granted := schedule.out.granted - multiset{m});
      var facts := Facts(gone);
      h := facts;
      ReadsSame(y, View(), gone, h);
      schedule.OnCancelGranted(facts, m);
    }

    method OnProxyStart(m: Model) returns (ok: bool)
      requires m in schedule.out.granted
      modifies this`serving, schedule
      ensures View() == AfterProxy(old(View()), m)
    {
      schedule.out := schedule.out.(granted := schedule.out.granted - multiset{m});
      ok := schedule.OnProxyStart(m);
      if ok {
        serving := serving + multiset{m};
      }
    }

    /** Use is noted, the scheduler told, and a status read begun with the proof it holds then. */
    method OnServeDone(m: Model, gone: set<nat>) returns (ghost h: Host)
      requires R.Words(ledger.View())
      modifies this`serving, this`statuses, schedule, ledger
      ensures Reads(old(View()).(l := NoteUse(old(View()).l, now, m)), gone, h)
      ensures View() == ServedBy(old(View()), h, m)
    {
      hide R.Words, Reads, HostOf, Scheduler.OnServeDone;
      ghost var y := View();
      ledger.NoteUse(now, m);
      serving := serving - multiset{m};
      WordsUse(y.l, now, m);
      var facts := Facts(gone);
      h := facts;
      ReadsSame(y.(l := NoteUse(y.l, now, m)), View(), gone, h);
      schedule.OnServeDone(facts, m);
      ghost var w := schedule.work;
      statuses := statuses + [StatusRead(m, schedule.ProofGen(m), Get(w.dispatchGen, m),
                                         Get(w.pending, m) + Get(w.httpIn, m))];
    }

    method OnStatus(ghost i: nat, m: Model, count: Option<nat>, gen: nat, gone: set<nat>) returns (ghost h: Host)
      requires R.Words(ledger.View())
      requires i < |statuses| && statuses[i].model == m && statuses[i].gen == gen
      modifies this`statuses, schedule
      ensures Reads(old(View()), gone, h)
      ensures View() == old(View()).(s := Scheduler.OnStatus(old(View()).s, h, m, count, gen),
                                     statuses := RemoveAt(old(statuses), i))
    {
      hide R.Words, Reads, HostOf, RemoveAt, Scheduler.OnCancel, Scheduler.OnQueueTimeout, Scheduler.OnCancelGranted,
           Scheduler.OnStatus, Scheduler.OnBackendDone, Scheduler.OnRemind;
      ghost var y := View();
      statuses := RemoveAt(statuses, i);
      var facts := Facts(gone);
      h := facts;
      ReadsSame(y, View(), gone, h);
      schedule.OnStatus(facts, m, count, gen);
    }

    method OnBackendDone(m: Model, gone: set<nat>) returns (ghost h: Host)
      requires R.Words(ledger.View())
      modifies schedule
      ensures Reads(old(View()), gone, h)
      ensures View() == old(View()).(s := Scheduler.OnBackendDone(old(View()).s, h, m))
    {
      hide R.Words, Reads, HostOf, RemoveAt, Scheduler.OnCancel, Scheduler.OnQueueTimeout, Scheduler.OnCancelGranted,
           Scheduler.OnStatus, Scheduler.OnBackendDone, Scheduler.OnRemind;
      ghost var y := View();
      var facts := Facts(gone);
      h := facts;
      ReadsSame(y, View(), gone, h);
      schedule.OnBackendDone(facts, m);
    }

    method OnRemind(ghost i: nat, gone: set<nat>) returns (ghost h: Host)
      requires R.Words(ledger.View()) && i < |schedule.out.reminders|
      modifies schedule
      ensures Reads(old(View()), gone, h)
      ensures View() == old(View()).(s := Scheduler.OnRemind(TakeReminder(old(View()).s, i), h))
    {
      hide R.Words, Reads, HostOf, RemoveAt, Scheduler.OnCancel, Scheduler.OnQueueTimeout, Scheduler.OnCancelGranted,
           Scheduler.OnStatus, Scheduler.OnBackendDone, Scheduler.OnRemind;
      ghost var y := View();
      schedule.out := schedule.out.(reminders := RemoveAt(schedule.out.reminders, i));
      var facts := Facts(gone);
      h := facts;
      ReadsSame(y, View(), gone, h);
      schedule.OnRemind(facts);
    }

    // -------------------------------------------------------------- loads

    /** grantLoad. */
    method OnAdmit(m: Model) returns (refused: Option<Cause>)
      requires R.Words(ledger.View())
      modifies ledger
      ensures View() == old(View()).(l := View().l)
      ensures R.MayGrant(old(View()).l, StatesOf(clients), now, false, m, (View().l, refused))
      ensures R.Fitting(old(View()).l) ==>
                (View().l, refused) == AdmitLoad(old(View()).l, StatesOf(clients), now, false, m)
    {
      hide AdmitLoad, R.Words, R.Fitting, R.MayGrant;
      ghost var l := ledger.View();
      refused := ledger.AdmitLoad(StatesOf(clients), now, false, m);
      if R.Fitting(l) { R.GrantsExactly(l, StatesOf(clients), now, false, m, (ledger.View(), refused)); }
    }

    /** A load's report: the ledger first, then the scheduler. */
    method OnSwapDone(ghost i: nat, m: Model, fault: Option<Fault>, gone: set<nat>) returns (ghost h: Host)
      requires i < |schedule.out.loads| && schedule.out.loads[i] == LoadJob(m, Answered(fault))
      requires R.Words(ledger.View())
      modifies schedule, ledger
      ensures Reads(old(View()).(l := View().l), gone, h) && View() == LoadedBy(old(View()), h, i)
    {
      hide R.Words, Reads, HostOf, Scheduler.OnSwapDone, LoadReported, RemoveAt;
      ghost var y := View();
      ledger.LoadReported(now, m, fault);
      schedule.out := schedule.out.(loads := RemoveAt(schedule.out.loads, i));
      WordsLoad(y.l, now, m, fault);
      var facts := Facts(gone);
      h := facts;
      ReadsSame(y.(l := View().l), View(), gone, h);
      schedule.OnSwapDone(facts, m, fault);
    }

    // -------------------------------------------------------------- samples and unloads

    method TellCleared(h: Host, cleared: seq<Model>)
      modifies schedule
      ensures schedule.View() == ClearMarkers(old(schedule.View()), h, cleared)
    {
      hide Scheduler.MarkerCleared;
      ghost var s := schedule.View();
      for k := 0 to |cleared|
        invariant ClearMarkers(s, h, cleared) == ClearMarkers(schedule.View(), h, cleared[k..])
      {
        assert cleared[k..][1..] == cleared[k + 1..];
        schedule.MarkerCleared(h, cleared[k]);
      }
    }

    method OnObserve(sample: Snapshot, gone: set<nat>) returns (ghost order: seq<Model>, ghost h: Host)
      requires R.Words(ledger.View()) && R.SnapWords(sample)
      modifies schedule, ledger
      ensures Usable(ledger.cfg, sample) ==> Lists(order, ClearedBy(old(ledger.residualAfter), sample))
      ensures Reads(old(View()).(l := View().l), gone, h) && View() == SampledBy(old(View()), h, sample, order)
    {
      hide R.Words, Reads, HostOf, Scheduler.SampleFailed, Observe, ClearedBy, ClearMarkers;
      ghost var y := View();
      WordsObserve(y.l, sample);
      var cleared := ledger.ApplyObservation(sample);
      var facts := Facts(gone);
      h := facts;
      ReadsSame(y.(l := View().l), View(), gone, h);
      order := cleared;
      if !sample.ok || sample.device != ledger.cfg.device {
        schedule.SampleFailed(facts);
      } else {
        TellCleared(facts, cleared);
      }
    }

    /** The notice of a confirmed unload, with a later sample. */
    method OnUnloadNotice(ghost i: nat, ids: seq<Model>, at: int, sample: Snapshot, gone: set<nat>)
      returns (ghost order: seq<Model>, ghost h: Host)
      requires i < |schedule.out.unloads| && schedule.out.unloads[i].stage == Confirmed(at)
      requires schedule.out.unloads[i].ids == ids
      requires Usable(ledger.cfg, sample) && R.Words(ledger.View()) && R.SnapWords(sample)
      modifies schedule, ledger
      ensures Lists(order, ClearedBy(MarkAll(old(ledger.View()), ids, at).marker, sample))
      ensures Reads(old(View()).(l := View().l), gone, h) && View() == UnloadedBy(old(View()), h, i, sample, order)
    {
      hide R.Words, Reads, HostOf, Scheduler.OnUnloadDone, UnloadReported, ClearedBy, MarkAll, ClearMarkers, RemoveAt,
           Usable;
      ghost var y := View();
      WordsUnload(y.l, ids, at, sample);
      var cleared := ledger.UnloadReported(ids, at, sample);
      order := cleared;
      schedule.out := schedule.out.(unloads := RemoveAt(schedule.out.unloads, i));
      var facts := Facts(gone);
      h := facts;
      ReadsSame(y.(l := View().l), View(), gone, h);
      TellCleared(facts, cleared);
      schedule.OnUnloadDone(facts, None);
    }

    method OnUnloadFailed(ghost i: nat, fault: Fault, gone: set<nat>) returns (ghost h: Host)
      requires i < |schedule.out.unloads| && R.Words(ledger.View())
      modifies schedule
      ensures Reads(old(View()), gone, h)
      ensures View() == old(View()).(s := Scheduler.OnUnloadDone(TakeUnload(old(View()).s, i), h, Some(fault)))
    {
      hide R.Words, Reads, HostOf, Scheduler.OnUnloadDone, RemoveAt;
      ghost var y := View();
      schedule.out := schedule.out.(unloads := RemoveAt(schedule.out.unloads, i));
      var facts := Facts(gone);
      h := facts;
      ReadsSame(y, View(), gone, h);
      schedule.OnUnloadDone(facts, Some(fault));
    }

    // -------------------------------------------------------------- recovery

    /** onRecover, with the client's part inside it; a dropped result asks nobody. */
    method OnRecover(ghost i: nat, ev: Result, gone: set<nat>) returns (ghost h: Host)
      requires i < |schedule.out.probes| && ev.model in clients && schedule.out.probes[i].model == ev.model
      requires !ev.kind.NoErr? ==> ev.rec.RecInvalid?
      requires R.Words(ledger.View())
      modifies this`clients, schedule, ledger
      ensures Scheduler.RecoverMode(old(View()).s, ev.token).Drop? || Reads(Digested(old(View()), ev), gone, h)
      ensures View() == RecoveredBy(old(View()), h, i, ev)
    {
      hide R.Words, Reads, HostOf, Scheduler.NoteProbe, Recovered, AskClient, RemoveAt;
      ghost var y := View();
      h := HostOf(y, gone);
      var mode := schedule.RecoverMode(ev.token);
      schedule.out := schedule.out.(probes := RemoveAt(schedule.out.probes, i));
      if mode.Drop? {
        schedule.ForgetProbe(ev.model);
        return;
      }
      var (c, ack) := AskClient(clients[ev.model], ev);
      ledger.OnRecover(now, ev, R.Replied(ack, false));
      clients := clients[ev.model := c];
      AskedOnlyIfBelieved(y.clients[ev.model], ev);
      WordsRecovered(y.l, now, ev, ack);
      var facts := Facts(gone);
      h := facts;
      ReadsSame(Digested(y, ev), View(), gone, h);
      schedule.NoteProbe(facts, NoteOf(ev, mode, ack));
    }
  }
}
