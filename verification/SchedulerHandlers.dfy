/** Every handler keeps the invariant, given what its event carries. */
module SchedulerHandlers {
  import opened Types
  import opened Scheduler
  import opened SchedulerLaws
  import opened SchedulerTurns
  import opened SchedulerDispatch

  // ---------------------------------------------------------------- requests

  lemma AdmitTally(s: Sched, req: Req)
    requires TallyInv(s)
    ensures TallyInv(Admit(s, req))
  {
    IdsAppend(s.queued, req);
    SubseqAppend(s.out.served + Ids(s.queued), s.out.admitted, req.id);
    assert s.out.served + Ids(s.queued + [req]) == (s.out.served + Ids(s.queued)) + [req.id];
  }

  lemma AdmitQueue(s: Sched, h: Host, req: Req)
    requires QueueInv(s, h) && |s.queued| < s.cfg.maxQ
    requires req.id != 0 && req.id !in s.out.admitted && req.model in h.states
    ensures QueueInv(Admit(s, req), h)
  {
    IdsAppend(s.queued, req);
  }

  lemma AdmitRec(s: Sched, h: Host, req: Req)
    requires RecInv(s, h) && req.id !in s.out.admitted
    ensures RecInv(Admit(s, req), h)
  {
    hide Suspects, SeenInv;
    AdmitSeen(s, req);
  }

  lemma AdmitSeen(s: Sched, req: Req)
    requires SeenInv(s) && req.id !in s.out.admitted
    ensures SeenInv(Admit(s, req)) && req.id !in s.book.seen
  {
    var r := Admit(s, req);
    assert r.queued[..|s.queued|] == s.queued;
    assert forall o :: SeenBy(r.book, o) == SeenBy(s.book, o);
  }

  lemma AdmitCore(s: Sched, h: Host, req: Req)
    requires WorkInv(s) && GateInv(s, h.now) && LifeInv(s) && LateInv(s)
    ensures var r := Admit(s, req); WorkInv(r) && GateInv(r, h.now) && LifeInv(r) && LateInv(r)
  {
    hide WorkOK, Quiet, DueBy;
  }

  /** A request that joins an empty queue is a new head. */
  lemma AdmitStory(s: Sched, h: Host, req: Req)
    requires SeenInv(s) && req.id !in s.out.admitted
    ensures Story(s, Admit(s, req), h)
  {
    hide SeenBy;
    if s.queued == [] { assert Unheard(Admit(s, req)); }
  }

  lemma AwakeSame(s: Sched, r: Sched)
    requires Awake(s) && r.queued == s.queued && r.phase == s.phase && r.work == s.work && r.cfg == s.cfg
    requires r.gates == s.gates
    ensures Awake(r)
  {
  }

  lemma RequestInv(s: Sched, h: Host, req: Req, left: bool)
    requires Inv(s, h) && HostOK(h) && Awake(s) && req.id != 0 && req.id !in s.out.admitted
    ensures Inv(OnRequest(s, h, req, left), h)
    ensures Settled(s, OnRequest(s, h, req, left), h)
  {
    hide SessionInv, LiveInv, AskInv, SeenInv, TargetInv, WorkInv, GateInv, LifeInv, LateInv, Settled, TryDispatch,
         HostOK, Awake, Story;
    AdmitStory(s, h, req);
    StorySame(s, s, h);
    FairStill(s, s, h);
    if req.model !in h.states || |s.queued| >= s.cfg.maxQ {
      var cause := if req.model !in h.states then ModelNotFound else QueueFull;
      OutFrame(s, h, Reject(s, req, cause));
      StorySame(s, Reject(s, req, cause), h);
      AwakeSame(s, Reject(s, req, cause));
      FairStill(s, Reject(s, req, cause), h);
    } else if !left {
      AdmitTally(s, req);
      AdmitQueue(s, h, req);
      AdmitRec(s, h, req);
      AdmitCore(s, h, req);
      hide QueueInv, TallyInv;
      DispatchFrom(s, Admit(s, req), h);
    }
  }

  /** What the invariant does not read of the outbox. */
  lemma OutFrame(s: Sched, h: Host, r: Sched)
    requires Inv(s, h) && r == s.(out := s.out.(rejected := r.out.rejected))
    ensures Inv(r, h)
  {
    hide RecInv;
    RecFrame(s, h, r);
    hide WorkOK, Subseq, GateInv;
  }

  /** A queued request leaves the queue: by its caller's choice, or because it waited too long. */
  predicate Leaves(s: Sched, r: Sched, i: nat)
    requires i < |s.queued|
  {
    var id := s.queued[i].id;
    && r.queued == RemoveAt(s.queued, i)
    && (r.out == s.out.(cancelled := s.out.cancelled + multiset{id})
        || r.out == Answer(s.out, id, Errored(QueueTimeout)))
    && r == s.(queued := r.queued, out := r.out)
  }

  lemma LeaveTally(s: Sched, r: Sched, i: nat)
    requires TallyInv(s) && i < |s.queued| && Leaves(s, r, i)
    ensures TallyInv(r)
  {
    IdsRemove(s.queued, i);
    var all := s.out.served + Ids(s.queued);
    assert RemoveAt(all, |s.out.served| + i) == s.out.served + RemoveAt(Ids(s.queued), i);
    SubseqRemove(all, s.out.admitted, |s.out.served| + i);
    hide Subseq, Ids, RemoveAt;
  }

  lemma LeaveQueue(s: Sched, h: Host, r: Sched, i: nat)
    requires QueueInv(s, h) && i < |s.queued| && Leaves(s, r, i)
    ensures QueueInv(r, h)
  {
    IdsRemove(s.queued, i);
    assert forall j :: 0 <= j < |r.queued| ==> r.queued[j] == s.queued[if j < i then j else j + 1];
    assert forall j :: 0 <= j < |r.queued| ==> Ids(r.queued)[j] == Ids(s.queued)[if j < i then j else j + 1];
  }

  lemma LeaveCore(s: Sched, h: Host, r: Sched, i: nat)
    requires CoreInv(s, h) && i < |s.queued| && Leaves(s, r, i)
    ensures CoreInv(r, h)
  {
    hide TallyInv, QueueInv, Slots, QuietOK;
    LeaveTally(s, r, i);
    LeaveQueue(s, h, r, i);
  }

  /** A request that is not the head leaves: no session is its own. */
  lemma LeaveTail(s: Sched, h: Host, r: Sched, i: nat)
    requires Inv(s, h) && 0 < i < |s.queued| && Leaves(s, r, i)
    ensures RecInv(r, h) && DropOwner(r, s.queued[i].id) == r
  {
    hide Suspects, SeenBy, WorkInv, TallyInv, GateInv, LifeInv, LateInv;
    assert Ids(s.queued)[0] != Ids(s.queued)[i];
    assert forall j :: 0 <= j < |r.queued| ==> r.queued[j] == s.queued[if j < i then j else j + 1];
  }

  lemma SameSeen(a: Book, b: Book)
    requires a.seen == b.seen
    ensures forall o :: SeenBy(a, o) == SeenBy(b, o)
  {
  }

  lemma UnseenIsEmpty(b: Book, id: nat)
    requires id !in b.seen
    ensures SeenBy(b, id) == {}
  {
  }

  lemma LeaveHead(s: Sched, h: Host, r: Sched)
    requires QueueInv(s, h) && RecInv(s, h) && s.queued != [] && Leaves(s, r, 0)
    ensures RecInv(DropOwner(r, s.queued[0].id), h)
  {
    hide Suspects, Ids, SeenBy, Distinct;
    assert forall j :: 0 <= j < |r.queued| ==> r.queued[j] == s.queued[j + 1];
    assert s.queued[0].id != 0;
    LeaveSeen(s, h, r);
    hide SeenInv;
  }

  lemma LeaveSeen(s: Sched, h: Host, r: Sched)
    requires SeenInv(s) && s.queued != [] && Leaves(s, r, 0)
    ensures SeenInv(DropOwner(r, s.queued[0].id))
  {
    hide SeenBy, Distinct;
    assert forall j :: 0 <= j < |r.queued| ==> r.queued[j] == s.queued[j + 1];
    var d := DropOwner(r, s.queued[0].id);
    SameSeen(s.book, d.book);
    if d.queued != [] {
      assert d.queued[0].id !in d.book.seen;
      UnseenIsEmpty(d.book, d.queued[0].id);
    }
  }

  lemma DropCore(s: Sched, h: Host, id: nat)
    requires CoreInv(s, h)
    ensures CoreInv(DropOwner(s, id), h)
  {
    hide WorkOK, Ids, Distinct, DueBy, Quiet, Subseq;
  }

  lemma CoreQueue(s: Sched, h: Host)
    requires CoreInv(s, h)
    ensures QueueInv(s, h)
  {
    hide WorkInv, QueueInv, TallyInv, GateInv, LifeInv, LateInv;
  }

  lemma LeaveStory(s: Sched, h: Host, r: Sched, i: nat)
    requires SeenInv(s) && i < |s.queued| && Leaves(s, r, i) && (i > 0 ==> DropOwner(r, s.queued[i].id) == r)
    ensures Story(s, DropOwner(r, s.queued[i].id), h)
  {
    var d := DropOwner(r, s.queued[i].id);
    assert d.queued == r.queued && d.out.noted == s.out.noted;
    if i == 0 {
      assert r.queued == s.queued[1..];
      NewHead(s, d);
    } else {
      assert r.queued[0] == s.queued[0];
    }
  }

  lemma LeaveInv(s: Sched, h: Host, r: Sched, i: nat)
    requires Inv(s, h) && i < |s.queued| && Leaves(s, r, i)
    ensures Inv(DropOwner(r, s.queued[i].id), h) && Story(s, DropOwner(r, s.queued[i].id), h)
  {
    hide CoreInv, SessionInv, LiveInv, AskInv, SeenInv, TargetInv, Story, DropOwner, Leaves;
    LeaveCore(s, h, r, i);
    CoreQueue(s, h);
    if i == 0 { LeaveHead(s, h, r); } else { LeaveTail(s, h, r, i); }
    DropCore(r, h, s.queued[i].id);
    LeaveStory(s, h, r, i);
  }

  lemma CancelInv(s: Sched, h: Host, id: nat)
    requires Inv(s, h) && HostOK(h) && Awake(s)
    ensures Inv(OnCancel(s, h, id), h)
    ensures Settled(s, OnCancel(s, h, id), h)
  {
    hide Settled, TryDispatch, HostOK, Inv, Awake, Story;
    StorySame(s, s, h);
    FairStill(s, s, h);
    var i := IndexOf(s.queued, id);
    if i < |s.queued| {
      var s1 := s.(queued := RemoveAt(s.queued, i),
                   out := s.out.(cancelled := s.out.cancelled + multiset{id}));
      LeaveInv(s, h, s1, i);
      DispatchFrom(s, DropOwner(s1, id), h);
    }
  }

  lemma TimeoutInv(s: Sched, h: Host, id: nat)
    requires Inv(s, h) && HostOK(h) && Awake(s)
    ensures Inv(OnQueueTimeout(s, h, id), h)
    ensures Settled(s, OnQueueTimeout(s, h, id), h)
  {
    hide Settled, TryDispatch, HostOK, Inv, Awake, Story;
    StorySame(s, s, h);
    FairStill(s, s, h);
    var i := IndexOf(s.queued, id);
    if i < |s.queued| {
      var s0 := s.(queued := RemoveAt(s.queued, i));
      var s1 := s0.(out := Answer(s0.out, id, Errored(QueueTimeout)));
      LeaveInv(s, h, s1, i);
      var d := DropOwner(s0, id);
      assert d.(out := Answer(d.out, id, Errored(QueueTimeout))) == DropOwner(s1, id);
      DispatchFrom(s, DropOwner(s1, id), h);
    }
  }

  // ---------------------------------------------------------------- work

  /** Work and the calls handed out matter to the work invariant and to unloads only. */
  lemma WorkFrame(s: Sched, h: Host, r: Sched)
    requires Inv(s, h) && WorkInv(r)
    requires r == s.(work := r.work, out := s.out.(granted := r.out.granted))
    requires s.phase.Unloading? ==> forall v :: v in s.swap.evict ==> Slots(r.work, v) == 0
    ensures Inv(r, h)
  {
    hide RecInv;
    RecFrame(s, h, r);
    hide WorkInv, Subseq, GateInv;
  }

  lemma ProxyStartWork(cfg: Config, w: Work, granted: multiset<Model>, m: Model)
    requires WorkOK(cfg, w, granted) && m in granted
    ensures Get(w.pending, m) > 0
    ensures var w' := w.(pending := Lower(w.pending, m), httpIn := Bump(w.httpIn, m));
      WorkOK(cfg, w', granted - multiset{m}) && forall k :: Slots(w', k) == Slots(w, k)
  {
    assert Get(w.pending, m) == granted[m];
    var w' := w.(pending := Lower(w.pending, m), httpIn := Bump(w.httpIn, m));
    forall k
      ensures Slots(w', k) == Slots(w, k) && QuietOK(w', k)
      ensures Get(w'.pending, k) == (granted - multiset{m})[k]
    {
      assert QuietOK(w, k) && Get(w.pending, k) == granted[k];
    }
  }

  lemma ProxyStartInv(s: Sched, h: Host, m: Model)
    requires Inv(s, h) && m in s.out.granted
    ensures var s0 := s.(out := s.out.(granted := s.out.granted - multiset{m}));
      OnProxyStart(s0, m).1 && Inv(OnProxyStart(s0, m).0, h)
  {
    ProxyStartWork(s.cfg, s.work, s.out.granted, m);
    var s0 := s.(out := s.out.(granted := s.out.granted - multiset{m}));
    WorkFrame(s, h, OnProxyStart(s0, m).0);
    hide Inv;
  }

  lemma CancelGrantedWork(cfg: Config, w: Work, granted: multiset<Model>, m: Model)
    requires WorkOK(cfg, w, granted) && m in granted
    ensures WorkOK(cfg, CancelGranted(w, m), granted - multiset{m})
    ensures forall k :: Slots(CancelGranted(w, m), k) <= Slots(w, k)
  {
    var w' := CancelGranted(w, m);
    forall k
      ensures Slots(w', k) <= Slots(w, k) && QuietOK(w', k)
      ensures Get(w'.pending, k) == (granted - multiset{m})[k]
    {
      assert QuietOK(w, k) && Get(w.pending, k) == granted[k];
    }
  }

  lemma CancelGrantedInv(s: Sched, h: Host, m: Model)
    requires Inv(s, h) && HostOK(h) && m in s.out.granted
    ensures var s0 := s.(out := s.out.(granted := s.out.granted - multiset{m}));
      Inv(OnCancelGranted(s0, h, m), h) && Settled(s, OnCancelGranted(s0, h, m), h)
  {
    hide TryDispatch, HostOK, Settled, Story;
    CancelGrantedWork(s.cfg, s.work, s.out.granted, m);
    var r := s.(work := CancelGranted(s.work, m), out := s.out.(granted := s.out.granted - multiset{m}));
    WorkFrame(s, h, r);
    StorySame(s, r, h);
    hide Inv;
    DispatchFrom(s, r, h);
  }

  lemma ServeDoneWork(cfg: Config, w: Work, granted: multiset<Model>, m: Model)
    requires WorkOK(cfg, w, granted)
    ensures WorkOK(cfg, ServeDone(w, m), granted)
    ensures forall k :: Slots(ServeDone(w, m), k) == Slots(w, k)
  {
    hide ServeDone, QuietOK, Slots, Limit;
    forall k: Model
      ensures Slots(ServeDone(w, m), k) == Slots(w, k) && QuietOK(ServeDone(w, m), k)
      ensures Get(ServeDone(w, m).pending, k) == Get(w.pending, k)
    {
      ServeDoneAt(w, m, k);
    }
  }

  lemma ServeDoneAt(w: Work, m: Model, k: Model)
    requires QuietOK(w, k)
    ensures var r := ServeDone(w, m);
      Slots(r, k) == Slots(w, k) && QuietOK(r, k) && Get(r.pending, k) == Get(w.pending, k)
  {
    ServeDoneMoves(w, m, k);
    hide ServeDone, Get;
  }

  /** The counters of one model after a serve of another or of the same. */
  lemma ServeDoneMoves(w: Work, m: Model, k: Model)
    ensures var r := ServeDone(w, m);
      var one := if k == m && Get(w.httpIn, m) > 0 then 1 else 0;
      && Get(r.pending, k) == Get(w.pending, k) && Get(r.dispatchGen, k) == Get(w.dispatchGen, k)
      && Get(r.httpIn, k) == Get(w.httpIn, k) - one && Get(r.unresolved, k) == Get(w.unresolved, k) + one
      && (Get(r.quietGen, k) == Get(w.quietGen, k)
          || (Get(r.quietGen, k) == Get(r.dispatchGen, k) && Get(r.pending, k) == 0 && Get(r.httpIn, k) == 0))
  {
    ServeDoneQuiet(w, m, k);
  }

  lemma ServeDoneQuiet(w: Work, m: Model, k: Model)
    ensures var r := ServeDone(w, m);
      || Get(r.quietGen, k) == Get(w.quietGen, k)
      || (Get(r.quietGen, k) == Get(r.dispatchGen, k) && Get(r.pending, k) == 0 && Get(r.httpIn, k) == 0)
  {
    hide Lower, Bump;
  }

  lemma ServeDoneInv(s: Sched, h: Host, m: Model)
    requires Inv(s, h) && HostOK(h)
    ensures Inv(OnServeDone(s, h, m), h) && Settled(s, OnServeDone(s, h, m), h)
  {
    hide TryDispatch, HostOK, Settled, ServeDone, Story;
    ServeDoneWork(s.cfg, s.work, s.out.granted, m);
    var r := s.(work := ServeDone(s.work, m));
    WorkFrame(s, h, r);
    StorySame(s, r, h);
    hide Inv;
    DispatchFrom(s, r, h);
  }

  lemma ApplyBackendWork(cfg: Config, w: Work, granted: multiset<Model>, m: Model, active: nat, proof: nat)
    requires WorkOK(cfg, w, granted)
    ensures WorkOK(cfg, ApplyBackend(w, m, active, proof), granted)
    ensures forall k :: Slots(ApplyBackend(w, m, active, proof), k) <= Slots(w, k)
  {
    var w' := ApplyBackend(w, m, active, proof);
    assert forall k :: Slots(w', k) <= Slots(w, k);
    assert forall k :: QuietOK(w', k) == QuietOK(w, k);
  }

  lemma BackendFrame(s: Sched, h: Host, m: Model, active: nat, proof: nat)
    requires Inv(s, h)
    ensures Inv(s.(work := ApplyBackend(s.work, m, active, proof)), h)
  {
    ApplyBackendWork(s.cfg, s.work, s.out.granted, m, active, proof);
    WorkFrame(s, h, s.(work := ApplyBackend(s.work, m, active, proof)));
    hide Inv;
  }

  lemma StatusInv(s: Sched, h: Host, m: Model, active: Option<nat>, gen: nat)
    requires Inv(s, h) && HostOK(h) && Awake(s)
    ensures Inv(OnStatus(s, h, m, active, gen), h) && Settled(s, OnStatus(s, h, m, active, gen), h)
  {
    hide Inv, HostOK, Settled, TryDispatch, ApplyBackend, Awake, Story;
    StorySame(s, s, h);
    FairStill(s, s, h);
    if active.Some? {
      BackendFrame(s, h, m, active.value, gen);
      StorySame(s, s.(work := ApplyBackend(s.work, m, active.value, gen)), h);
      DispatchFrom(s, s.(work := ApplyBackend(s.work, m, active.value, gen)), h);
    }
  }

  /** Backend work takes no slots. */
  lemma BackendWork(s: Sched, w: Work)
    requires WorkInv(s) && w == s.work.(backend := w.backend)
    ensures WorkInv(s.(work := w)) && forall k :: Slots(w, k) == Slots(s.work, k)
  {
    assert forall k :: Slots(w, k) == Slots(s.work, k) && QuietOK(w, k) == QuietOK(s.work, k);
  }

  lemma BackendQuits(s: Sched, h: Host, w: Work)
    requires Inv(s, h) && w == s.work.(backend := w.backend)
    ensures Inv(s.(work := w), h)
  {
    hide RecInv, WorkInv, QueueInv, TallyInv, GateInv, LateInv, Slots;
    BackendWork(s, w);
    WorkFrame(s, h, s.(work := w));
  }

  lemma BackendDoneInv(s: Sched, h: Host, m: Model)
    requires Inv(s, h) && HostOK(h)
    ensures Inv(OnBackendDone(s, h, m), h) && Settled(s, OnBackendDone(s, h, m), h)
  {
    hide HostOK, Settled, TryDispatch, Story, Inv;
    var w := s.work.(backend := s.work.backend - {m});
    BackendQuits(s, h, w);
    StorySame(s, s.(work := w), h);
    DispatchFrom(s, s.(work := w), h);
  }

  // ---------------------------------------------------------------- swaps and reminders

  function TakeLoad(s: Sched, i: nat): Sched {
    s.(out := s.out.(loads := RemoveAt(s.out.loads, i)))
  }

  function TakeUnload(s: Sched, i: nat): Sched {
    s.(out := s.out.(unloads := RemoveAt(s.out.unloads, i)))
  }

  function TakeReminder(s: Sched, i: nat): Sched {
    s.(out := s.out.(reminders := RemoveAt(s.out.reminders, i)))
  }

  /** A load or an unload is over: back to idle. */
  lemma IdleAgain(s: Sched, h: Host, r: Sched)
    requires Inv(s, h) && (s.phase.Loading? || s.phase.Unloading?)
    requires r == s.(phase := Idle, swap := r.swap, unloadFail := r.unloadFail,
                     out := s.out.(loads := [], unloads := []))
    requires !r.swap.began && s.unloadFail <= r.unloadFail
    ensures Inv(r, h)
  {
    hide Slots, QuietOK, Subseq;
  }

  /** The job in flight is the only one, and it is the phase's. */
  lemma AtWork(s: Sched, h: Host)
    requires Inv(s, h)
    ensures |s.out.loads| <= 1 && |s.out.unloads| <= 1
    ensures s.out.loads != [] ==> s.phase.Loading? && s.swap.target == Some(s.out.loads[0].model) && s.out.unloads == []
    ensures s.out.unloads != [] ==> s.phase.Unloading? && s.out.loads == []
    ensures s.phase.Loading? ==> !s.swap.began
  {
    hide WorkInv, QueueInv, TallyInv, GateInv, LateInv, RecInv;
  }

  /** While a load or an unload is in progress nothing excuses the head; afterwards it stays, or a new one comes. */
  lemma WorkStory(s: Sched, x: Sched, r: Sched, h: Host)
    requires Inv(s, h) && (s.phase.Loading? || s.phase.Unloading?)
    requires x.queued == s.queued && x.phase == s.phase && x.out.noted == s.out.noted && r.out.noted == s.out.noted
    requires r.queued == s.queued || (s.queued != [] && r.queued == s.queued[1..])
    ensures Story(x, r, h)
  {
    hide CoreInv, SessionInv, LiveInv, AskInv, SeenInv, TargetInv;
    if s.queued != [] && r.queued == s.queued[1..] { NewHead(s, r); }
  }

  /** What a report of a load does before it dispatches. */
  lemma EndLoadInv(s: Sched, h: Host, i: nat, fault: Option<Fault>)
    requires Inv(s, h) && i < |s.out.loads|
    ensures s.phase.Loading? && s.swap.target == Some(s.out.loads[i].model)
    ensures Inv(EndLoad(TakeLoad(s, i), fault), h)
    ensures EndLoad(TakeLoad(s, i), fault).out.loads == [] && EndLoad(TakeLoad(s, i), fault).out.unloads == []
    ensures TakeLoad(s, i).out.loads == [] && TakeLoad(s, i).out.unloads == []
    ensures Story(TakeLoad(s, i), EndLoad(TakeLoad(s, i), fault), h)
  {
    hide Inv, RemoveAt;
    AtWork(s, h);
    WorkStory(s, TakeLoad(s, i), EndLoad(TakeLoad(s, i), fault), h);
    var s0 := TakeLoad(s, i);
    var idle := s0.(phase := Idle, swap := Swap(None, [], false));
    assert RemoveAt(s.out.loads, i) == [] by { OneRemoved(s.out.loads, i); }
    IdleAgain(s, h, idle);
    if EndLoad(s0, fault) != idle {
      FailHeadInv(idle, h, match fault.value case Coded(c) => c case Uncoded => LoadFailed);
    }
  }

  lemma OneRemoved<T>(s: seq<T>, i: nat)
    requires |s| == 1 && i < |s|
    ensures RemoveAt(s, i) == []
  {
  }

  lemma SwapDoneInv(s: Sched, h: Host, i: nat, fault: Option<Fault>)
    requires Inv(s, h) && HostOK(h) && i < |s.out.loads|
    ensures var r := OnSwapDone(TakeLoad(s, i), h, s.out.loads[i].model, fault);
      Inv(r, h) && Settled(TakeLoad(s, i), r, h)
  {
    hide Inv, HostOK, RemoveAt, EndLoad, Settled, TryDispatch, Story;
    EndLoadInv(s, h, i, fault);
    DispatchFrom(TakeLoad(s, i), EndLoad(TakeLoad(s, i), fault), h);
  }

  /** What a report of an unload does before it dispatches. */
  lemma EndUnloadInv(s: Sched, h: Host, i: nat)
    requires Inv(s, h) && i < |s.out.unloads|
    ensures var r := EndUnload(TakeUnload(s, i), h);
      Inv(r, h) && r.out == TakeUnload(s, i).out && s.phase.Unloading? && Story(TakeUnload(s, i), r, h)
  {
    hide Inv, RemoveAt, OpenGates, NeededGates;
    AtWork(s, h);
    WorkStory(s, TakeUnload(s, i), EndUnload(TakeUnload(s, i), h), h);
    var idle := TakeUnload(s, i).(phase := Idle, swap := Swap(None, [], false));
    assert RemoveAt(s.out.unloads, i) == [] by { OneRemoved(s.out.unloads, i); }
    IdleAgain(s, h, idle);
    OpenGatesInv(idle, h, Elements(s.swap.evict));
    ReopenInv(idle.(gates := OpenGates(s.gates, Elements(s.swap.evict))), h);
  }

  lemma FailUnloadInv(s: Sched, h: Host, i: nat, f: Fault)
    requires Inv(s, h) && i < |s.out.unloads|
    ensures var r := FailUnload(TakeUnload(s, i), f);
      Inv(r, h) && r.out.loads == TakeUnload(s, i).out.loads && r.out.unloads == TakeUnload(s, i).out.unloads
      && s.phase.Unloading? && Story(TakeUnload(s, i), r, h)
  {
    AtWork(s, h);
    WorkStory(s, TakeUnload(s, i), FailUnload(TakeUnload(s, i), f), h);
    hide Inv, RemoveAt;
    var drained := f == Coded(DrainTimeout);
    var idle := TakeUnload(s, i).(unloadFail := if drained then s.unloadFail else s.unloadFail + Elements(s.swap.evict),
                                  phase := Idle, swap := s.swap.(began := false));
    assert RemoveAt(s.out.unloads, i) == [] by { OneRemoved(s.out.unloads, i); }
    IdleAgain(s, h, idle);
    if idle.queued != [] {
      FailHeadInv(idle, h, if drained then DrainTimeout else UnloadBlocked);
    }
  }

  lemma UnloadDoneInv(s: Sched, h: Host, i: nat, fault: Option<Fault>)
    requires Inv(s, h) && HostOK(h) && i < |s.out.unloads|
    ensures var r := OnUnloadDone(TakeUnload(s, i), h, fault);
      Inv(r, h) && Settled(TakeUnload(s, i), r, h)
      && (fault.Some? ==> Story(FailUnload(TakeUnload(s, i), fault.value), r, h))
  {
    hide Inv, HostOK, RemoveAt, EndUnload, FailUnload, FairAction, Awake, TryDispatch, Story;
    match fault
    case None =>
      EndUnloadInv(s, h, i);
      DispatchFrom(TakeUnload(s, i), EndUnload(TakeUnload(s, i), h), h);
    case Some(f) =>
      FailUnloadInv(s, h, i, f);
      var x := FailUnload(TakeUnload(s, i), f);
      StorySame(x, x, h);
      DispatchFrom(x, x, h);
      SettledFrom(TakeUnload(s, i), x, TryDispatch(x, h), h);
  }

  lemma ReminderFrame(s: Sched, h: Host, r: Sched)
    requires Inv(s, h)
    requires r == s.(gates := s.gates.(armed := false), out := s.out.(reminders := r.out.reminders))
    ensures Inv(r, h)
  {
    hide RecInv;
    RecFrame(s, h, r);
    assert GateInv(r, h.now);
    hide WorkOK, Subseq, Ids, GateInv;
  }

  lemma RemindInv(s: Sched, h: Host, i: nat)
    requires Inv(s, h) && HostOK(h) && i < |s.out.reminders|
    ensures Inv(OnRemind(TakeReminder(s, i), h), h) && Settled(s, OnRemind(TakeReminder(s, i), h), h)
  {
    hide HostOK, Settled, TryDispatch, Story;
    var s0 := TakeReminder(s, i);
    var r := s0.(gates := s0.gates.(armed := false));
    ReminderFrame(s, h, r);
    StorySame(s, r, h);
    hide Inv, RemoveAt;
    DispatchFrom(s, r, h);
  }
}
