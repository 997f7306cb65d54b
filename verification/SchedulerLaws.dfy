/**
 What every step of the scheduler keeps. `Inv(s, h)` couples the scheduler to the
 host it reads; the host does not change while one event is handled.
 */
module SchedulerLaws {
  import opened Types
  import opened Scheduler

  // ---------------------------------------------------------------- the invariant

  ghost predicate QuietOK(w: Work, m: Model) {
    Get(w.quietGen, m) != 0 ==>
      Get(w.quietGen, m) == Get(w.dispatchGen, m) && Get(w.pending, m) == 0 && Get(w.httpIn, m) == 0
  }

  /** The concurrency bound, the idle generations, and pending as delivered calls. */
  ghost predicate WorkOK(cfg: Config, w: Work, granted: multiset<Model>) {
    && (forall m :: Slots(w, m) <= Limit(cfg, m))
    && (forall m :: QuietOK(w, m))
    && (forall m :: Get(w.pending, m) == granted[m])
  }

  ghost predicate WorkInv(s: Sched) {
    WorkOK(s.cfg, s.work, s.out.granted)
  }

  function Ids(q: seq<Req>): (ids: seq<nat>)
    ensures |ids| == |q|
    ensures forall i :: 0 <= i < |q| ==> ids[i] == q[i].id
  {
    seq(|q|, i requires 0 <= i < |q| => q[i].id)
  }

  ghost predicate Distinct(ids: seq<nat>) {
    forall i, j :: 0 <= i < j < |ids| ==> ids[i] != ids[j]
  }

  ghost predicate QueueInv(s: Sched, h: Host) {
    && |s.queued| <= s.cfg.maxQ
    && Distinct(Ids(s.queued))
    && (forall i :: 0 <= i < |s.queued| ==>
          s.queued[i].id != 0 && s.queued[i].id in s.out.admitted && s.queued[i].model in h.states)
  }

  /** a is a subsequence of b. */
  ghost predicate Subseq(a: seq<nat>, b: seq<nat>) {
    if a == [] then true
    else if b == [] then false
    else if a[|a| - 1] == b[|b| - 1] then Subseq(a[..|a| - 1], b[..|b| - 1])
    else Subseq(a, b[..|b| - 1])
  }

  /** Every admitted request is queued, answered or cancelled, once; service follows admission order. */
  ghost predicate TallyInv(s: Sched) {
    && multiset(Ids(s.queued)) + s.out.answered + s.out.cancelled == multiset(s.out.admitted)
    && Subseq(s.out.served + Ids(s.queued), s.out.admitted)
  }

  ghost predicate DueBy(g: Gates, drain: int, now: int, due: int) {
    due <= now + drain && forall v :: v in g.at ==> due <= g.at[v] + drain
  }

  ghost predicate GateInv(s: Sched, now: int) {
    && s.cfg.drain > 0
    && s.gates.at.Keys == s.gates.closed
    && (forall v :: v in s.gates.at ==> s.gates.at[v] <= now)
    && (s.gates.armed ==>
          exists i :: 0 <= i < |s.out.reminders| && DueBy(s.gates, s.cfg.drain, now, s.out.reminders[i]))
  }

  ghost predicate Quiet(w: Work, ids: seq<Model>) {
    forall v :: v in ids ==> Slots(w, v) == 0
  }

  /** At most one load or unload is outstanding, and the phase says which. */
  ghost predicate LifeInv(s: Sched) {
    && (if s.phase.Loading?
        then |s.out.loads| == 1 && s.swap.target == Some(s.out.loads[0].model)
        else s.out.loads == [])
    && (if s.phase.Unloading?
        then |s.out.unloads| == 1 && s.out.unloads[0].ids == s.swap.evict && s.swap.began
             && Quiet(s.work, s.swap.evict)
        else s.out.unloads == [] && !s.swap.began)
  }

  predicate InSession(s: Sched) { s.phase.Recover? || s.phase.Sample? }

  ghost predicate SessionInv(s: Sched, h: Host) {
    && (InSession(s) ==>
          && s.queued != []
          && s.session.owner == s.queued[0].id
          && s.session.model == s.queued[0].model
          && 0 < s.session.token <= s.book.tokenSeq
          && s.session.needSample == h.markers)
    && (s.phase.Sample? ==> s.session.needSample != {})
    && (!InSession(s) ==> s.session.owner == 0 && s.session.token == 0)
  }

  /** A probe in flight is alone, and its model still is what made it worth asking. */
  ghost predicate ProbeOK(s: Sched, h: Host) {
    && |s.out.probes| <= 1
    && s.book.started == (if s.out.probes == [] then map[]
                          else map[s.out.probes[0].model := s.out.probes[0].token])
    && (s.out.probes != [] ==>
          var p := s.out.probes[0];
          && 0 < p.token <= s.book.tokenSeq
          && p.model in Suspects(h, s.unloadFail) && p.model !in h.inFlight
          && p.gen == Get(h.gens, p.model)
          && (p.proof != 0 ==> p.proof == p.grants && p.busy == 0))
  }

  ghost predicate LiveInv(s: Sched, h: Host) {
    && ProbeOK(s, h)
    && (s.phase.Recover? ==>
          s.out.probes != [] && s.session.current == Some(s.out.probes[0].model)
          && s.out.probes[0].token == s.session.token && !s.session.skipRest)
  }

  /** What the running session still means to ask is still worth asking. */
  ghost predicate AskInv(s: Sched, h: Host) {
    s.phase.Recover? ==>
      forall m :: m in s.session.order && m !in s.session.checked ==>
        m in Suspects(h, s.unloadFail)
        && (m in SeenBy(s.book, s.session.owner) ==> s.session.current == Some(m))
  }

  /** Each request asks about each model at most once; only the head has asked anything. */
  ghost predicate SeenInv(s: Sched) {
    && (forall o :: o in s.book.seen ==> o in s.out.admitted)
    && (forall i :: 0 < i < |s.queued| ==> s.queued[i].id !in s.book.seen)
    && (!s.phase.Recover? && s.queued != [] && s.out.probes != [] ==> s.queued[0].id !in s.book.seen)
    && (forall o, m :: (o, m) in s.out.noted ==> o in s.book.seen)
    && (forall o, m :: s.out.begun[(o, m)] <= 1)
    && (forall o, m :: s.out.begun[(o, m)] > 0 ==> m in SeenBy(s.book, o))
    && (s.queued != [] ==>
          forall m :: m in SeenBy(s.book, s.queued[0].id) ==>
            (s.queued[0].id, m) in s.out.noted || (s.phase.Recover? && s.session.current == Some(m)))
  }

  /**
   A load or an unload in progress is not of a marked model, nor of one being asked about,
   and it is for the head unless the head is new; only known models are asked about.
   */
  ghost predicate TargetInv(s: Sched, h: Host) {
    && (s.phase.Loading? && s.swap.target.Some? ==>
          s.swap.target.value !in h.markers && s.swap.target.value !in s.book.started)
    && (s.phase.Unloading? ==>
          |s.swap.evict| == 1 && s.swap.evict[0] in h.states
          && forall v :: v in s.swap.evict ==> v !in h.markers && v !in s.book.started)
    && (forall o, m :: s.out.begun[(o, m)] > 0 ==> m in h.states)
    && ((s.phase.Loading? || s.phase.Unloading?) && s.queued != [] ==>
          s.swap.target == Some(s.queued[0].model) || s.queued[0].id !in s.book.seen)
  }

  /** A late token is welcome only while nothing was started since its session was dropped. */
  ghost predicate LateInv(s: Sched) {
    && (forall t :: t in s.book.late ==> t in s.out.droppedAt && s.out.droppedAt[t] == s.out.actions)
    && (s.book.late != {} ==> s.phase.Idle?)
  }

  /** Queue, work, gates and lifecycle. */
  ghost predicate CoreInv(s: Sched, h: Host) {
    && WorkInv(s) && QueueInv(s, h) && TallyInv(s) && GateInv(s, h.now) && LifeInv(s) && LateInv(s)
  }

  /** Recovery sessions and probes. */
  ghost predicate RecInv(s: Sched, h: Host) {
    && SessionInv(s, h) && LiveInv(s, h) && AskInv(s, h) && SeenInv(s) && TargetInv(s, h)
  }

  ghost predicate Inv(s: Sched, h: Host) {
    CoreInv(s, h) && RecInv(s, h)
  }

  /** What the ledger and the clients promise about the host's answers. */
  ghost predicate HostOK(h: Host) {
    && (forall m :: m in h.markers ==> m in h.states && h.states[m].Stopped? && m !in h.inFlight)
    && (forall m :: m in h.inFlight ==> m in h.states && h.states[m].Starting?)
    && (forall t :: t in h.decide && h.decide[t].Evict? && h.decide[t].ids != [] ==>
          |h.decide[t].ids| == 1 && h.decide[t].ids[0] in h.states
          && h.states[h.decide[t].ids[0]].Ready? && !StateOf(h, t).Ready?)
    && (forall t :: t in h.decide && StateOf(h, t).Ready? ==> h.decide[t] == Evict([]))
  }

  // ---------------------------------------------------------------- sequences of requests

  lemma IdsPop(q: seq<Req>)
    requires q != []
    ensures Ids(q) == [q[0].id] + Ids(q[1..])
    ensures multiset(Ids(q)) == multiset{q[0].id} + multiset(Ids(q[1..]))
  {
    assert Ids(q) == [q[0].id] + Ids(q[1..]);
  }

  lemma IdsRemove(q: seq<Req>, i: nat)
    requires i < |q|
    ensures Ids(RemoveAt(q, i)) == RemoveAt(Ids(q), i)
    ensures multiset(Ids(q)) == multiset{q[i].id} + multiset(Ids(RemoveAt(q, i)))
  {
    var ids := Ids(q);
    assert Ids(RemoveAt(q, i)) == RemoveAt(ids, i);
    assert ids == ids[..i] + [ids[i]] + ids[i + 1..];
  }

  lemma IdsAppend(q: seq<Req>, r: Req)
    ensures Ids(q + [r]) == Ids(q) + [r.id]
    ensures multiset(Ids(q + [r])) == multiset(Ids(q)) + multiset{r.id}
  {
    assert Ids(q + [r]) == Ids(q) + [r.id];
  }

  lemma {:induction false} SubseqRemove(a: seq<nat>, b: seq<nat>, i: nat)
    requires i < |a| && Subseq(a, b)
    ensures Subseq(RemoveAt(a, i), b)
    decreases |b|
  {
    var b' := b[..|b| - 1];
    if a[|a| - 1] == b[|b| - 1] {
      var a' := a[..|a| - 1];
      if i == |a| - 1 {
        assert RemoveAt(a, i) == a';
        SubseqDrop(a', b', b);
      } else {
        SubseqRemove(a', b', i);
        var r := RemoveAt(a, i);
        assert r[|r| - 1] == a[|a| - 1];
        assert r[..|r| - 1] == RemoveAt(a', i);
      }
    } else {
      SubseqRemove(a, b', i);
      SubseqDrop(RemoveAt(a, i), b', b);
    }
  }

  /** A subsequence of a prefix is a subsequence. */
  lemma {:induction false} SubseqDrop(a: seq<nat>, b': seq<nat>, b: seq<nat>)
    requires b != [] && b' == b[..|b| - 1] && Subseq(a, b')
    ensures Subseq(a, b)
    decreases |b|, 0
  {
    if a != [] && a[|a| - 1] == b[|b| - 1] {
      SubseqInit(a, b');
    }
  }

  lemma {:induction false} SubseqInit(a: seq<nat>, b: seq<nat>)
    requires a != [] && Subseq(a, b)
    ensures Subseq(a[..|a| - 1], b)
    decreases |b|, 1
  {
    var b' := b[..|b| - 1];
    if a[|a| - 1] == b[|b| - 1] {
      SubseqDrop(a[..|a| - 1], b', b);
    } else {
      SubseqInit(a, b');
      SubseqDrop(a[..|a| - 1], b', b);
    }
  }

  lemma SubseqAppend(a: seq<nat>, b: seq<nat>, x: nat)
    requires Subseq(a, b)
    ensures Subseq(a + [x], b + [x])
  {
    assert (a + [x])[..|a|] == a && (b + [x])[..|b|] == b;
  }
}
