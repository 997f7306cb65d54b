/**
 One runtime client's loop (internal/runtime/client.go, run): local state, generations,
 the one load operation, the callers waiting for it, and the replies to recovery results.
 Each branch of the loop is one function; the class at the end is proved against them.
 */
module ClientLoop {
  import opened Types
  import opened RuntimeStatus

  /**
   `op` is the generation of the load in flight. `stopping` holds while a stop runs inside
   the loop. `accepted` and `answered` record the EnsureReady calls taken and replied to.
   */
  datatype Client = Client(
    state: State,
    gen: nat,
    op: Option<nat>,
    handler: bool,
    stopping: bool,
    waiters: seq<nat>,
    accepted: multiset<nat>,
    answered: multiset<nat>)

  const NEW_CLIENT := Client(Unknown, 0, None, false, false, [], multiset{}, multiset{})

  function Notify(c: Client): Client {
    c.(answered := c.answered + multiset(c.waiters), waiters := [])
  }

  function StartOp(c: Client): Client {
    c.(state := Starting, gen := c.gen + 1, op := Some(c.gen + 1))
  }

  function OnReady(c: Client, call: nat): Client {
    var c1 := c.(accepted := c.accepted + multiset{call});
    match c.state
    case Shutdown | Ready => c1.(answered := c.answered + multiset{call})
    case Starting => c1.(waiters := c.waiters + [call])
    case _ => StartOp(c1.(waiters := c.waiters + [call]))
  }

  function OnOpDone(c: Client, ok: bool): Client {
    var c1 := c.(op := None);
    if c.op != Some(c.gen) then c1
    else if ok then Notify(c1.(handler := true, state := Ready))
    else Notify(c1.(handler := false, state := Failed))
  }

  function OnApply(c: Client, gen: nat, rec: Class): (Client, Ack) {
    if c.state.Shutdown? then (c, Stale)
    else if c.op.Some? then (c, AckBusy)
    else if gen != c.gen then (c, Stale)
    else
      var c1 := match rec
        case ReadyIdle => c.(handler := true, state := Ready)
        case UnloadedIdle | FailedNotResidentIdle => c.(handler := false, state := Stopped)
        case _ => c;
      (c1.(gen := c.gen + 1), Applied)
  }

  /** A stop begins: the operation in flight, if any, is cancelled and awaited. */
  function BeginStop(c: Client): Client {
    if c.state.Shutdown? then c
    else c.(gen := c.gen + 1, op := None, state := Stopping, stopping := true)
  }

  function EndStop(c: Client, ok: bool): Client {
    if !c.stopping then c
    else Notify(c.(stopping := false, handler := false, state := if ok then Stopped else Failed))
  }

  /** `wire` is None when the status read failed. */
  function OnReconcile(c: Client, wire: Option<Wire>): Client {
    if c.state.Shutdown? then c
    else
      var c1 := Adopted(if c.op.None? then c.(gen := c.gen + 1) else c, wire);
      if c1.state.Starting? && c1.op.None? then StartOp(c1) else c1
  }

  /** The backend's state taken over. */
  function Adopted(c: Client, wire: Option<Wire>): Client {
    match wire
    case None => c.(state := Unknown, handler := false)
    case Some(WireReady) => c.(state := Ready, handler := true)
    case Some(WireUnloaded) => c.(state := Stopped, handler := false)
    case Some(WireLoading) => c.(state := Starting)
    case Some(WireUnloading) => c.(state := Stopping)
    case Some(WireFailed) => c.(state := Failed, handler := false)
    case Some(WireOther) => c.(state := Unknown)
  }

  function OnParentDone(c: Client): Client {
    Notify(c.(state := Shutdown, handler := false))
  }

  // ---------------------------------------------------------------- the invariant

  /**
   Before shutdown: starting is having the current operation in flight, ready is having a
   handler (a running stop keeps it until it ends), callers wait only for an operation or
   a stop, and every accepted call is answered or waiting, once.
   */
  ghost predicate ClientInv(c: Client) {
    StateInv(c) && CallsInv(c)
  }

  ghost predicate StateInv(c: Client) {
    && (c.state.Starting? <==> c.op.Some?)
    && (c.op.Some? ==> c.op.value == c.gen)
    && (!c.stopping ==> (c.state.Ready? <==> c.handler))
    && (c.stopping ==> c.state.Stopping?)
    && (c.waiters != [] ==> c.op.Some? || c.stopping)
  }

  ghost predicate CallsInv(c: Client) {
    c.accepted == c.answered + multiset(c.waiters)
  }

  /** The things that happen to a client before shutdown. */
  datatype ClientEvent =
    | Ensure(call: nat)
    | OpEnds(ok: bool)
    | Recovery(gen: nat, rec: Class)
    | StopBegins
    | StopEnds(ok: bool)

  ghost predicate Allowed(c: Client, e: ClientEvent) {
    match e
    case OpEnds(_) => !c.stopping && c.op.Some?
    case StopEnds(_) => c.stopping
    case _ => !c.stopping
  }

  function Stepped(c: Client, e: ClientEvent): Client
    requires Allowed(c, e)
  {
    match e
    case Ensure(call) => OnReady(c, call)
    case OpEnds(ok) => OnOpDone(c, ok)
    case Recovery(gen, rec) => OnApply(c, gen, rec).0
    case StopBegins => BeginStop(c)
    case StopEnds(ok) => EndStop(c, ok)
  }

  lemma ClientStep(c: Client, e: ClientEvent)
    requires ClientInv(c) && Allowed(c, e)
    ensures var r := Stepped(c, e);
      && ClientInv(r)
      && r.gen >= c.gen
      && (e.OpEnds? || e.StopEnds? ==> r.waiters == [] && r.answered == c.answered + multiset(c.waiters))
  {
    hide CallsInv;
    CallsStep(c, e);
    CallsMove(c, e);
    StateStep(c, e);
    hide StateInv, Stepped;
  }

  lemma StateStep(c: Client, e: ClientEvent)
    requires StateInv(c) && Allowed(c, e)
    ensures StateInv(Stepped(c, e)) && Stepped(c, e).gen >= c.gen
  {
    match e
    case Ensure(_) =>
    case OpEnds(_) =>
    case Recovery(_, _) =>
    case StopBegins =>
    case StopEnds(_) =>
  }

  /** How an event moves calls between the waiting and the answered. */
  lemma CallsMove(c: Client, e: ClientEvent)
    requires StateInv(c) && Allowed(c, e)
    ensures var r := Stepped(c, e);
      match e
      case Ensure(call) =>
        r.accepted == c.accepted + multiset{call}
        && ((r.answered == c.answered + multiset{call} && r.waiters == c.waiters)
            || (r.answered == c.answered && r.waiters == c.waiters + [call]))
      case Recovery(_, _) | StopBegins => r.accepted == c.accepted && r.answered == c.answered && r.waiters == c.waiters
      case _ => r.accepted == c.accepted && r.answered == c.answered + multiset(c.waiters) && r.waiters == []
  {
    hide CallsInv;
  }

  lemma CallsStep(c: Client, e: ClientEvent)
    requires CallsInv(c) && StateInv(c) && Allowed(c, e)
    ensures CallsInv(Stepped(c, e))
  {
    hide StateInv, Allowed, Stepped;
    CallsMove(c, e);
    if e.Ensure? {
      assert multiset(c.waiters + [e.call]) == multiset(c.waiters) + multiset{e.call};
    }
  }

  /** Shutdown answers everyone still waiting. */
  lemma ShutdownAnswers(c: Client)
    requires ClientInv(c)
    ensures var r := OnParentDone(c);
      r.accepted == r.answered && r.waiters == [] && !r.handler
  {
  }

  /**
   A reconcile keeps the invariant exactly when it does not overtake an operation in
   flight and does not strand an installed handler. At boot there is neither.
   */
  lemma ReconcileKeepsExactly(c: Client, wire: Option<Wire>)
    requires ClientInv(c) && !c.stopping && !c.state.Shutdown?
    ensures ClientInv(OnReconcile(c, wire)) <==>
              (c.op.Some? ==> wire == Some(WireLoading))
              && (c.handler ==> wire !in {Some(WireLoading), Some(WireUnloading), Some(WireOther)})
  {
    hide StateInv, OnReconcile;
    ReconcileCalls(c, wire);
    ReconcileState(c, wire);
  }

  lemma ReconcileCalls(c: Client, wire: Option<Wire>)
    ensures var r := OnReconcile(c, wire);
      r.accepted == c.accepted && r.answered == c.answered && r.waiters == c.waiters
  {
    hide StateInv;
    match wire
    case None =>
    case Some(_) =>
  }

  lemma ReconcileState(c: Client, wire: Option<Wire>)
    requires StateInv(c) && !c.stopping && !c.state.Shutdown?
    ensures StateInv(OnReconcile(c, wire)) <==>
              (c.op.Some? ==> wire == Some(WireLoading))
              && (c.handler ==> wire !in {Some(WireLoading), Some(WireUnloading), Some(WireOther)})
  {
  }

  // ---------------------------------------------------------------- runs

  ghost predicate IsClientRun(c: Client, es: seq<ClientEvent>)
    decreases |es|
  {
    es == [] || (Allowed(c, es[0]) && IsClientRun(Stepped(c, es[0]), es[1..]))
  }

  /** The recovery results captured at one generation that the client applied. */
  function AppliedAt(c: Client, es: seq<ClientEvent>, gen: nat): nat
    requires IsClientRun(c, es)
    decreases |es|
  {
    if es == [] then 0
    else
      (if es[0].Recovery? && es[0].gen == gen && OnApply(c, gen, es[0].rec).1.Applied? then 1 else 0)
      + AppliedAt(Stepped(c, es[0]), es[1..], gen)
  }

  /** At most one result captured at a generation is ever applied. */
  lemma {:induction false} AppliedOnce(c: Client, es: seq<ClientEvent>, gen: nat)
    requires ClientInv(c) && IsClientRun(c, es)
    ensures AppliedAt(c, es, gen) <= (if gen < c.gen then 0 else 1)
    decreases |es|
  {
    if es != [] {
      ClientStep(c, es[0]);
      AppliedOnce(Stepped(c, es[0]), es[1..], gen);
    }
  }

  /** Over a whole run every accepted call is answered or waiting, exactly once. */
  lemma {:induction false} CallsAreAnsweredOnce(c: Client, es: seq<ClientEvent>)
    requires ClientInv(c) && IsClientRun(c, es)
    ensures ClientInv(AfterRun(c, es))
    decreases |es|
  {
    if es != [] {
      ClientStep(c, es[0]);
      CallsAreAnsweredOnce(Stepped(c, es[0]), es[1..]);
    }
  }

  function AfterRun(c: Client, es: seq<ClientEvent>): Client
    requires IsClientRun(c, es)
    decreases |es|
  {
    if es == [] then c else AfterRun(Stepped(c, es[0]), es[1..])
  }

  // ---------------------------------------------------------------- the loop's own form

  /** The fields the run loop keeps, one method a branch of its select. */
  class Loop {
    var state: State
    var gen: nat
    var op: Option<nat>
    var handler: bool
    var stopping: bool
    var waiters: seq<nat>
    ghost var accepted: multiset<nat>
    ghost var answered: multiset<nat>

    ghost function View(): Client
      reads this
    {
      Client(state, gen, op, handler, stopping, waiters, accepted, answered)
    }

    constructor ()
      ensures View() == NEW_CLIENT
    {
      state, gen, op, handler, stopping := Unknown, 0, None, false, false;
      waiters, accepted, answered := [], multiset{}, multiset{};
    }

    method NotifyAll()
      modifies this
      ensures View() == Notify(old(View()))
    {
      answered := answered + multiset(waiters);
      waiters := [];
    }

    method Start()
      modifies this
      ensures View() == StartOp(old(View()))
    {
      state := Starting;
      gen := gen + 1;
      op := Some(gen);
    }

    method EnsureReady(call: nat)
      modifies this
      ensures View() == OnReady(old(View()), call)
    {
      hide StartOp;
      accepted := accepted + multiset{call};
      match state
      case Shutdown => answered := answered + multiset{call};
      case Ready => answered := answered + multiset{call};
      case Starting => waiters := waiters + [call];
      case _ =>
        waiters := waiters + [call];
        Start();
    }

    method OpDone(ok: bool)
      requires op.Some?
      modifies this
      ensures View() == OnOpDone(old(View()), ok)
    {
      var done := op.value;
      op := None;
      if done != gen {
        return;
      }
      if !ok {
        handler := false;
        state := Failed;
        NotifyAll();
        return;
      }
      handler := true;
      state := Ready;
      NotifyAll();
    }

    method Apply(captured: nat, rec: Class) returns (ack: Ack)
      modifies this
      ensures (View(), ack) == OnApply(old(View()), captured, rec)
    {
      if state.Shutdown? {
        return Stale;
      }
      if op.Some? {
        return AckBusy;
      }
      if captured != gen {
        return Stale;
      }
      match rec {
        case ReadyIdle => handler := true; state := Ready;
        case UnloadedIdle => handler := false; state := Stopped;
        case FailedNotResidentIdle => handler := false; state := Stopped;
        case _ =>
      }
      gen := gen + 1;
      ack := Applied;
    }

    method StopBegin()
      modifies this
      ensures View() == BeginStop(old(View()))
    {
      if state.Shutdown? {
        return;
      }
      gen := gen + 1;
      op := None;
      state := Stopping;
      stopping := true;
    }

    method StopEnd(ok: bool)
      requires stopping
      modifies this
      ensures View() == EndStop(old(View()), ok)
    {
      stopping := false;
      handler := false;
      state := if ok then Stopped else Failed;
      NotifyAll();
    }

    method Adopt(wire: Option<Wire>)
      modifies this`state, this`handler
      ensures View() == Adopted(old(View()), wire)
    {
      match wire {
        case None => state := Unknown; handler := false;
        case Some(WireReady) => handler := true; state := Ready;
        case Some(WireUnloaded) => handler := false; state := Stopped;
        case Some(WireLoading) => state := Starting;
        case Some(WireUnloading) => state := Stopping;
        case Some(WireFailed) => handler := false; state := Failed;
        case Some(WireOther) => state := Unknown;
      }
    }

    method Reconcile(wire: Option<Wire>)
      modifies this
      ensures View() == OnReconcile(old(View()), wire)
    {
      hide Adopted;
      if state.Shutdown? {
        return;
      }
      if op.None? {
        gen := gen + 1;
      }
      Adopt(wire);
      if state.Starting? && op.None? {
        Start();
      }
    }

    method ParentDone()
      modifies this
      ensures View() == OnParentDone(old(View()))
    {
      state := Shutdown;
      handler := false;
      NotifyAll();
    }
  }
}
