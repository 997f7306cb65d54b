/** Vocabulary shared by the scheduler, the ledger and the runtime clients. */
module Types {

  /** Model ids, numbered in the order of their strings. */
  type Model = nat

  datatype Option<+T> = None | Some(value: T)

  /** A runtime client's local state (internal/runtime/runtime.go). */
  datatype State = Unknown | Stopped | Starting | Ready | Stopping | Failed | Shutdown

  /** The coded errors of internal/router/scheduler/errors.go. */
  datatype Cause =
    | ModelNotFound | QueueFull | QueueTimeout | DrainTimeout | UnloadBlocked
    | ShuttingDown | LoadFailed | Resources | NotBooted | LifecyclePending

  /** An error value: one of the coded ones, or anything else. */
  datatype Fault = Coded(cause: Cause) | Uncoded

  /** Reading a Go map of counters: a missing key reads as zero. */
  function Get(m: map<Model, nat>, k: Model): nat {
    if k in m then m[k] else 0
  }

  function Bump(m: map<Model, nat>, k: Model): map<Model, nat> {
    m[k := Get(m, k) + 1]
  }

  /** Decrement, deleting the key when it reaches zero. */
  function Lower(m: map<Model, nat>, k: Model): map<Model, nat>
    requires Get(m, k) > 0
  {
    if m[k] == 1 then m - {k} else m[k := m[k] - 1]
  }

  function Elements(ids: seq<Model>): set<Model> {
    set x | x in ids
  }

  function RemoveAt<T>(s: seq<T>, i: nat): seq<T> {
    if i < |s| then s[..i] + s[i + 1..] else s
  }

  ghost predicate IsLeast(m: nat, s: set<nat>) {
    m in s && forall y :: y in s ==> m <= y
  }

  lemma LeastExists(s: set<nat>)
    requires s != {}
    ensures exists m :: IsLeast(m, s)
  {
    var x :| x in s;
    var rest := s - {x};
    assert forall y :: y in s ==> y == x || y in rest;
    if rest == {} {
      assert IsLeast(x, s);
    } else {
      LeastExists(rest);
      var m :| IsLeast(m, rest);
      assert IsLeast(if x < m then x else m, s);
    }
  }

  function Least(s: set<nat>): (m: nat)
    requires s != {}
    ensures IsLeast(m, s)
  {
    LeastExists(s);
    var m: nat :| m in s && forall y :: y in s ==> m <= y;
    m
  }

  /** sort.Strings over the keys of a set. */
  function Sorted(s: set<nat>): (r: seq<nat>)
    ensures Elements(r) == s
    ensures forall i, j :: 0 <= i < j < |r| ==> r[i] < r[j]
    decreases |s|
  {
    if s == {} then
      assert Elements([]) == {};
      []
    else
      var m := Least(s);
      var rest := Sorted(s - {m});
      var r := [m] + rest;
      assert forall x :: x in r <==> x == m || x in Elements(rest);
      assert Elements(r) == s;
      assert forall k :: 0 <= k < |rest| ==> rest[k] in Elements(rest);
      r
  }

  /** The elements of ids that are not in drop, in order. */
  function Without(ids: seq<Model>, drop: set<Model>): (r: seq<Model>)
    ensures Elements(r) == Elements(ids) - drop
  {
    if ids == [] then []
    else
      var rest := Without(ids[1..], drop);
      assert Elements(ids) == {ids[0]} + Elements(ids[1..]);
      if ids[0] in drop then rest
      else
        assert Elements([ids[0]] + rest) == {ids[0]} + Elements(rest);
        [ids[0]] + rest
  }

  lemma {:induction false} WithoutNothing(ids: seq<Model>)
    ensures Without(ids, {}) == ids
    decreases |ids|
  {
    if ids != [] {
      WithoutNothing(ids[1..]);
    }
  }
}
