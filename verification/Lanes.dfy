/**
 The promise chains that serialise work on one key: `enqueue` of AuthorityService, and `withLock` of
 the memory owner and replay stores.  A call waits for the promise its predecessor left in the map,
 runs, settles one way or the other, and only then is its own promise (`run.then(noop, noop)`, or the
 released gate behind `prev`) resolved for the next call.
 */
module Lanes {
  import opened Results

  datatype Phase = Waiting | Running | Settled(ok: bool)

  /** `tail` says that the promise this call left in the map has resolved. */
  datatype Call = Call(key: string, prev: Option<nat>, phase: Phase, tail: bool)

  datatype State = State(calls: seq<Call>, last: map<string, nat>)

  const START := State([], map[])

  datatype Step = Submit(key: string) | Start(c: nat) | Settle(c: nat, ok: bool) | Relay(c: nat)

  predicate Ready(s: State, c: nat)
    requires c < |s.calls|
  {
    s.calls[c].prev.None? || (s.calls[c].prev.value < |s.calls| && s.calls[s.calls[c].prev.value].tail)
  }

  predicate Enabled(s: State, l: Step)
  {
    match l
    case Submit(_) => true
    case Start(c) => c < |s.calls| && s.calls[c].phase == Waiting && Ready(s, c)
    case Settle(c, _) => c < |s.calls| && s.calls[c].phase == Running
    case Relay(c) => c < |s.calls| && s.calls[c].phase.Settled? && !s.calls[c].tail
  }

  function Do(s: State, l: Step): State
    requires Enabled(s, l)
  {
    match l
    case Submit(k) =>
      State(s.calls + [Call(k, if k in s.last then Some(s.last[k]) else None, Waiting, false)], s.last[k := |s.calls|])
    case Start(c) => s.(calls := s.calls[c := s.calls[c].(phase := Running)])
    case Settle(c, ok) => s.(calls := s.calls[c := s.calls[c].(phase := Phase.Settled(ok))])
    case Relay(c) => s.(calls := s.calls[c := s.calls[c].(tail := true)])
  }

  /** A run: a list of steps, each enabled after the ones before it. */
  ghost predicate Legal(ls: seq<Step>)
    decreases |ls|, 0
  {
    ls == [] || (Legal(ls[..|ls| - 1]) && Enabled(After(ls[..|ls| - 1]), ls[|ls| - 1]))
  }

  ghost function After(ls: seq<Step>): State
    requires Legal(ls)
    decreases |ls|, 1
  {
    if ls == [] then START else Do(After(ls[..|ls| - 1]), ls[|ls| - 1])
  }

  // ----- what every step keeps -----

  /** `p` is the newest call on `k` among the first `n`. */
  predicate Newest(calls: seq<Call>, n: nat, k: string, p: Option<nat>)
    requires n <= |calls|
  {
    match p
    case None => forall i :: 0 <= i < n ==> calls[i].key != k
    case Some(q) => q < n && calls[q].key == k && forall i :: q < i < n ==> calls[i].key != k
  }

  function LastOn(s: State, k: string): Option<nat>
  {
    if k in s.last then Some(s.last[k]) else None
  }

  ghost predicate Inv(s: State)
  {
    && (forall k :: Newest(s.calls, |s.calls|, k, LastOn(s, k)))
    && (forall c :: 0 <= c < |s.calls| ==> Newest(s.calls, c, s.calls[c].key, s.calls[c].prev))
    && (forall c :: 0 <= c < |s.calls| && s.calls[c].phase != Waiting ==> Ready(s, c))
    && (forall c :: 0 <= c < |s.calls| && s.calls[c].tail ==> s.calls[c].phase.Settled?)
  }

  lemma SubmitKeeps(s: State, key: string)
    requires Inv(s)
    ensures Inv(Do(s, Submit(key)))
  {
    var t := Do(s, Submit(key));
    var n := |s.calls|;
    assert forall c :: 0 <= c < n ==> t.calls[c] == s.calls[c];
    assert t.calls[n].prev == LastOn(s, key);
    forall k ensures Newest(t.calls, n + 1, k, LastOn(t, k)) {
      assert Newest(s.calls, n, k, LastOn(s, k));
    }
    forall c | 0 <= c < n + 1 ensures Newest(t.calls, c, t.calls[c].key, t.calls[c].prev) {
      if c < n {
        assert Newest(s.calls, c, s.calls[c].key, s.calls[c].prev);
      } else {
        assert Newest(s.calls, n, key, LastOn(s, key));
      }
    }
  }

  lemma MoveKeeps(s: State, l: Step)
    requires Inv(s) && !l.Submit? && Enabled(s, l)
    ensures Inv(Do(s, l))
  {
    var t := Do(s, l);
    assert forall c :: 0 <= c < |s.calls| ==> t.calls[c].key == s.calls[c].key && t.calls[c].prev == s.calls[c].prev;
    forall k ensures Newest(t.calls, |t.calls|, k, LastOn(t, k)) {
      assert Newest(s.calls, |s.calls|, k, LastOn(s, k));
    }
    forall c | 0 <= c < |t.calls| ensures Newest(t.calls, c, t.calls[c].key, t.calls[c].prev) {
      assert Newest(s.calls, c, s.calls[c].key, s.calls[c].prev);
    }
  }

  lemma StepKeeps(s: State, l: Step)
    requires Inv(s) && Enabled(s, l)
    ensures Inv(Do(s, l))
  {
    hide Inv;
    if l.Submit? { SubmitKeeps(s, l.key); } else { MoveKeeps(s, l); }
  }

  lemma {:induction false} InvHolds(ls: seq<Step>)
    requires Legal(ls)
    ensures Inv(After(ls))
  {
    if ls != [] {
      InvHolds(ls[..|ls| - 1]);
      hide Inv, Enabled, Do;
      StepKeeps(After(ls[..|ls| - 1]), ls[|ls| - 1]);
    }
  }

  // ----- what the lanes promise -----

  lemma {:induction false} EarlierSettled(s: State, c: nat, d: nat)
    requires Inv(s) && c < d < |s.calls| && s.calls[c].key == s.calls[d].key && s.calls[d].phase != Waiting
    ensures s.calls[c].phase.Settled? && s.calls[c].tail
    decreases d
  {
    var p := s.calls[d].prev;
    assert Newest(s.calls, d, s.calls[d].key, p);
    assert Ready(s, d);
    if p.value != c { EarlierSettled(s, c, p.value); }
  }

  /** Submission order, no overlap: a task has begun only if every earlier one on its key is over. */
  lemma InOrder(ls: seq<Step>, c: nat, d: nat)
    requires Legal(ls) && c < d < |After(ls).calls| && After(ls).calls[c].key == After(ls).calls[d].key
    ensures After(ls).calls[d].phase != Waiting ==> After(ls).calls[c].phase.Settled?
    ensures !(After(ls).calls[c].phase == Running && After(ls).calls[d].phase == Running)
  {
    InvHolds(ls);
    var s := After(ls);
    if s.calls[d].phase != Waiting { EarlierSettled(s, c, d); }
  }

  /** The first call on a key that is not over, and the ones before it. */
  ghost predicate Head(s: State, d: nat)
  {
    d < |s.calls| && !s.calls[d].phase.Settled?
    && forall c :: 0 <= c < d && s.calls[c].key == s.calls[d].key ==> s.calls[c].phase.Settled?
  }

  lemma HeadMayMove(s: State, d: nat)
    requires Inv(s) && Head(s, d)
    ensures s.calls[d].phase == Running || Enabled(s, Start(d))
      || (s.calls[d].prev.Some? && Enabled(s, Relay(s.calls[d].prev.value))
          && Enabled(Do(s, Relay(s.calls[d].prev.value)), Start(d)))
  {
    assert Newest(s.calls, d, s.calls[d].key, s.calls[d].prev);
  }

  /**
   Nothing gets stuck behind a failure: the head of a lane runs, may start, or waits for one relay
   that is enabled, whether its predecessor succeeded or failed.
   */
  lemma HeadMoves(ls: seq<Step>, d: nat)
    requires Legal(ls) && Head(After(ls), d)
    ensures var s := After(ls);
      s.calls[d].phase == Running || Enabled(s, Start(d))
      || (s.calls[d].prev.Some? && Enabled(s, Relay(s.calls[d].prev.value))
          && Enabled(Do(s, Relay(s.calls[d].prev.value)), Start(d)))
  {
    InvHolds(ls);
    HeadMayMove(After(ls), d);
    hide *;
  }

  // ----- the lanes are queues -----

  function PendingUpto(calls: seq<Call>, n: nat, key: string): seq<nat>
    requires n <= |calls|
  {
    if n == 0 then []
    else
      PendingUpto(calls, n - 1, key) + (if calls[n - 1].key == key && !calls[n - 1].phase.Settled? then [n - 1] else [])
  }

  /** The calls on a key that are not over, oldest first. */
  function Pending(s: State, key: string): seq<nat>
  {
    PendingUpto(s.calls, |s.calls|, key)
  }

  lemma {:induction false} OldestPending(calls: seq<Call>, n: nat, c: nat)
    requires c < n <= |calls| && !calls[c].phase.Settled?
    requires forall i :: 0 <= i < c && calls[i].key == calls[c].key ==> calls[i].phase.Settled?
    ensures PendingUpto(calls, n, calls[c].key) != [] && PendingUpto(calls, n, calls[c].key)[0] == c
  {
    if c + 1 < n {
      OldestPending(calls, n - 1, c);
    } else {
      PendingNothing(calls, c, calls[c].key);
    }
  }

  lemma {:induction false} PendingSame(a: seq<Call>, b: seq<Call>, n: nat, key: string)
    requires n <= |a| && n <= |b|
    requires forall c :: 0 <= c < n ==>
      a[c].key == b[c].key && (a[c].key == key ==> (a[c].phase.Settled? <==> b[c].phase.Settled?))
    ensures PendingUpto(a, n, key) == PendingUpto(b, n, key)
  {
    if n != 0 { PendingSame(a, b, n - 1, key); }
  }

  lemma {:induction false} PendingPops(a: seq<Call>, c: nat, ok: bool, n: nat)
    requires c < n <= |a| && !a[c].phase.Settled?
    requires forall i :: 0 <= i < c && a[i].key == a[c].key ==> a[i].phase.Settled?
    ensures var b := a[c := a[c].(phase := Phase.Settled(ok))];
      PendingUpto(a, n, a[c].key) == [c] + PendingUpto(b, n, a[c].key)
  {
    var b := a[c := a[c].(phase := Phase.Settled(ok))];
    if c + 1 < n {
      PendingPops(a, c, ok, n - 1);
    } else {
      PendingNothing(a, c, a[c].key);
      PendingNothing(b, c, a[c].key);
    }
  }

  lemma {:induction false} PendingNothing(a: seq<Call>, n: nat, key: string)
    requires n <= |a| && forall i :: 0 <= i < n && a[i].key == key ==> a[i].phase.Settled?
    ensures PendingUpto(a, n, key) == []
  {
    if n != 0 { PendingNothing(a, n - 1, key); }
  }

  /** The oldest call that is not over is the head of its lane. */
  lemma {:induction false} FirstPending(s: State, n: nat, key: string)
    requires n <= |s.calls| && PendingUpto(s.calls, n, key) != []
    ensures var d := PendingUpto(s.calls, n, key)[0]; d < n && s.calls[d].key == key && Head(s, d)
  {
    if PendingUpto(s.calls, n - 1, key) != [] {
      FirstPending(s, n - 1, key);
    } else {
      NothingPending(s.calls, n - 1, key);
    }
  }

  lemma {:induction false} NothingPending(calls: seq<Call>, n: nat, key: string)
    requires n <= |calls| && PendingUpto(calls, n, key) == []
    ensures forall i :: 0 <= i < n && calls[i].key == key ==> calls[i].phase.Settled?
  {
    if n != 0 { NothingPending(calls, n - 1, key); }
  }

  /** What a step does to the queue of a key. */
  predicate QueueMoves(s: State, l: Step, key: string)
    requires Enabled(s, l)
  {
    var before, after := Pending(s, key), Pending(Do(s, l), key);
    match l
    case Submit(k) => after == before + (if k == key then [|s.calls|] else [])
    case Start(c) => after == before && (s.calls[c].key == key ==> before != [] && before[0] == c)
    case Settle(c, _) => before == (if s.calls[c].key == key then [c] else []) + after
    case Relay(_) => after == before
  }

  lemma StepIsQueue(s: State, l: Step, key: string)
    requires Inv(s) && Enabled(s, l)
    ensures QueueMoves(s, l, key)
  {
    var t := Do(s, l);
    match l
    case Submit(k) =>
      PendingSame(s.calls, t.calls, |s.calls|, key);
    case Start(c) =>
      PendingSame(s.calls, t.calls, |s.calls|, key);
      if s.calls[c].key == key {
        MoveKeeps(s, l);
        forall i | 0 <= i < c && s.calls[i].key == key ensures s.calls[i].phase.Settled? { EarlierSettled(t, i, c); }
        OldestPending(s.calls, |s.calls|, c);
      }
    case Settle(c, ok) =>
      if s.calls[c].key == key {
        forall i | 0 <= i < c && s.calls[i].key == key ensures s.calls[i].phase.Settled? { EarlierSettled(s, i, c); }
        PendingPops(s.calls, c, ok, |s.calls|);
      } else {
        PendingSame(s.calls, t.calls, |s.calls|, key);
      }
    case Relay(_) =>
      PendingSame(s.calls, t.calls, |s.calls|, key);
  }

  /**
   Refinement: to its key, a submission appends to the queue, only the head of the queue starts,
   settling removes the head, and a relay changes nothing; no step touches another queue.
   */
  lemma LaneIsQueue(ls: seq<Step>, l: Step, key: string)
    requires Legal(ls) && Enabled(After(ls), l)
    ensures QueueMoves(After(ls), l, key)
  {
    InvHolds(ls);
    StepIsQueue(After(ls), l, key);
    hide *;
  }
}
