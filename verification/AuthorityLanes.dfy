/**
 What every state of a run satisfies: lanes are queues of the calls waiting on a request, a call
 holds copies that agree with the store, and the record agrees with both.
 */
module AuthorityLanes {
  import opened JsValues
  import opened Results
  import opened AuthorityTypes
  import opened Policy
  import opened Claims
  import opened Tokens
  import opened Grants
  import opened StoreSteps
  import opened AuthorityMachine
  import opened AuthorityFrames

  // ----- lanes -----

  /** A lane holds distinct calls on its request; only its first may be past the queue. */
  ghost predicate LaneOk(s: State, r: string)
  {
    var lane := LaneIn(s.lanes, r);
    && (forall i :: 0 <= i < |lane| ==> lane[i] in s.tasks && LaneOf(s.tasks[lane[i]]) == Some(r))
    && (forall i :: 0 < i < |lane| ==> lane[i] in s.tasks && Queued(s.tasks[lane[i]]))
    && (forall i, j :: 0 <= i < j < |lane| ==> lane[i] != lane[j])
  }

  ghost predicate InLane(s: State, t: nat)
  {
    t in s.tasks && LaneOf(s.tasks[t]).Some? ==> t in LaneIn(s.lanes, LaneOf(s.tasks[t]).value)
  }

  ghost predicate LanesInv(s: State)
  {
    (forall r :: LaneOk(s, r)) && (forall t :: t in s.tasks ==> t < s.next && InLane(s, t))
  }

  predicate Running(s: State, t: nat, r: string)
  {
    t in s.tasks && LaneOf(s.tasks[t]) == Some(r) && !Queued(s.tasks[t])
  }

  /** A call past the queue is the first of its lane, so it is alone on its request. */
  lemma RunningIsFirst(s: State, t: nat, r: string)
    requires LanesInv(s) && Running(s, t, r)
    ensures FirstInLane(s, t)
  {
    assert LaneOk(s, r) && InLane(s, t);
  }

  lemma OneRuns(s: State, t: nat, u: nat, r: string)
    requires LanesInv(s) && Running(s, t, r) && Running(s, u, r)
    ensures t == u
  {
    RunningIsFirst(s, t, r);
    RunningIsFirst(s, u, r);
  }

  ghost predicate LaneFits(s: State, t: nat, e: Effect)
  {
    match e.lane
    case Stay =>
      if e.task.None? then t in s.tasks ==> LaneOf(s.tasks[t]).None?
      else if t in s.tasks then LaneOf(e.task.value) == LaneOf(s.tasks[t]) && (Queued(s.tasks[t]) ==> FirstInLane(s, t))
      else LaneOf(e.task.value).None?
    case Join(r) => t == s.next && e.task.Some? && LaneOf(e.task.value) == Some(r) && Queued(e.task.value)
    case Leave(r) => t in s.tasks && LaneOf(s.tasks[t]) == Some(r) && FirstInLane(s, t) && e.task.None?
  }

  lemma LaneKept(s: State, t: nat, e: Effect, r: string)
    requires LanesInv(s) && LaneFits(s, t, e) && (t in s.tasks || t == s.next)
    ensures LaneOk(Apply(s, t, e), r)
  {
    hide Noted;
    var b := Apply(s, t, e);
    var lane, after := LaneIn(s.lanes, r), LaneIn(b.lanes, r);
    assert LaneOk(s, r);
    forall i | 0 <= i < |after|
      ensures after[i] in b.tasks && LaneOf(b.tasks[after[i]]) == Some(r) && (i > 0 ==> Queued(b.tasks[after[i]]))
    {
      if e.lane == Leave(r) {
        assert after[i] == lane[i + 1] && lane[0] == t;
      } else if i < |lane| {
        assert after[i] == lane[i];
      }
    }
  }

  lemma LanesKept(s: State, t: nat, e: Effect)
    requires LanesInv(s) && LaneFits(s, t, e) && (t in s.tasks || t == s.next)
    ensures LanesInv(Apply(s, t, e))
  {
    hide Noted;
    var b := Apply(s, t, e);
    forall r ensures LaneOk(b, r) { LaneKept(s, t, e, r); }
    forall u | u in b.tasks ensures u < b.next && InLane(b, u) {
      if u in s.tasks && LaneOf(s.tasks[u]).Some? {
        var r := LaneOf(s.tasks[u]).value;
        var lane := LaneIn(s.lanes, r);
        assert InLane(s, u);
        var i :| 0 <= i < |lane| && lane[i] == u;
        if e.lane == Leave(r) {
          assert LaneIn(b.lanes, r)[i - 1] == u;
        } else {
          assert LaneIn(b.lanes, r)[i] == u;
        }
      } else if e.lane.Join? && u == t {
        assert LaneIn(b.lanes, e.lane.r)[|LaneIn(s.lanes, e.lane.r)|] == t;
      }
    }
  }
}
