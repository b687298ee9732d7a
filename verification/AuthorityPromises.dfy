/**
 The service over the promise chains its lanes are made of.  The machine of AuthorityMachine keeps a
 queue of calls for each request; here a call waits for the promise of the call before it.  Every run
 over chains is a run over queues, and the chains hold up nothing that the queues let through.
 */
module AuthorityPromises {
  import opened JsValues
  import opened Results
  import opened AuthorityTypes
  import opened StoreSteps
  import opened Tokens
  import opened Grants
  import opened Policy
  import opened AuthorityMachine
  import opened AuthorityFrames
  import opened AuthorityLanes
  import opened AuthorityInvariant
  import opened AuthoritySteps
  import opened AuthorityRuns
  import L = Lanes

  /** `place` is the task of the chains that a call has submitted. */
  datatype Chained = Chained(s: State, q: L.State, place: map<nat, nat>)

  const BEGIN := Chained(START, L.START, map[])

  /** A step of a call, or a promise left in the map that resolves after its task. */
  datatype Event = Serve(l: Step) | Relay(c: nat)

  /** The name of the lane of a request. */
  function Key(r: string): string
  {
    "request:" + r
  }

  lemma KeyIsOwn(r: string, k: string)
    ensures Key(r) == Key(k) ==> r == k
  {
    assert Key(r)[8..] == r && Key(k)[8..] == k;
  }

  // ----- steps -----

  predicate MayStart(x: Chained, t: nat)
  {
    t in x.place && L.Enabled(x.q, L.Start(x.place[t]))
  }

  predicate Runs(x: Chained, t: nat)
  {
    t in x.place && x.place[t] < |x.q.calls| && x.q.calls[x.place[t]].phase == L.Running
  }

  /** A call in the queue moves when its chain lets it start, every other as before. */
  predicate Ready(x: Chained, l: Step)
  {
    Begins(l) || (l.t in x.s.tasks &&
      if Queued(x.s.tasks[l.t]) then (l.LaneStart? || l.Abort?) && MayStart(x, l.t)
      else Enabled(x.s, l) && (LaneOf(x.s.tasks[l.t]).Some? ==> Runs(x, l.t)))
  }

  function EffectIn(env: Env, x: Chained, l: Step): Effect
    requires Ready(x, l)
  {
    if l.LaneStart? then OnLaneStart(x.s, x.s.tasks[l.t])
    else if l.Abort? then OnAbort(x.s, x.s.tasks[l.t])
    else EffectOf(env, x.s, l)
  }

  /** The chains as the call begins to run, if it waited. */
  function Woken(x: Chained, l: Step): (q: L.State)
    requires Ready(x, l)
    ensures !Begins(l) && LaneOf(x.s.tasks[l.t]).Some? ==> L.Enabled(q, L.Settle(x.place[l.t], !l.Abort?))
  {
    if !Begins(l) && Queued(x.s.tasks[l.t]) then L.Do(x.q, L.Start(x.place[l.t])) else x.q
  }

  /** A task of the chains settles when its call is over. */
  function Chains(x: Chained, l: Step, e: Effect): L.State
    requires Ready(x, l)
  {
    if e.lane.Join? then L.Do(x.q, L.Submit(Key(e.lane.r)))
    else if !Begins(l) && e.task.None? && LaneOf(x.s.tasks[l.t]).Some? then
      L.Do(Woken(x, l), L.Settle(x.place[l.t], !l.Abort?))
    else Woken(x, l)
  }

  function Moved(x: Chained, l: Step, e: Effect): Chained
    requires Ready(x, l)
  {
    Chained(Apply(x.s, Mover(x.s, l), e), Chains(x, l, e),
            if e.lane.Join? then x.place[x.s.next := |x.q.calls|] else x.place)
  }

  predicate MayHappen(x: Chained, e: Event)
  {
    match e
    case Serve(l) => Ready(x, l)
    case Relay(c) => L.Enabled(x.q, L.Relay(c))
  }

  function Next(env: Env, x: Chained, e: Event): Chained
    requires MayHappen(x, e)
  {
    match e
    case Serve(l) => Moved(x, l, EffectIn(env, x, l))
    case Relay(c) => x.(q := L.Do(x.q, L.Relay(c)))
  }

  ghost predicate Legal(env: Env, es: seq<Event>)
    decreases |es|, 0
  {
    es == [] || (Legal(env, es[..|es| - 1]) && MayHappen(After(env, es[..|es| - 1]), es[|es| - 1]))
  }

  ghost function After(env: Env, es: seq<Event>): Chained
    requires Legal(env, es)
    decreases |es|, 1
  {
    if es == [] then BEGIN else Next(env, After(env, es[..|es| - 1]), es[|es| - 1])
  }

  /** What the calls did, without what the chains did. */
  function Served(es: seq<Event>): seq<Step>
  {
    if es == [] then []
    else Served(es[..|es| - 1]) + (if es[|es| - 1].Serve? then [es[|es| - 1].l] else [])
  }

  // ----- the chains mirror the lanes -----

  /** The unsettled tasks of a chain are those of the calls in the lane, in its order. */
  ghost predicate InStep(x: Chained, r: string)
  {
    var tasks, lane := L.Pending(x.q, Key(r)), LaneIn(x.s.lanes, r);
    |tasks| == |lane| && forall i :: 0 <= i < |lane| ==> lane[i] in x.place && x.place[lane[i]] == tasks[i]
  }

  ghost predicate Placed(x: Chained, t: nat)
  {
    t in x.s.tasks && LaneOf(x.s.tasks[t]).Some? ==>
      t in x.place && x.place[t] < |x.q.calls|
      && x.q.calls[x.place[t]].key == Key(LaneOf(x.s.tasks[t]).value)
      && x.q.calls[x.place[t]].phase == if Queued(x.s.tasks[t]) then L.Waiting else L.Running
  }

  ghost predicate PlacesOk(x: Chained)
  {
    (forall t :: t in x.place ==> t < x.s.next && x.place[t] < |x.q.calls|)
    && forall t, u :: t in x.place && u in x.place && x.place[t] == x.place[u] ==> t == u
  }

  ghost predicate Mirrors(x: Chained)
  {
    L.Inv(x.q) && PlacesOk(x) && (forall r :: InStep(x, r)) && forall t :: Placed(x, t)
  }

  /** A task whose chain lets it start is the first of its lane. */
  lemma StartsFirst(x: Chained, t: nat)
    requires Mirrors(x) && t in x.s.tasks && Queued(x.s.tasks[t]) && MayStart(x, t)
    ensures FirstInLane(x.s, t)
  {
    var r := LaneOf(x.s.tasks[t]).value;
    assert Placed(x, t) && InStep(x, r);
    L.StepIsQueue(x.q, L.Start(x.place[t]), Key(r));
    hide L.Inv;
  }

  lemma ReadyIsEnabled(env: Env, x: Chained, l: Step)
    requires Mirrors(x) && Ready(x, l)
    ensures Enabled(x.s, l) && EffectOf(env, x.s, l) == EffectIn(env, x, l)
  {
    if !Begins(l) && Queued(x.s.tasks[l.t]) { StartsFirst(x, l.t); }
    hide Mirrors, FirstInLane, MayStart, Runs;
    hide OnCheckCall, OnCreateAsked, OnListGrants, OnCreateAllowed, OnApproveCall, OnDenyCall, OnLaneStart;
    hide OnWriteDenied;
    hide OnCreateApproved, OnResolveApproved, OnMintApproved, OnRevokeCall, OnWriteRevoked, OnIssueCall, OnMintIssued;
    hide OnUseCall, OnAuthorizeCall, OnConsumeCall, OnUseRead, OnConsumeJti, OnReserve, OnUseReturn;
    hide OnAuthorizeReturn, OnAbort;
  }

  /** A call that has started is never queued again. */
  lemma NeverRequeued(env: Env, x: Chained, l: Step)
    requires Ready(x, l) && !Begins(l) && EffectIn(env, x, l).task.Some?
    ensures !Queued(EffectIn(env, x, l).task.value)
  {
    hide Decide, SelfOwned, AnswerFor, NeedsStepUp, IssueTokenFromGrant, PlanIssue, VerifyAuthorityToken;
    hide VerifyAuthority;
    hide UseRefusal, Budget, Suits, FirstInLane, ReserveUse, MayStart, Runs;
  }

  /** Waking takes nothing from a chain. */
  lemma WokenQueue(x: Chained, l: Step, r: string)
    requires L.Inv(x.q) && Ready(x, l)
    ensures L.Inv(Woken(x, l)) && L.Pending(Woken(x, l), Key(r)) == L.Pending(x.q, Key(r))
    ensures |Woken(x, l).calls| == |x.q.calls|
    ensures forall d :: 0 <= d < |x.q.calls| ==> Woken(x, l).calls[d].key == x.q.calls[d].key
  {
    hide L.Inv, L.Pending, Key, Enabled;
    if !Begins(l) && Queued(x.s.tasks[l.t]) {
      L.StepIsQueue(x.q, L.Start(x.place[l.t]), Key(r));
      L.StepKeeps(x.q, L.Start(x.place[l.t]));
    }
  }

  /** What a step does to the unsettled tasks of a chain. */
  lemma ChainsQueue(x: Chained, l: Step, e: Effect, r: string)
    requires Mirrors(x) && LanesInv(x.s) && Ready(x, l) && LaneFits(x.s, Mover(x.s, l), e)
    ensures L.Inv(Chains(x, l, e))
    ensures var before, after := L.Pending(x.q, Key(r)), L.Pending(Chains(x, l, e), Key(r));
      match e.lane
      case Join(k) => after == before + (if r == k then [|x.q.calls|] else [])
      case Stay => after == before
      case Leave(k) => !Begins(l) && l.t in x.place && before == (if r == k then [x.place[l.t]] else []) + after
  {
    hide Enabled, MayStart, Runs, L.Inv, L.Pending, FirstInLane;
    assert L.Inv(x.q);
    WokenQueue(x, l, r);
    match e.lane
    case Join(k) =>
      KeyIsOwn(r, k);
      L.StepIsQueue(x.q, L.Submit(Key(k)), Key(r));
      L.StepKeeps(x.q, L.Submit(Key(k)));
    case Stay =>
    case Leave(k) =>
      assert Placed(x, l.t);
      KeyIsOwn(r, k);
      L.StepIsQueue(Woken(x, l), L.Settle(x.place[l.t], !l.Abort?), Key(r));
      L.StepKeeps(Woken(x, l), L.Settle(x.place[l.t], !l.Abort?));
  }

  lemma InStepKept(x: Chained, l: Step, e: Effect, r: string)
    requires Mirrors(x) && LanesInv(x.s) && Ready(x, l) && LaneFits(x.s, Mover(x.s, l), e)
    ensures InStep(Moved(x, l, e), r) && L.Inv(Moved(x, l, e).q)
  {
    hide Apply, Enabled, MayStart, Runs, L.Inv, L.Pending, Chains, Placed;
    LanesAfter(x.s, Mover(x.s, l), e);
    ChainsQueue(x, l, e, r);
    assert InStep(x, r) && PlacesOk(x);
    hide Mirrors, Key;
  }

  lemma LanesAfter(s: State, t: nat, e: Effect)
    ensures Apply(s, t, e).lanes == MoveLanes(s.lanes, t, e.lane)
    ensures Apply(s, t, e).next >= s.next && (t == s.next ==> Apply(s, t, e).next > s.next)
    ensures forall u :: u != t ==> (u in Apply(s, t, e).tasks <==> u in s.tasks)
    ensures forall u :: u != t && u in s.tasks ==> Apply(s, t, e).tasks[u] == s.tasks[u]
    ensures t in Apply(s, t, e).tasks <==> e.task.Some?
    ensures e.task.Some? ==> Apply(s, t, e).tasks[t] == e.task.value
  {
    hide MoveLanes, Noted;
  }

  /** The chains keep their tasks, and only the task of the call that moves changes its phase. */
  lemma ChainsKeep(x: Chained, l: Step, e: Effect)
    requires Ready(x, l)
    ensures var (q, calls) := (Chains(x, l, e), x.q.calls);
      && |q.calls| == |calls| + (if e.lane.Join? then 1 else 0)
      && (forall d :: 0 <= d < |calls| ==> q.calls[d].key == calls[d].key)
      && (forall d :: 0 <= d < |calls| && (Begins(l) || l.t !in x.place || d != x.place[l.t]) ==>
        q.calls[d].phase == calls[d].phase)
      && (e.lane.Join? ==> q.calls[|calls|].key == Key(e.lane.r) && q.calls[|calls|].phase == L.Waiting)
      && (!Begins(l) && LaneOf(x.s.tasks[l.t]).Some? && !e.lane.Join? && e.task.Some? ==>
        q.calls[x.place[l.t]].phase == L.Running)
  {
    hide Enabled, Key;
  }

  lemma PlacesKept(x: Chained, l: Step, e: Effect)
    requires Mirrors(x) && Ready(x, l) && LaneFits(x.s, Mover(x.s, l), e)
    ensures PlacesOk(Moved(x, l, e))
  {
    hide Apply, Chains, Ready, L.Inv, MoveLanes, InStep, Placed;
    LanesAfter(x.s, Mover(x.s, l), e);
    ChainsKeep(x, l, e);
  }

  lemma PlacedKept(x: Chained, l: Step, e: Effect, u: nat)
    requires Mirrors(x) && LanesInv(x.s) && Ready(x, l) && LaneFits(x.s, Mover(x.s, l), e)
    requires !Begins(l) && e.task.Some? ==> !Queued(e.task.value)
    ensures Placed(Moved(x, l, e), u)
  {
    hide Apply, Chains, Enabled, MayStart, Runs, L.Inv, MoveLanes, InStep, FirstInLane;
    LanesAfter(x.s, Mover(x.s, l), e);
    ChainsKeep(x, l, e);
    assert Placed(x, u) && (!Begins(l) ==> Placed(x, l.t)) && PlacesOk(x);
    hide Mirrors, Key;
  }

  lemma InvLanes(env: Env, s: State)
    requires Inv(env, s)
    ensures LanesInv(s)
  {
    hide LanesInv, CallsInv, RequestsInv, GrantsInv, MadeInv, NamesInv, OnceInv;
  }

  lemma StepFits(env: Env, x: Chained, l: Step)
    requires Mirrors(x) && Inv(env, x.s) && Ready(x, l)
    ensures LaneFits(x.s, Mover(x.s, l), EffectIn(env, x, l))
    ensures !Begins(l) && EffectIn(env, x, l).task.Some? ==> !Queued(EffectIn(env, x, l).task.value)
  {
    hide *;
    ReadyIsEnabled(env, x, l);
    StepLane(env, x.s, l, "");
    if !Begins(l) && EffectIn(env, x, l).task.Some? { NeverRequeued(env, x, l); }
  }

  lemma MirrorsKept(x: Chained, l: Step, e: Effect)
    requires Mirrors(x) && LanesInv(x.s) && Ready(x, l) && LaneFits(x.s, Mover(x.s, l), e)
    requires !Begins(l) && e.task.Some? ==> !Queued(e.task.value)
    ensures Mirrors(Moved(x, l, e))
  {
    var y := Moved(x, l, e);
    hide InStep, Placed, PlacesOk, L.Inv, LaneFits, Ready, Mover, LanesInv, Queued, Begins, Moved;
    assert L.Inv(y.q) by { InStepKept(x, l, e, ""); }
    forall r ensures InStep(y, r) { InStepKept(x, l, e, r); }
    forall u ensures Placed(y, u) { PlacedKept(x, l, e, u); }
    PlacesKept(x, l, e);
  }

  /** A step over chains is the machine's step, and leaves chains and lanes in step. */
  lemma ServeIsStep(env: Env, x: Chained, l: Step)
    requires Mirrors(x) && Inv(env, x.s) && Ready(x, l)
    ensures Enabled(x.s, l) && Next(env, x, Serve(l)).s == Do(env, x.s, l) && Mirrors(Next(env, x, Serve(l)))
  {
    hide Mirrors, Inv, LaneFits, Ready, Mover, LanesInv, Queued, Begins, EffectIn, EffectOf, Enabled, Apply, Chains;
    ReadyIsEnabled(env, x, l);
    InvLanes(env, x.s);
    StepFits(env, x, l);
    MirrorsKept(x, l, EffectIn(env, x, l));
  }

  lemma RelayKept(env: Env, x: Chained, c: nat)
    requires Mirrors(x) && MayHappen(x, Relay(c))
    ensures Mirrors(Next(env, x, Relay(c))) && Next(env, x, Relay(c)).s == x.s
  {
    hide L.Inv, L.Pending, Key, Ready, Moved;
    var y := Next(env, x, Relay(c));
    assert L.Inv(x.q);
    L.StepKeeps(x.q, L.Relay(c));
    forall r ensures InStep(y, r) {
      assert InStep(x, r);
      L.StepIsQueue(x.q, L.Relay(c), Key(r));
    }
    forall u ensures Placed(y, u) {
      assert Placed(x, u);
      hide InStep;
    }
    hide InStep, Placed;
  }

  // ----- the two machines agree -----

  lemma BeginMirrors()
    ensures Mirrors(BEGIN)
  {
    forall r ensures InStep(BEGIN, r) {
    }
  }

  lemma ServeExtends(env: Env, ls: seq<Step>, x: Chained, l: Step)
    requires AuthorityMachine.Legal(env, ls) && AuthorityMachine.After(env, ls) == x.s && Mirrors(x) && Ready(x, l)
    ensures var y := Next(env, x, Serve(l));
      AuthorityMachine.Legal(env, ls + [l]) && AuthorityMachine.After(env, ls + [l]) == y.s && Mirrors(y)
  {
    hide *;
    InvHolds(env, ls);
    ServeIsStep(env, x, l);
    Extend(env, ls, l);
  }

  /**
   Every run over promise chains is, without the chains, a run of the machine with its queues, and leads to
   the same state.
   */
  lemma {:induction false} ChainsRefineLanes(env: Env, es: seq<Event>)
    requires Legal(env, es)
    ensures AuthorityMachine.Legal(env, Served(es)) && AuthorityMachine.After(env, Served(es)) == After(env, es).s
    ensures Mirrors(After(env, es))
  {
    if es == [] {
      BeginMirrors();
      hide Mirrors;
    } else {
      hide Mirrors, AuthorityMachine.Legal, AuthorityMachine.After, Next, Ready;
      var init, e := es[..|es| - 1], es[|es| - 1];
      ChainsRefineLanes(env, init);
      if e.Serve? {
        ServeExtends(env, Served(init), After(env, init), e.l);
      } else {
        RelayKept(env, After(env, init), e.c);
        assert Served(es) == Served(init);
      }
    }
  }

  /** The first call of a lane starts at once or after one promise has resolved. */
  lemma FirstMayStart(x: Chained, t: nat)
    requires Mirrors(x) && t in x.s.tasks && Queued(x.s.tasks[t]) && FirstInLane(x.s, t)
    ensures MayStart(x, t)
      || exists c :: L.Enabled(x.q, L.Relay(c)) && MayStart(x.(q := L.Do(x.q, L.Relay(c))), t)
  {
    var r := LaneOf(x.s.tasks[t]).value;
    assert Placed(x, t) && InStep(x, r);
    var d := x.place[t];
    L.FirstPending(x.q, |x.q.calls|, Key(r));
    L.HeadMayMove(x.q, d);
    hide L.Inv, L.Pending;
    if !L.Enabled(x.q, L.Start(d)) {
      var c := x.q.calls[d].prev.value;
      assert L.Enabled(x.q, L.Relay(c)) && MayStart(x.(q := L.Do(x.q, L.Relay(c))), t);
    }
  }

  lemma MovesOnChains(x: Chained, l: Step)
    requires Mirrors(x) && Enabled(x.s, l)
    ensures Ready(x, l) || exists c :: L.Enabled(x.q, L.Relay(c)) && Ready(x.(q := L.Do(x.q, L.Relay(c))), l)
  {
    if !Begins(l) {
      var task := x.s.tasks[l.t];
      if Queued(task) {
        FirstMayStart(x, l.t);
        hide Mirrors, FirstInLane;
        if !MayStart(x, l.t) {
          var c :| L.Enabled(x.q, L.Relay(c)) && MayStart(x.(q := L.Do(x.q, L.Relay(c))), l.t);
          assert Ready(x.(q := L.Do(x.q, L.Relay(c))), l);
        }
      } else {
        assert Placed(x, l.t);
        hide Mirrors;
      }
    }
  }

  /**
   And the chains hold up nothing: what the queues let happen may happen here, if need be after one promise
   has resolved.
   */
  lemma LanesRefineChains(env: Env, es: seq<Event>, l: Step)
    requires Legal(env, es) && Enabled(After(env, es).s, l)
    ensures var x := After(env, es);
      Ready(x, l) || exists c :: L.Enabled(x.q, L.Relay(c)) && Ready(x.(q := L.Do(x.q, L.Relay(c))), l)
  {
    ChainsRefineLanes(env, es);
    MovesOnChains(After(env, es), l);
    hide *;
  }

  /** So a request is resolved by one call at most although its calls wait on nothing but promises. */
  lemma ResolvedByOneOnChains(env: Env, es: seq<Event>, t: nat, u: nat)
    requires Legal(env, es)
    requires var h := After(env, es).s.h;
      t in h.resolutions && u in h.resolutions && h.resolutions[t] == h.resolutions[u]
    ensures t == u
  {
    hide *;
    ChainsRefineLanes(env, es);
    ResolvedByOne(env, Served(es), t, u);
  }
}
