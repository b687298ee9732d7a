/** The steps of a call of the service while no other call moves: the whole state that each of them leaves. */
module AuthorityStages {
  import opened JsValues
  import opened Results
  import opened AuthorityTypes
  import opened Policy
  import opened PolicyRulings
  import opened Claims
  import opened Tokens
  import opened TokenAcceptance
  import opened Grants
  import opened GrantRules
  import opened StoreSteps
  import opened AuthorityMachine
  import opened AuthorityInvariant
  import opened AuthorityRuns

  // ----- one call, stage by stage -----

  /** As `s`, but for the store, the lanes, the record, and a new call that stands at `task` or is over. */
  function Stage(s: State, task: Option<Task>, store: Store, lanes: map<string, seq<nat>>, h: History): State
  {
    State(store, if task.Some? then s.tasks[s.next := task.value] else s.tasks, lanes, s.next + 1, h)
  }

  ghost predicate Stands(
      env: Env, ls: seq<Step>, s: State, task: Option<Task>, store: Store, lanes: map<string, seq<nat>>, h: History)
  {
    Legal(env, ls) && s.next !in s.tasks && After(env, ls) == Stage(s, task, store, lanes, h)
  }

  lemma Fresh(env: Env, ls: seq<Step>)
    requires Legal(env, ls)
    ensures After(env, ls).next !in After(env, ls).tasks
  {
    InvHolds(env, ls);
    hide After, Legal;
  }

  lemma Opens(env: Env, ls: seq<Step>, l: Step, e: Effect)
    requires Legal(env, ls) && Begins(l) && EffectOf(env, After(env, ls), l) == e
    ensures var s := After(env, ls);
      Stands(env, ls + [l], s, e.task, e.store, MoveLanes(s.lanes, s.next, e.lane), Noted(s.h, s.next, e.notes))
  {
    hide EffectOf, Legal, After, MoveLanes, Noted;
    Fresh(env, ls);
    Extend(env, ls, l);
    var s := After(env, ls);
    assert s.tasks - {s.next} == s.tasks;
  }

  lemma Goes(
      env: Env, ls: seq<Step>, s: State, task: Task, store: Store, lanes: map<string, seq<nat>>, h: History,
      l: Step, e: Effect)
    requires Stands(env, ls, s, Some(task), store, lanes, h) && !Begins(l) && l.t == s.next
    requires Enabled(After(env, ls), l) && EffectOf(env, After(env, ls), l) == e
    ensures Stands(env, ls + [l], s, e.task, e.store, MoveLanes(lanes, s.next, e.lane), Noted(h, s.next, e.notes))
  {
    hide EffectOf, Legal, After, MoveLanes, Noted, Enabled;
    Extend(env, ls, l);
    var b := After(env, ls);
    assert b.tasks - {s.next} == s.tasks;
    assert e.task.Some? ==> b.tasks[s.next := e.task.value] == s.tasks[s.next := e.task.value];
  }

  lemma Seen(
      env: Env, ls: seq<Step>, s: State, task: Task, store: Store, lanes: map<string, seq<nat>>, h: History)
    requires Stands(env, ls, s, Some(task), store, lanes, h)
    ensures Legal(env, ls) && After(env, ls).store == store && After(env, ls).lanes == lanes
    ensures s.next in After(env, ls).tasks && After(env, ls).tasks[s.next] == task
  {
    hide Legal, After;
  }

  // ----- check -----

  predicate Refuses(input: CheckInput, m: PolicyMatch)
  {
    ActsForItself(input.ownerId, input.scope.actor) || (m.requireStepUp && !input.stepUpProvided) || m.decision == DENY
  }

  lemma CheckOpens(env: Env, ls: seq<Step>, input: CheckInput, now: int, m: PolicyMatch)
    requires Legal(env, ls) && Ruled(env.policies, input.scope, m)
    ensures var s := After(env, ls); var all := ls + [CheckCall(input, now)];
      var reason := if ActsForItself(input.ownerId, input.scope.actor) then OwnerBoundary
                    else if m.requireStepUp && !input.stepUpProvided then StepUpRequired else PolicyDeny;
      if Refuses(input, m) then
        Stands(env, all, s, None, s.store, s.lanes, s.h.(answers := s.h.answers[s.next := (input, Denied(reason))]))
      else
        Stands(env, all, s,
               Some(if m.decision == ASK_OWNER then AskCreating(input, m) else AllowListing(input, m, now)),
               s.store, s.lanes, s.h)
  {
    hide Stands, Legal, After, EffectOf, Ruled, Decide, SelfOwned, ActsForItself;
    var s := After(env, ls);
    SelfOwnedIs(input.ownerId, input.scope.actor);
    DecideMeans(env.policies, input.scope, m);
    assert EffectOf(env, s, CheckCall(input, now)) == OnCheckCall(env, s, input, now) by {
      assert Enabled(s, CheckCall(input, now));
      hide *;
      EffectIs(env, s, CheckCall(input, now));
    }
    Opens(env, ls, CheckCall(input, now), OnCheckCall(env, s, input, now));
  }

  lemma CreatesAsked(
      env: Env, ls: seq<Step>, s: State, task: Task, store: Store, lanes: map<string, seq<nat>>, h: History,
      id: string)
    requires Stands(env, ls, s, Some(task), store, lanes, h)
    requires task.AskCreating? && id !in store.requests
    ensures var r := NewRequest(id, task.input, task.m);
      Stands(env, ls + [CreateAsked(s.next, id)], s, None, store.(requests := store.requests[id := r]), lanes,
             h.(answers := h.answers[s.next := (task.input, Asked(id))]))
  {
    hide Stands, Legal, After, EffectOf;
    Seen(env, ls, s, task, store, lanes, h);
    var b := After(env, ls);
    assert EffectOf(env, b, CreateAsked(s.next, id)) == OnCreateAsked(b, task, id) by {
      assert Enabled(b, CreateAsked(s.next, id));
      hide *;
      EffectIs(env, b, CreateAsked(s.next, id));
    }
    Goes(env, ls, s, task, store, lanes, h, CreateAsked(s.next, id), OnCreateAsked(b, task, id));
  }

  lemma Lists(
      env: Env, ls: seq<Step>, s: State, task: Task, store: Store, lanes: map<string, seq<nat>>, h: History,
      found: Option<string>)
    requires Stands(env, ls, s, Some(task), store, lanes, h)
    requires task.AllowListing? && Finds(store, task.input, task.now, found)
    ensures match found
      case Some(id) =>
        Stands(env, ls + [ListGrants(s.next, found)], s, None, store, lanes,
               h.(answers := h.answers[s.next := (task.input, AnswerFor(store.grants[id], task.m))]))
      case None =>
        Stands(env, ls + [ListGrants(s.next, found)], s, Some(AllowCreating(task.input, task.m, task.now)), store,
               lanes, h)
  {
    hide Stands, Legal, After, EffectOf, AnswerFor, Suits;
    Seen(env, ls, s, task, store, lanes, h);
    var b := After(env, ls);
    assert EffectOf(env, b, ListGrants(s.next, found)) == OnListGrants(b, task, found) by {
      assert Enabled(b, ListGrants(s.next, found));
      hide *;
      EffectIs(env, b, ListGrants(s.next, found));
    }
    Goes(env, ls, s, task, store, lanes, h, ListGrants(s.next, found), OnListGrants(b, task, found));
  }

  lemma CreatesAllowed(
      env: Env, ls: seq<Step>, s: State, task: Task, store: Store, lanes: map<string, seq<nat>>, h: History,
      id: string)
    requires Stands(env, ls, s, Some(task), store, lanes, h)
    requires task.AllowCreating? && id !in store.grants
    ensures var g := NewAllowed(id, task.input, task.m, task.now);
      Stands(env, ls + [CreateAllowed(s.next, id)], s, None, store.(grants := store.grants[id := g]), lanes,
             h.(answers := h.answers[s.next := (task.input, AnswerFor(g, task.m))]))
  {
    hide Stands, Legal, After, EffectOf, AnswerFor;
    Seen(env, ls, s, task, store, lanes, h);
    var b := After(env, ls);
    assert EffectOf(env, b, CreateAllowed(s.next, id)) == OnCreateAllowed(b, task, id) by {
      assert Enabled(b, CreateAllowed(s.next, id));
      hide *;
      EffectIs(env, b, CreateAllowed(s.next, id));
    }
    Goes(env, ls, s, task, store, lanes, h, CreateAllowed(s.next, id), OnCreateAllowed(b, task, id));
  }

  // ----- approve and deny -----

  lemma ApproveOpens(env: Env, ls: seq<Step>, ownerId: string, r: string, oneTime: Option<bool>, ttl: Option<Ttl>)
    requires Legal(env, ls)
    requires LaneIn(After(env, ls).lanes, r) == []
    ensures var s := After(env, ls);
      Stands(env, ls + [ApproveCall(ownerId, r, oneTime, ttl)], s, Some(ApproveQueued(ownerId, r, oneTime, ttl)),
             s.store, s.lanes[r := [s.next]], Asks(s.h, s.next, ownerId, r, oneTime, ttl))
  {
    hide Stands, Legal, After, EffectOf;
    var s := After(env, ls);
    assert LaneIn(s.lanes, r) + [s.next] == [s.next];
    assert EffectOf(env, s, ApproveCall(ownerId, r, oneTime, ttl)) == OnApproveCall(s, ownerId, r, oneTime, ttl) by {
      assert Enabled(s, ApproveCall(ownerId, r, oneTime, ttl));
      hide *;
      EffectIs(env, s, ApproveCall(ownerId, r, oneTime, ttl));
    }
    Opens(env, ls, ApproveCall(ownerId, r, oneTime, ttl), OnApproveCall(s, ownerId, r, oneTime, ttl));
  }

  function Asks(h: History, t: nat, ownerId: string, r: string, oneTime: Option<bool>, ttl: Option<Ttl>): History
  {
    h.(approvals := h.approvals + {(ownerId, r)}, callers := h.callers[t := Caller(ownerId, oneTime, ttl)])
  }

  /** The history of a call whose caller gives nothing but its name. */
  function NamedAs(h: History, t: nat, ownerId: string): History
  {
    h.(callers := h.callers[t := Caller(ownerId, None, None)])
  }

  lemma DenyOpens(env: Env, ls: seq<Step>, ownerId: string, r: string)
    requires Legal(env, ls)
    requires LaneIn(After(env, ls).lanes, r) == []
    ensures var s := After(env, ls);
      Stands(env, ls + [DenyCall(ownerId, r)], s, Some(DenyQueued(ownerId, r)), s.store, s.lanes[r := [s.next]],
             NamedAs(s.h, s.next, ownerId))
  {
    hide Stands, Legal, After, EffectOf;
    var s := After(env, ls);
    assert LaneIn(s.lanes, r) + [s.next] == [s.next];
    assert EffectOf(env, s, DenyCall(ownerId, r)) == OnDenyCall(s, ownerId, r) by {
      assert Enabled(s, DenyCall(ownerId, r));
      hide *;
      EffectIs(env, s, DenyCall(ownerId, r));
    }
    Opens(env, ls, DenyCall(ownerId, r), OnDenyCall(s, ownerId, r));
  }

  /** A request the caller may decide: its own, and not decided yet. */
  predicate Decidable(store: Store, ownerId: string, r: string)
  {
    r in store.requests && store.requests[r].ownerId == ownerId && store.requests[r].status == PENDING
  }

  predicate ShortOfStepUp(req: Request)
  {
    req.consequence == CRITICAL && req.decision == ASK_OWNER && req.action == "payment.approve" && !req.stepUpProvided
  }

  lemma LeftEmpty(lanes: map<string, seq<nat>>, r: string, t: nat)
    ensures MoveLanes(lanes[r := [t]], t, LaneMove.Leave(r)) == lanes[r := []]
    ensures MoveLanes(lanes[r := [t]], t, Stay) == lanes[r := [t]]
  {
    assert lanes[r := [t]][r := []] == lanes[r := []];
  }

  lemma StartMeans(s: State, task: Task)
    requires Queued(task)
    ensures var (e, r) := (OnLaneStart(s, task), task.requestId);
      if !Decidable(s.store, task.ownerId, r) then e == End(s.store, LaneMove.Leave(r), QUIET)
      else
        var req := s.store.requests[r];
        if task.DenyQueued? then e == Move(s.store, DenyWriting(req))
        else if ActsForItself(task.ownerId, req.actor) then e == End(s.store, LaneMove.Leave(r), QUIET)
        else if ShortOfStepUp(req) then e == Move(s.store, StepUpDenying(req))
        else e == Move(s.store, ApproveCreating(req, OnceIfUnsaid(task.oneTime), HourIfUnsaid(task.ttl)))
  {
    hide OnceIfUnsaid, HourIfUnsaid, SelfOwned, ActsForItself;
    if task.requestId in s.store.requests { SelfOwnedIs(task.ownerId, s.store.requests[task.requestId].actor); }
  }

  lemma Starts(
      env: Env, ls: seq<Step>, s: State, task: Task, store: Store, lanes: map<string, seq<nat>>, h: History)
    requires Stands(env, ls, s, Some(task), store, lanes, h)
    requires Queued(task) && lanes == s.lanes[task.requestId := [s.next]]
    ensures var (all, r) := (ls + [LaneStart(s.next)], task.requestId);
      if !Decidable(store, task.ownerId, r) then Stands(env, all, s, None, store, s.lanes[r := []], h)
      else
        var req := store.requests[r];
        if task.DenyQueued? then Stands(env, all, s, Some(DenyWriting(req)), store, lanes, h)
        else if ActsForItself(task.ownerId, req.actor) then Stands(env, all, s, None, store, s.lanes[r := []], h)
        else if ShortOfStepUp(req) then Stands(env, all, s, Some(StepUpDenying(req)), store, lanes, h)
        else
          Stands(env, all, s, Some(ApproveCreating(req, OnceIfUnsaid(task.oneTime), HourIfUnsaid(task.ttl))), store,
                 lanes, h)
  {
    hide Stands, Legal, After, EffectOf, OnceIfUnsaid, HourIfUnsaid, ActsForItself, OnLaneStart, MoveLanes, Decidable;
    hide ShortOfStepUp;
    Seen(env, ls, s, task, store, lanes, h);
    StartMeans(After(env, ls), task);
    LeftEmpty(s.lanes, task.requestId, s.next);
    var b := After(env, ls);
    assert EffectOf(env, b, LaneStart(s.next)) == OnLaneStart(b, task) by {
      assert Enabled(b, LaneStart(s.next));
      hide *;
      EffectIs(env, b, LaneStart(s.next));
    }
    Goes(env, ls, s, task, store, lanes, h, LaneStart(s.next), OnLaneStart(b, task));
  }

  lemma WritesDenied(
      env: Env, ls: seq<Step>, s: State, task: Task, store: Store, lanes: map<string, seq<nat>>, h: History,
      audited: bool, now: int)
    requires Stands(env, ls, s, Some(task), store, lanes, h)
    requires (task.DenyWriting? || task.StepUpDenying?) && task.req.id in store.requests
    requires lanes == s.lanes[task.req.id := [s.next]]
    ensures var (r, t) := (task.req.id, s.next);
      var denied := store.requests[r].(status := DENIED, grantId := None, resolvedAt := Some(At(now)));
      Stands(env, ls + [WriteDenied(t, audited, now)], s, None, store.(requests := store.requests[r := denied]),
             s.lanes[r := []],
             h.(resolutions := h.resolutions[t := r],
                decided := if task.DenyWriting? && audited then h.decided + {t} else h.decided))
  {
    hide Stands, Legal, After, EffectOf, MoveLanes;
    LeftEmpty(s.lanes, task.req.id, s.next);
    Seen(env, ls, s, task, store, lanes, h);
    var b := After(env, ls);
    assert EffectOf(env, b, WriteDenied(s.next, audited, now)) == OnWriteDenied(b, task, audited, now) by {
      assert Enabled(b, WriteDenied(s.next, audited, now));
      hide *;
      EffectIs(env, b, WriteDenied(s.next, audited, now));
    }
    Goes(env, ls, s, task, store, lanes, h, WriteDenied(s.next, audited, now), OnWriteDenied(b, task, audited, now));
  }

  lemma CreatesApproved(
      env: Env, ls: seq<Step>, s: State, task: Task, store: Store, lanes: map<string, seq<nat>>, h: History,
      id: string, now: int)
    requires Stands(env, ls, s, Some(task), store, lanes, h)
    requires task.ApproveCreating? && id !in store.grants
    ensures var (g, r) := (NewApproved(id, task.req, task.once, task.lasts, now), task.req.id);
      Stands(env, ls + [CreateApproved(s.next, id, now)], s, Some(ApproveResolving(task.req, g)),
             store.(grants := store.grants[id := g]), lanes,
             h.(made := h.made[id := r], makers := h.makers[id := Maker(s.next, now)]))
  {
    hide Stands, Legal, After, EffectOf;
    Seen(env, ls, s, task, store, lanes, h);
    var b := After(env, ls);
    assert EffectOf(env, b, CreateApproved(s.next, id, now)) == OnCreateApproved(b, task, id, now) by {
      assert Enabled(b, CreateApproved(s.next, id, now));
      hide *;
      EffectIs(env, b, CreateApproved(s.next, id, now));
    }
    Goes(env, ls, s, task, store, lanes, h, CreateApproved(s.next, id, now), OnCreateApproved(b, task, id, now));
  }

  lemma Resolves(
      env: Env, ls: seq<Step>, s: State, task: Task, store: Store, lanes: map<string, seq<nat>>, h: History,
      now: int)
    requires Stands(env, ls, s, Some(task), store, lanes, h)
    requires task.ApproveResolving? && task.req.id in store.requests
    ensures var r := task.req.id;
      var req := store.requests[r].(status := ACTIVE, grantId := Some(task.grant.id), resolvedAt := Some(At(now)));
      Stands(env, ls + [ResolveApproved(s.next, now)], s, Some(ApproveMinting(task.req, task.grant)),
             store.(requests := store.requests[r := req]), lanes, h.(resolutions := h.resolutions[s.next := r]))
  {
    hide Stands, Legal, After, EffectOf;
    Seen(env, ls, s, task, store, lanes, h);
    var b := After(env, ls);
    assert EffectOf(env, b, ResolveApproved(s.next, now)) == OnResolveApproved(b, task, now) by {
      assert Enabled(b, ResolveApproved(s.next, now));
      hide *;
      EffectIs(env, b, ResolveApproved(s.next, now));
    }
    Goes(env, ls, s, task, store, lanes, h, ResolveApproved(s.next, now), OnResolveApproved(b, task, now));
  }

  lemma MintsApproved(
      env: Env, ls: seq<Step>, s: State, task: Task, store: Store, lanes: map<string, seq<nat>>, h: History,
      m: Minting, lasts: int)
    requires Stands(env, ls, s, Some(task), store, lanes, h)
    requires task.ApproveMinting? && task.grant.validUntil.At?
    requires lanes == s.lanes[task.req.id := [s.next]]
    requires Lasts(lasts, env.tokenTtl, Seconds(task.grant.validUntil.ms) - Seconds(m.readAt))
    ensures var c := IssuedClaims(task.grant, [task.req.action], [task.req.resource], m, lasts);
      Stands(env, ls + [MintApproved(s.next, m)], s, None, store, s.lanes[task.req.id := []],
             if lasts >= 1 && Wellformed(c) then
               h.(issued := h.issued[s.next := Issue(c, m.readAt, m.mintAt)], decided := h.decided + {s.next})
             else h)
  {
    hide Stands, Legal, After, EffectOf, IssueTokenFromGrant, IssuedClaims, Lasts, Wellformed;
    IssueMeans(env.key, env.tokenTtl, task.grant, [task.req.action], [task.req.resource], None, m, lasts);
    LeftEmpty(s.lanes, task.req.id, s.next);
    Seen(env, ls, s, task, store, lanes, h);
    var b := After(env, ls);
    assert EffectOf(env, b, MintApproved(s.next, m)) == OnMintApproved(env, b, task, m) by {
      assert Enabled(b, MintApproved(s.next, m));
      hide *;
      EffectIs(env, b, MintApproved(s.next, m));
    }
    Goes(env, ls, s, task, store, lanes, h, MintApproved(s.next, m), OnMintApproved(env, b, task, m));
  }

  // ----- revoke and issue -----

  lemma RevokeOpens(env: Env, ls: seq<Step>, ownerId: string, g: string)
    requires Legal(env, ls)
    ensures var s := After(env, ls);
      var owned := g in s.store.grants && s.store.grants[g].ownerId == ownerId && s.store.grants[g].status != REVOKED;
      Stands(env, ls + [RevokeCall(ownerId, g)], s, if owned then Some(RevokeWriting(g)) else None, s.store, s.lanes,
             NamedAs(s.h, s.next, ownerId))
  {
    hide Stands, Legal, After, EffectOf;
    var s := After(env, ls);
    assert EffectOf(env, s, RevokeCall(ownerId, g)) == OnRevokeCall(s, ownerId, g) by {
      assert Enabled(s, RevokeCall(ownerId, g));
      hide *;
      EffectIs(env, s, RevokeCall(ownerId, g));
    }
    Opens(env, ls, RevokeCall(ownerId, g), OnRevokeCall(s, ownerId, g));
  }

  lemma WritesRevoked(
      env: Env, ls: seq<Step>, s: State, task: Task, store: Store, lanes: map<string, seq<nat>>, h: History,
      now: int)
    requires Stands(env, ls, s, Some(task), store, lanes, h)
    requires task.RevokeWriting? && task.grantId in store.grants
    ensures var g := task.grantId;
      var dead := store.grants[g].(status := REVOKED, revokedAt := Some(At(now)));
      Stands(env, ls + [WriteRevoked(s.next, now)], s, None, store.(grants := store.grants[g := dead]), lanes,
             h.(revoked := h.revoked[g := s.next]))
  {
    hide Stands, Legal, After, EffectOf;
    Seen(env, ls, s, task, store, lanes, h);
    var b := After(env, ls);
    assert EffectOf(env, b, WriteRevoked(s.next, now)) == OnWriteRevoked(b, task, now) by {
      assert Enabled(b, WriteRevoked(s.next, now));
      hide *;
      EffectIs(env, b, WriteRevoked(s.next, now));
    }
    Goes(env, ls, s, task, store, lanes, h, WriteRevoked(s.next, now), OnWriteRevoked(b, task, now));
  }

  lemma IssueOpens(env: Env, ls: seq<Step>, ownerId: string, g: string, narrow: Narrow, now: int)
    requires Legal(env, ls)
    ensures var s := After(env, ls);
      var may := g in s.store.grants
        && MayIssue(s.store.grants[g], ownerId, Wanted(s.store.grants[g], narrow), env.tokenTtl, now);
      Stands(env, ls + [IssueCall(ownerId, g, narrow, now)], s,
             if may then Some(Issuing(s.store.grants[g], Wanted(s.store.grants[g], narrow))) else None,
             s.store, s.lanes, NamedAs(s.h, s.next, ownerId))
  {
    hide Stands, Legal, After, EffectOf, PlanIssue, MayIssue, Wanted;
    var s := After(env, ls);
    forall plan
      ensures PlanIssue(GetGrant(s.store, g), ownerId, narrow, env.tokenTtl, now) == Go(plan) <==>
        g in s.store.grants && plan == Wanted(s.store.grants[g], narrow)
        && MayIssue(s.store.grants[g], ownerId, plan, env.tokenTtl, now)
    {
      PlanMeans(GetGrant(s.store, g), ownerId, narrow, env.tokenTtl, now, plan);
    }
    assert EffectOf(env, s, IssueCall(ownerId, g, narrow, now)) == OnIssueCall(env, s, ownerId, g, narrow, now) by {
      assert Enabled(s, IssueCall(ownerId, g, narrow, now));
      hide *;
      EffectIs(env, s, IssueCall(ownerId, g, narrow, now));
    }
    Opens(env, ls, IssueCall(ownerId, g, narrow, now), OnIssueCall(env, s, ownerId, g, narrow, now));
  }

  lemma MintsIssued(
      env: Env, ls: seq<Step>, s: State, task: Task, store: Store, lanes: map<string, seq<nat>>, h: History,
      m: Minting, lasts: int)
    requires Stands(env, ls, s, Some(task), store, lanes, h)
    requires task.Issuing? && task.grant.validUntil.At?
    requires Lasts(lasts, if task.plan.ttl.Some? then task.plan.ttl.value else env.tokenTtl,
                   Seconds(task.grant.validUntil.ms) - Seconds(m.readAt))
    ensures var c := IssuedClaims(task.grant, task.plan.actions, task.plan.resources, m, lasts);
      Stands(env, ls + [MintIssued(s.next, m)], s, None, store, lanes,
             if lasts >= 1 && Wellformed(c) then h.(issued := h.issued[s.next := Issue(c, m.readAt, m.mintAt)]) else h)
  {
    hide Stands, Legal, After, EffectOf, IssueTokenFromGrant, IssuedClaims, Lasts, Wellformed;
    IssueMeans(env.key, env.tokenTtl, task.grant, task.plan.actions, task.plan.resources, task.plan.ttl, m, lasts);
    Seen(env, ls, s, task, store, lanes, h);
    var b := After(env, ls);
    assert EffectOf(env, b, MintIssued(s.next, m)) == OnMintIssued(env, b, task, m) by {
      assert Enabled(b, MintIssued(s.next, m));
      hide *;
      EffectIs(env, b, MintIssued(s.next, m));
    }
    Goes(env, ls, s, task, store, lanes, h, MintIssued(s.next, m), OnMintIssued(env, b, task, m));
  }

  // ----- use and authorize -----

  /** The service's verifier takes the token at this moment for the claims `d`. */
  ghost predicate Admits(env: Env, w: Wire, e: Expectation, at: int, d: Claims)
  {
    w.body.Compact? && w.lead == "" && (w.trail == "" || env.skips(w.trail))
    && (exists c :: Accepted(w.body.jwt, c, [env.key], e.audience, at, 0) && d == c.(ownerTrustId := None))
    && (e.actor != "" ==> d.actor == e.actor)
    && (e.action != "" ==> e.action in d.actions) && (e.resource != "" ==> e.resource in d.resources)
  }

  lemma AdmitsIs(env: Env, w: Wire, e: Expectation, at: int, d: Claims)
    ensures VerifyAuthorityToken(env.skips, w, e, [env.key], at, 0) == Ok(d) <==> Admits(env, w, e, at, d)
  {
    ServiceAccepts(env.skips, w, e, [env.key], at, 0, d);
    hide VerifyAuthorityToken, Accepted;
  }

  lemma UseOpens(env: Env, ls: seq<Step>, w: Wire, e: Expectation, at: int)
    requires Legal(env, ls)
    ensures var s := After(env, ls);
      forall d :: Admits(env, w, e, at, d) ==>
        Stands(env, ls + [UseCall(w, e, at)], s, Some(UseReading(d, e, Shown(w, at), None)), s.store, s.lanes, s.h)
    ensures var s := After(env, ls);
      (forall d :: !Admits(env, w, e, at, d)) ==>
        Stands(env, ls + [UseCall(w, e, at)], s, None, s.store, s.lanes, s.h)
  {
    hide Stands, Legal, After, EffectOf, VerifyAuthorityToken, Admits;
    var s := After(env, ls);
    var r := VerifyAuthorityToken(env.skips, w, e, [env.key], at, 0);
    if r.Ok? { AdmitsIs(env, w, e, at, r.value); }
    forall d | Admits(env, w, e, at, d) ensures r == Ok(d) { AdmitsIs(env, w, e, at, d); }
    assert EffectOf(env, s, UseCall(w, e, at)) == OnUseCall(env, s, w, e, at) by {
      assert Enabled(s, UseCall(w, e, at));
      hide *;
      EffectIs(env, s, UseCall(w, e, at));
    }
    Opens(env, ls, UseCall(w, e, at), OnUseCall(env, s, w, e, at));
  }

  /** A consumer takes the token for the claims `c`. */
  ghost predicate ConsumerAdmits(
      w: Wire, e: Expectation, owner: Option<string>, jwks: seq<Jwk>, at: int, tolerance: int, c: Claims)
  {
    w.body.Compact? && Accepted(w.body.jwt, c, jwks, e.audience, at, tolerance)
    && (owner.Some? && owner.value != "" ==> c.sub == owner.value)
    && c.actor == e.actor && e.action in c.actions && e.resource in c.resources
  }

  lemma AuthorizeOpens(env: Env, ls: seq<Step>, w: Wire, e: Expectation, owner: Option<string>, jwks: seq<Jwk>, at: int,
    tolerance: int, c: Claims)
    requires Legal(env, ls)
    requires ConsumerAdmits(w, e, owner, jwks, at, tolerance, c)
    ensures var s := After(env, ls);
      Stands(env, ls + [AuthorizeCall(w, e, owner, jwks, at, tolerance)], s, Some(AuthorizeConsuming(w, e, c)), s.store,
             s.lanes, s.h)
  {
    hide Stands, Legal, After, EffectOf, VerifyAuthority, Accepted;
    var s := After(env, ls);
    ConsumerAccepts(w, e, owner, jwks, at, tolerance, c);
    assert EffectOf(env, s, AuthorizeCall(w, e, owner, jwks, at, tolerance))
      == OnAuthorizeCall(s, w, e, owner, jwks, at, tolerance) by {
      assert Enabled(s, AuthorizeCall(w, e, owner, jwks, at, tolerance));
      hide *;
      EffectIs(env, s, AuthorizeCall(w, e, owner, jwks, at, tolerance));
    }
    Opens(env, ls, AuthorizeCall(w, e, owner, jwks, at, tolerance),
          OnAuthorizeCall(s, w, e, owner, jwks, at, tolerance));
  }

  lemma Consumes(
      env: Env, ls: seq<Step>, s: State, task: Task, store: Store, lanes: map<string, seq<nat>>, h: History,
      at: int, d: Claims)
    requires Stands(env, ls, s, Some(task), store, lanes, h)
    requires task.AuthorizeConsuming? && Admits(env, task.w, task.e, at, d)
    ensures Stands(env, ls + [ConsumeCall(s.next, at)], s,
             Some(UseReading(d, task.e, Shown(task.w, at), Some(task.verified))), store, lanes, h)
  {
    hide Stands, Legal, After, EffectOf, Admits, VerifyAuthorityToken;
    AdmitsIs(env, task.w, task.e, at, d);
    Seen(env, ls, s, task, store, lanes, h);
    var b := After(env, ls);
    assert EffectOf(env, b, ConsumeCall(s.next, at)) == OnConsumeCall(env, b, task, at) by {
      assert Enabled(b, ConsumeCall(s.next, at));
      hide *;
      EffectIs(env, b, ConsumeCall(s.next, at));
    }
    Goes(env, ls, s, task, store, lanes, h, ConsumeCall(s.next, at), OnConsumeCall(env, b, task, at));
  }

  /** Where a call stands when it has read a grant it may use. */
  function Proceeds(task: Task, g: Grant): Task
    requires task.UseReading?
  {
    if task.claims.oneTime || g.oneTime then UseConsuming(task.claims, task.e, task.shown, g, task.outer)
    else UseReserving(task.claims, task.e, task.shown, g, task.outer)
  }

  lemma Reads(
      env: Env, ls: seq<Step>, s: State, task: Task, store: Store, lanes: map<string, seq<nat>>, h: History,
      now: int)
    requires Stands(env, ls, s, Some(task), store, lanes, h)
    requires task.UseReading?
    ensures var id := task.claims.grantId;
      var may := id in store.grants && MayUse(store.grants[id], task.claims, task.e, now);
      Stands(env, ls + [UseRead(s.next, now)], s, if may then Some(Proceeds(task, store.grants[id])) else None,
             store, lanes, h)
  {
    hide Stands, Legal, After, EffectOf, UseRefusal, MayUse;
    RefusalMeans(GetGrant(store, task.claims.grantId), task.claims, task.e, now);
    Seen(env, ls, s, task, store, lanes, h);
    var b := After(env, ls);
    assert EffectOf(env, b, UseRead(s.next, now)) == OnUseRead(b, task, now) by {
      assert Enabled(b, UseRead(s.next, now));
      hide *;
      EffectIs(env, b, UseRead(s.next, now));
    }
    Goes(env, ls, s, task, store, lanes, h, UseRead(s.next, now), OnUseRead(b, task, now));
  }

  lemma ConsumesJti(
      env: Env, ls: seq<Step>, s: State, task: Task, store: Store, lanes: map<string, seq<nat>>, h: History)
    requires Stands(env, ls, s, Some(task), store, lanes, h)
    requires task.UseConsuming?
    ensures var jti := task.claims.jti;
      Stands(env, ls + [ConsumeJti(s.next)], s,
             if jti in store.consumed then None
             else Some(UseReserving(task.claims, task.e, task.shown, task.grant, task.outer)),
             store.(consumed := store.consumed + {jti}), lanes, h)
  {
    hide Stands, Legal, After, EffectOf;
    Seen(env, ls, s, task, store, lanes, h);
    var b := After(env, ls);
    assert EffectOf(env, b, ConsumeJti(s.next)) == OnConsumeJti(b, task) by {
      assert Enabled(b, ConsumeJti(s.next));
      hide *;
      EffectIs(env, b, ConsumeJti(s.next));
    }
    Goes(env, ls, s, task, store, lanes, h, ConsumeJti(s.next), OnConsumeJti(b, task));
  }

  /** The grant after one more use. */
  function UsedOnce(g: Grant, once: bool): Grant
  {
    g.(usageCount := g.usageCount + 1, status := if once then CONSUMED else g.status)
  }

  lemma BudgetLasts(g: Grant, now: int)
    requires HasBudget(g.limits, g.usageCount) && g.validFrom.At? && g.validUntil.At? && g.status == ACTIVE
    ensures Reservable(g, g.grantVersion, now, Budget(g)) <==> Live(g, now)
  {
    BudgetIs(g.limits, g.usageCount);
    LimitsAreOneBudget(g.limits, g.usageCount);
    hide HasBudget, LimitExceeded, CountLimits, LeastCount;
  }

  lemma Reserves(
      env: Env, ls: seq<Step>, s: State, task: Task, store: Store, lanes: map<string, seq<nat>>, h: History,
      now: int)
    requires Stands(env, ls, s, Some(task), store, lanes, h)
    requires task.UseReserving? && task.grant.id in store.grants && store.grants[task.grant.id] == task.grant
    requires HasBudget(task.grant.limits, task.grant.usageCount)
    requires task.grant.validFrom.At? && task.grant.validUntil.At? && task.grant.status == ACTIVE
    ensures var (g, once) := (task.grant, task.claims.oneTime || task.grant.oneTime);
      if Live(g, now) then
        Stands(env, ls + [Reserve(s.next, now)], s, Some(UseReturning(g.id, task.claims.jti, task.outer)),
               store.(grants := store.grants[g.id := UsedOnce(g, once)]), lanes,
               h.(uses := h.uses[s.next := Use(g.id, task.e, task.shown, task.claims)]))
      else Stands(env, ls + [Reserve(s.next, now)], s, None, store, lanes, h)
  {
    hide Stands, Legal, After, EffectOf, Reservable, Budget, HasBudget, Live;
    BudgetLasts(task.grant, now);
    Seen(env, ls, s, task, store, lanes, h);
    var b := After(env, ls);
    assert EffectOf(env, b, Reserve(s.next, now)) == OnReserve(b, task, now) by {
      assert Enabled(b, Reserve(s.next, now));
      hide *;
      EffectIs(env, b, Reserve(s.next, now));
    }
    Goes(env, ls, s, task, store, lanes, h, Reserve(s.next, now), OnReserve(b, task, now));
  }

  lemma Returns(
      env: Env, ls: seq<Step>, s: State, task: Task, store: Store, lanes: map<string, seq<nat>>, h: History)
    requires Stands(env, ls, s, Some(task), store, lanes, h)
    requires task.UseReturning?
    ensures Stands(env, ls + [UseReturn(s.next)], s,
             if task.outer.Some? then Some(UseReturned(task.grantId, task.jti, task.outer.value)) else None, store,
             lanes, h.(oks := h.oks + {s.next}))
  {
    hide Stands, Legal, After, EffectOf;
    Seen(env, ls, s, task, store, lanes, h);
    var b := After(env, ls);
    assert EffectOf(env, b, UseReturn(s.next)) == OnUseReturn(b, task) by {
      assert Enabled(b, UseReturn(s.next));
      hide *;
      EffectIs(env, b, UseReturn(s.next));
    }
    Goes(env, ls, s, task, store, lanes, h, UseReturn(s.next), OnUseReturn(b, task));
  }

  lemma AuthorizeReturns(
      env: Env, ls: seq<Step>, s: State, task: Task, store: Store, lanes: map<string, seq<nat>>, h: History)
    requires Stands(env, ls, s, Some(task), store, lanes, h)
    requires task.UseReturned? && task.grantId == task.verified.grantId && task.jti == task.verified.jti
    ensures Stands(env, ls + [AuthorizeReturn(s.next)], s, None, store, lanes,
             h.(authorized := h.authorized[s.next := task.verified]))
  {
    hide Stands, Legal, After, EffectOf;
    Seen(env, ls, s, task, store, lanes, h);
    var b := After(env, ls);
    assert EffectOf(env, b, AuthorizeReturn(s.next)) == OnAuthorizeReturn(b, task) by {
      assert Enabled(b, AuthorizeReturn(s.next));
      hide *;
      EffectIs(env, b, AuthorizeReturn(s.next));
    }
    Goes(env, ls, s, task, store, lanes, h, AuthorizeReturn(s.next), OnAuthorizeReturn(b, task));
  }
}
