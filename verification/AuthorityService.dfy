/**
 The class of packages/digi-authority/src/service.ts over the memory store.  Each method is the code
 between two awaits of a call.  `trace` is the steps taken so far: `Valid` says that they are a run of
 AuthorityMachine and that the object is where that run leads, so every theorem of AuthorityRuns is a
 theorem about the object, in whatever order its calls proceed.
 */
module AuthorityService {
  import opened JsValues
  import opened Results
  import opened AuthorityTypes
  import opened Policy
  import opened Claims
  import opened Tokens
  import opened TokenAcceptance
  import opened Grants
  import opened AuthorityMachine
  import opened AuthorityInvariant
  import Runs = AuthorityRuns
  import Provenance = AuthorityProvenance
  import opened MemoryStore

  class Service {
    const env: Env
    const store: MemoryAuthorityStore
    /** The calls that wait for an await to return, and the `lanes` of `enqueue`. */
    var tasks: map<nat, Task>
    var lanes: map<string, seq<nat>>
    var next: nat
    ghost var h: History
    ghost var trace: seq<Step>

    ghost function View(): State
      reads this, store
    {
      State(store.State(), tasks, lanes, next, h)
    }

    ghost predicate Valid()
      reads this, store
    {
      Legal(env, trace) && View() == After(env, trace)
    }

    constructor (env: Env)
      ensures Valid() && fresh(store) && View() == START && trace == [] && this.env == env
    {
      this.env := env;
      store := new MemoryAuthorityStore();
      tasks, lanes, next, h, trace := map[], map[], 0, START.h, [];
    }

    /** The object has moved as the machine does. */
    ghost method Took(l: Step, before: State)
      requires Legal(env, trace) && After(env, trace) == before && Enabled(before, l)
      requires View() == Apply(before, Mover(before, l), EffectOf(env, before, l))
      modifies this`trace
      ensures Valid() && trace == old(trace) + [l]
    {
      hide Enabled, EffectOf, Mover, Apply;
      Runs.Extend(env, trace, l);
      trace := trace + [l];
    }

    // ----- what its run says of the object -----

    /** Calls are numbered in the order they begin. */
    lemma Fresh()
      requires Valid()
      ensures next !in tasks
    {
      Runs.InvHolds(env, trace);
      hide After, Legal;
    }

    /** The token call `t` has issued carries claims that stay within their grant as the store has it. */
    ghost predicate Issued(t: nat, w: Wire)
      reads this, store
    {
      t in h.issued && Carries(w, h.issued[t].claims) && h.issued[t].claims.grantId in store.grants
      && WithinGrant(h.issued[t].claims, store.grants[h.issued[t].claims.grantId])
    }

    lemma IssuedIsWithin(t: nat, w: Wire)
      requires Valid() && t in h.issued && Carries(w, h.issued[t].claims)
      ensures Issued(t, w)
    {
      hide After, Legal, Carries, WithinGrant;
      Runs.IssuedIsWithin(env, trace, t);
    }

    /** A call that returns is over. */
    lemma NotDecided(t: nat)
      requires Valid() && t in tasks
      ensures t !in h.decided
    {
      hide After, Legal;
      Runs.CallHolds(env, trace, t);
    }

    /** A use about to return is on record. */
    lemma Taken(t: nat)
      requires Valid() && t in tasks && tasks[t].UseReturning?
      ensures t in h.uses && h.uses[t].grantId == tasks[t].grantId
    {
      hide After, Legal;
      Runs.Returning(env, trace, t);
    }

    /** A use made for `authorizeAuthority` is of the grant and token it has verified. */
    lemma Bound(t: nat)
      requires Valid() && t in tasks && tasks[t].UseReturned?
      ensures tasks[t].grantId == tasks[t].verified.grantId && tasks[t].jti == tasks[t].verified.jti
    {
      hide After, Legal;
      Runs.Returned(env, trace, t);
    }

    /** The use of call `t` was made with a token of its claims that the service's key has signed. */
    ghost predicate Signed(t: nat)
      reads this
    {
      t in h.uses && h.uses[t].shown.w.body.Compact? &&
      var jwt := h.uses[t].shown.w.body.jwt;
      jwt.signature == SignedBy(env.key.key, jwt.header, jwt.payload)
      && exists c :: jwt.payload == ToPayload(c) && Wellformed(c) && SameClaims(h.uses[t].claims, c)
    }

    lemma UseIsSigned(t: nat)
      requires Valid() && t in h.uses
      ensures Signed(t)
    {
      hide After, Legal, Wellformed, ToPayload, Genuine;
      Provenance.UseIsSigned(env, trace, t);
    }

    /** The owner of its grant asked for the token that call `t` has issued. */
    lemma IssuedToOwner(t: nat)
      requires Valid() && t in h.issued
      ensures t in h.callers && h.callers[t].ownerId == h.issued[t].claims.sub
    {
      hide After, Legal;
      Provenance.IssuedToOwner(env, trace, t);
    }

    lemma RevokedByOwner(g: string)
      requires Valid() && g in h.revoked
      ensures h.revoked[g] in h.callers && g in store.grants
      ensures h.callers[h.revoked[g]].ownerId == store.grants[g].ownerId
    {
      hide After, Legal;
      Provenance.RevokedByOwner(env, trace, g);
    }

    /** All the uses of a one-time grant are one. */
    ghost predicate Only(t: nat)
      reads this, store
    {
      t in h.uses && h.uses[t].grantId in store.grants
      && (store.grants[h.uses[t].grantId].oneTime ==>
        forall u :: u in h.uses && h.uses[u].grantId == h.uses[t].grantId ==> u == t)
    }

    lemma OnlyUse(t: nat)
      requires Valid() && t in h.uses
      ensures Only(t)
    {
      hide After, Legal;
      Runs.OneTimeOnce(env, trace, t, t);
      forall u | u in h.uses && h.uses[u].grantId == h.uses[t].grantId && store.grants[h.uses[t].grantId].oneTime
        ensures u == t
      {
        Runs.OneTimeOnce(env, trace, u, t);
      }
    }

    /** The stored count is the number of uses on record, and within every limit. */
    lemma CountIsUses(id: string)
      requires Valid() && id in store.grants
      ensures store.grants[id].usageCount == |UsesOf(h.uses, id)|
      ensures var g := store.grants[id];
        g.usageCount > 0 ==> CountLimits(g.limits) && forall k :: k in g.limits ==> g.usageCount <= CountOf(g.limits, k)
    {
      hide After, Legal, UsesOf;
      Runs.CountIsUses(env, trace, id);
    }

    /** A request has been resolved by one call at most. */
    lemma ResolvedByOne(t: nat, u: nat)
      requires Valid() && t in h.resolutions && u in h.resolutions && h.resolutions[t] == h.resolutions[u]
      ensures t == u
    {
      hide After, Legal;
      Runs.ResolvedByOne(env, trace, t, u);
    }

    // ----- moving -----

    method Begin(task: Task, ghost n: Notes)
      modifies this`tasks, this`next, this`h
      ensures tasks == old(tasks)[old(next) := task] && next == old(next) + 1 && h == Noted(old(h), old(next), n)
    {
      h := Noted(h, next, n);
      tasks := tasks[next := task];
      next := next + 1;
    }

    /** A call that returns before its first await. */
    method EndAtOnce(ghost n: Notes)
      requires next !in tasks
      modifies this`next, this`h
      ensures old(tasks) - {old(next)} == tasks && next == old(next) + 1 && h == Noted(old(h), old(next), n)
    {
      h := Noted(h, next, n);
      next := next + 1;
    }

    method Go(t: nat, task: Task, ghost n: Notes)
      requires t in tasks
      modifies this`tasks, this`h
      ensures tasks == old(tasks)[t := task] && h == Noted(old(h), t, n)
    {
      tasks := tasks[t := task];
      h := Noted(h, t, n);
    }

    method End(t: nat, ghost n: Notes)
      modifies this`tasks, this`h
      ensures tasks == old(tasks) - {t} && h == Noted(old(h), t, n)
    {
      tasks := tasks - {t};
      h := Noted(h, t, n);
    }

    /** `enqueue`, up to the wait for the calls before this one. */
    method Enqueue(r: string, task: Task, ghost n: Notes)
      modifies this`tasks, this`next, this`lanes, this`h
      ensures tasks == old(tasks)[old(next) := task] && next == old(next) + 1 && h == Noted(old(h), old(next), n)
      ensures lanes == MoveLanes(old(lanes), old(next), LaneMove.Join(r))
    {
      lanes := lanes[r := LaneIn(lanes, r) + [next]];
      Begin(task, n);
    }

    /** The running call of a lane settles. */
    method Leave(t: nat, r: string)
      modifies this`lanes
      ensures lanes == MoveLanes(old(lanes), t, LaneMove.Leave(r))
    {
      var lane := LaneIn(lanes, r);
      lanes := lanes[r := if lane == [] then [] else lane[1..]];
    }

    // ----- check -----

    method CheckCall(input: CheckInput, now: int)
      requires Valid()
      modifies this
      ensures Valid() && trace == old(trace) + [Step.CheckCall(input, now)]
    {
      hide EffectOf, Do, Legal, After, Decide, SelfOwned;
      Fresh();
      ghost var s := View();
      var m := Decide(env.policies, input.scope);
      if SelfOwned(input.ownerId, input.scope.actor) {
        EndAtOnce(QUIET.(answer := Some((input, Denied(OwnerBoundary)))));
      } else if m.requireStepUp && !input.stepUpProvided {
        EndAtOnce(QUIET.(answer := Some((input, Denied(StepUpRequired)))));
      } else if m.decision == DENY {
        EndAtOnce(QUIET.(answer := Some((input, Denied(PolicyDeny)))));
      } else if m.decision == ASK_OWNER {
        Begin(AskCreating(input, m), QUIET);
      } else {
        Begin(AllowListing(input, m, now), QUIET);
      }
      assert EffectOf(env, s, Step.CheckCall(input, now)) == OnCheckCall(env, s, input, now) by {
        hide *;
        EffectIs(env, s, Step.CheckCall(input, now));
      }
      Took(Step.CheckCall(input, now), s);
    }

    method CreateAsked(t: nat, id: string)
      requires Valid() && Enabled(View(), Step.CreateAsked(t, id))
      modifies this, store
      ensures Valid() && trace == old(trace) + [Step.CreateAsked(t, id)]
    {
      hide EffectOf, Do, Legal, After;
      Fresh();
      ghost var s := View();
      var task := tasks[t];
      store.CreateRequest(NewRequest(id, task.input, task.m));
      End(t, QUIET.(answer := Some((task.input, Asked(id)))));
      assert EffectOf(env, s, Step.CreateAsked(t, id)) == OnCreateAsked(s, s.tasks[t], id) by {
        hide *;
        EffectIs(env, s, Step.CreateAsked(t, id));
      }
      Took(Step.CreateAsked(t, id), s);
    }

    /** Some active grant that suits the request, if there is one; `listGrants` does not fix which. */
    method ListGrants(t: nat) returns (found: Option<string>)
      requires Valid() && t in tasks && tasks[t].AllowListing?
      modifies this
      ensures Valid() && trace == old(trace) + [Step.ListGrants(t, found)]
    {
      hide EffectOf, Do, Legal, After;
      Fresh();
      ghost var s := View();
      var task := tasks[t];
      if id :| id in store.grants && Suits(store.grants[id], task.input, task.now) {
        found := Some(id);
        End(t, QUIET.(answer := Some((task.input, AnswerFor(store.grants[id], task.m)))));
      } else {
        found := None;
        Go(t, AllowCreating(task.input, task.m, task.now), QUIET);
      }
      assert EffectOf(env, s, Step.ListGrants(t, found)) == OnListGrants(s, s.tasks[t], found) by {
        hide *;
        EffectIs(env, s, Step.ListGrants(t, found));
      }
      Took(Step.ListGrants(t, found), s);
    }

    method CreateAllowed(t: nat, id: string)
      requires Valid() && Enabled(View(), Step.CreateAllowed(t, id))
      modifies this, store
      ensures Valid() && trace == old(trace) + [Step.CreateAllowed(t, id)]
    {
      hide EffectOf, Do, Legal, After;
      Fresh();
      ghost var s := View();
      var task := tasks[t];
      var g := NewAllowed(id, task.input, task.m, task.now);
      store.CreateGrant(g);
      End(t, QUIET.(answer := Some((task.input, AnswerFor(g, task.m)))));
      assert EffectOf(env, s, Step.CreateAllowed(t, id)) == OnCreateAllowed(s, s.tasks[t], id) by {
        hide *;
        EffectIs(env, s, Step.CreateAllowed(t, id));
      }
      Took(Step.CreateAllowed(t, id), s);
    }

    // ----- approve and deny -----

    method ApproveCall(ownerId: string, requestId: string, oneTime: Option<bool>, ttl: Option<Ttl>)
      requires Valid()
      modifies this
      ensures Valid() && trace == old(trace) + [Step.ApproveCall(ownerId, requestId, oneTime, ttl)]
    {
      hide EffectOf, Do, Legal, After;
      Fresh();
      ghost var s := View();
      Enqueue(requestId, ApproveQueued(ownerId, requestId, oneTime, ttl),
              QUIET.(approval := Some((ownerId, requestId)), caller := Some(Caller(ownerId, oneTime, ttl))));
      assert EffectOf(env, s, Step.ApproveCall(ownerId, requestId, oneTime, ttl))
        == OnApproveCall(s, ownerId, requestId, oneTime, ttl) by {
        hide *;
        EffectIs(env, s, Step.ApproveCall(ownerId, requestId, oneTime, ttl));
      }
      Took(Step.ApproveCall(ownerId, requestId, oneTime, ttl), s);
    }

    method DenyCall(ownerId: string, requestId: string)
      requires Valid()
      modifies this
      ensures Valid() && trace == old(trace) + [Step.DenyCall(ownerId, requestId)]
    {
      hide EffectOf, Do, Legal, After;
      Fresh();
      ghost var s := View();
      Enqueue(requestId, DenyQueued(ownerId, requestId), QUIET.(caller := Some(Caller(ownerId, None, None))));
      assert EffectOf(env, s, Step.DenyCall(ownerId, requestId)) == OnDenyCall(s, ownerId, requestId) by {
        hide *;
        EffectIs(env, s, Step.DenyCall(ownerId, requestId));
      }
      Took(Step.DenyCall(ownerId, requestId), s);
    }

    /** `approvePending` and `denyPending` up to their first write. */
    method LaneStart(t: nat)
      requires Valid() && Enabled(View(), Step.LaneStart(t))
      modifies this
      ensures Valid() && trace == old(trace) + [Step.LaneStart(t)]
    {
      hide EffectOf, Do, Legal, After, NeedsStepUp, SelfOwned;
      Fresh();
      ghost var s := View();
      var task := tasks[t];
      var found := store.GetRequest(task.requestId);
      if found.None? || found.value.ownerId != task.ownerId || found.value.status != PENDING {
        End(t, QUIET);
        Leave(t, task.requestId);
      } else {
        var req := found.value;
        if task.DenyQueued? {
          Go(t, DenyWriting(req), QUIET);
        } else if SelfOwned(task.ownerId, req.actor) {
          End(t, QUIET);
          Leave(t, task.requestId);
        } else if NeedsStepUp(req) {
          Go(t, StepUpDenying(req), QUIET);
        } else {
          Go(t, ApproveCreating(req, OnceIfUnsaid(task.oneTime), HourIfUnsaid(task.ttl)), QUIET);
        }
      }
      assert EffectOf(env, s, Step.LaneStart(t)) == OnLaneStart(s, s.tasks[t]) by {
        hide *;
        EffectIs(env, s, Step.LaneStart(t));
      }
      Took(Step.LaneStart(t), s);
    }

    method WriteDenied(t: nat, audited: bool, now: int)
      requires Valid() && Enabled(View(), Step.WriteDenied(t, audited, now))
      modifies this, store
      ensures Valid() && trace == old(trace) + [Step.WriteDenied(t, audited, now)]
    {
      hide EffectOf, Do, Legal, After;
      Fresh();
      ghost var s := View();
      var task := tasks[t];
      store.ResolveRequest(task.req.id, DENIED, None, now);
      End(t, QUIET.(resolution := Some(task.req.id), decided := task.DenyWriting? && audited));
      Leave(t, task.req.id);
      assert EffectOf(env, s, Step.WriteDenied(t, audited, now)) == OnWriteDenied(s, s.tasks[t], audited, now) by {
        hide *;
        EffectIs(env, s, Step.WriteDenied(t, audited, now));
      }
      Took(Step.WriteDenied(t, audited, now), s);
    }

    method CreateApproved(t: nat, id: string, now: int)
      requires Valid() && Enabled(View(), Step.CreateApproved(t, id, now))
      modifies this, store
      ensures Valid() && trace == old(trace) + [Step.CreateApproved(t, id, now)]
    {
      hide EffectOf, Do, Legal, After;
      Fresh();
      ghost var s := View();
      var task := tasks[t];
      var g := NewApproved(id, task.req, task.once, task.lasts, now);
      store.CreateGrant(g);
      Go(t, ApproveResolving(task.req, g), QUIET.(made := Some(Making(id, task.req.id, now))));
      assert EffectOf(env, s, Step.CreateApproved(t, id, now)) == OnCreateApproved(s, s.tasks[t], id, now) by {
        hide *;
        EffectIs(env, s, Step.CreateApproved(t, id, now));
      }
      Took(Step.CreateApproved(t, id, now), s);
    }

    method ResolveApproved(t: nat, now: int)
      requires Valid() && Enabled(View(), Step.ResolveApproved(t, now))
      modifies this, store
      ensures Valid() && trace == old(trace) + [Step.ResolveApproved(t, now)]
    {
      hide EffectOf, Do, Legal, After;
      Fresh();
      ghost var s := View();
      var task := tasks[t];
      store.ResolveRequest(task.req.id, ACTIVE, Some(task.grant.id), now);
      Go(t, ApproveMinting(task.req, task.grant), QUIET.(resolution := Some(task.req.id)));
      assert EffectOf(env, s, Step.ResolveApproved(t, now)) == OnResolveApproved(s, s.tasks[t], now) by {
        hide *;
        EffectIs(env, s, Step.ResolveApproved(t, now));
      }
      Took(Step.ResolveApproved(t, now), s);
    }

    method MintApproved(t: nat, m: Minting) returns (token: Option<Wire>)
      requires Valid() && Enabled(View(), Step.MintApproved(t, m))
      modifies this
      ensures Valid() && trace == old(trace) + [Step.MintApproved(t, m)]
      ensures token.Some? <==> t in h.decided
      ensures token.Some? ==> Issued(t, token.value)
    {
      hide EffectOf, Do, Legal, After, IssueTokenFromGrant, Carries, WithinGrant, CallOk;
      Fresh();
      NotDecided(t);
      ghost var s := View();
      var task := tasks[t];
      var r := IssueTokenFromGrant(env.key, env.tokenTtl, task.grant, [task.req.action], [task.req.resource], None, m);
      End(t, QUIET.(issued := Minted(r, m), decided := Minted(r, m).Some?));
      Leave(t, task.req.id);
      assert EffectOf(env, s, Step.MintApproved(t, m)) == OnMintApproved(env, s, s.tasks[t], m) by {
        hide *;
        EffectIs(env, s, Step.MintApproved(t, m));
      }
      Took(Step.MintApproved(t, m), s);
      token := if r.Ok? then Some(r.value.0) else None;
      if r.Ok? {
        IssuedCarries(env.key, env.tokenTtl, task.grant, [task.req.action], [task.req.resource], None, m);
        IssuedIsWithin(t, r.value.0);
      }
    }

    // ----- revoke, issue, use -----

    method RevokeCall(ownerId: string, grantId: string)
      requires Valid()
      modifies this
      ensures Valid() && trace == old(trace) + [Step.RevokeCall(ownerId, grantId)]
    {
      hide EffectOf, Do, Legal, After;
      Fresh();
      ghost var s := View();
      var found := store.GetGrant(grantId);
      if found.None? || found.value.ownerId != ownerId || found.value.status == REVOKED {
        EndAtOnce(QUIET.(caller := Some(Caller(ownerId, None, None))));
      } else {
        Begin(RevokeWriting(grantId), QUIET.(caller := Some(Caller(ownerId, None, None))));
      }
      assert EffectOf(env, s, Step.RevokeCall(ownerId, grantId)) == OnRevokeCall(s, ownerId, grantId) by {
        hide *;
        EffectIs(env, s, Step.RevokeCall(ownerId, grantId));
      }
      Took(Step.RevokeCall(ownerId, grantId), s);
    }

    method WriteRevoked(t: nat, now: int)
      requires Valid() && Enabled(View(), Step.WriteRevoked(t, now))
      modifies this, store
      ensures Valid() && trace == old(trace) + [Step.WriteRevoked(t, now)]
      ensures var g := old(tasks)[t].grantId;
        t in h.callers && g in store.grants && h.callers[t].ownerId == store.grants[g].ownerId
        && store.grants[g].status == REVOKED
    {
      hide EffectOf, Do, Legal, After;
      Fresh();
      ghost var s := View();
      var id := tasks[t].grantId;
      store.UpdateGrantStatus(id, REVOKED, Some(Some(At(now))));
      End(t, QUIET.(revoked := Some(id)));
      assert EffectOf(env, s, Step.WriteRevoked(t, now)) == OnWriteRevoked(s, s.tasks[t], now) by {
        hide *;
        EffectIs(env, s, Step.WriteRevoked(t, now));
      }
      Took(Step.WriteRevoked(t, now), s);
      RevokedByOwner(id);
    }

    method IssueCall(ownerId: string, grantId: string, narrow: Narrow, now: int)
      requires Valid()
      modifies this
      ensures Valid() && trace == old(trace) + [Step.IssueCall(ownerId, grantId, narrow, now)]
    {
      hide EffectOf, Do, Legal, After, PlanIssue;
      Fresh();
      ghost var s := View();
      var found := store.GetGrant(grantId);
      var planned := PlanIssue(found, ownerId, narrow, env.tokenTtl, now);
      if planned.Refused? {
        EndAtOnce(QUIET.(caller := Some(Caller(ownerId, None, None))));
      } else {
        assert found.Some? by { PlanNeedsGrant(found, ownerId, narrow, env.tokenTtl, now); }
        Begin(Issuing(found.value, planned.plan), QUIET.(caller := Some(Caller(ownerId, None, None))));
      }
      assert EffectOf(env, s, Step.IssueCall(ownerId, grantId, narrow, now))
        == OnIssueCall(env, s, ownerId, grantId, narrow, now) by {
        hide *;
        EffectIs(env, s, Step.IssueCall(ownerId, grantId, narrow, now));
      }
      Took(Step.IssueCall(ownerId, grantId, narrow, now), s);
    }

    method MintIssued(t: nat, m: Minting) returns (token: Option<Wire>)
      requires Valid() && Enabled(View(), Step.MintIssued(t, m))
      modifies this
      ensures Valid() && trace == old(trace) + [Step.MintIssued(t, m)]
      ensures token.Some? ==> Issued(t, token.value)
      ensures token.Some? ==> t in h.callers && h.callers[t].ownerId == h.issued[t].claims.sub
    {
      hide EffectOf, Do, Legal, After, IssueTokenFromGrant, Carries, WithinGrant;
      Fresh();
      ghost var s := View();
      var task := tasks[t];
      var plan := task.plan;
      var r := IssueTokenFromGrant(env.key, env.tokenTtl, task.grant, plan.actions, plan.resources, plan.ttl, m);
      End(t, QUIET.(issued := Minted(r, m)));
      assert EffectOf(env, s, Step.MintIssued(t, m)) == OnMintIssued(env, s, s.tasks[t], m) by {
        hide *;
        EffectIs(env, s, Step.MintIssued(t, m));
      }
      Took(Step.MintIssued(t, m), s);
      token := if r.Ok? then Some(r.value.0) else None;
      if r.Ok? {
        IssuedCarries(env.key, env.tokenTtl, task.grant, plan.actions, plan.resources, plan.ttl, m);
        IssuedIsWithin(t, r.value.0);
        IssuedToOwner(t);
      }
    }

    method UseCall(w: Wire, e: Expectation, now: int)
      requires Valid()
      modifies this
      ensures Valid() && trace == old(trace) + [Step.UseCall(w, e, now)]
    {
      hide EffectOf, Do, Legal, After, VerifyAuthorityToken;
      Fresh();
      ghost var s := View();
      var verified := VerifyAuthorityToken(env.skips, w, e, [env.key], now, 0);
      if verified.Err? {
        EndAtOnce(QUIET);
      } else {
        Begin(UseReading(verified.value, e, Shown(w, now), None), QUIET);
      }
      assert EffectOf(env, s, Step.UseCall(w, e, now)) == OnUseCall(env, s, w, e, now) by {
        hide *;
        EffectIs(env, s, Step.UseCall(w, e, now));
      }
      Took(Step.UseCall(w, e, now), s);
    }

    /** `authorizeAuthority` of a host of this service, with the keys, clock and owner it has. */
    method AuthorizeCall(w: Wire, e: Expectation, owner: Option<string>, jwks: seq<Jwk>, now: int, tolerance: int)
      requires Valid()
      modifies this
      ensures Valid() && trace == old(trace) + [Step.AuthorizeCall(w, e, owner, jwks, now, tolerance)]
    {
      hide EffectOf, Do, Legal, After, VerifyAuthority;
      Fresh();
      ghost var s := View();
      var verified := VerifyAuthority(w, e, owner, jwks, now, tolerance);
      if verified.Err? {
        EndAtOnce(QUIET);
      } else {
        Begin(AuthorizeConsuming(w, e, verified.value), QUIET);
      }
      assert EffectOf(env, s, Step.AuthorizeCall(w, e, owner, jwks, now, tolerance))
        == OnAuthorizeCall(s, w, e, owner, jwks, now, tolerance) by {
        hide *;
        EffectIs(env, s, Step.AuthorizeCall(w, e, owner, jwks, now, tolerance));
      }
      Took(Step.AuthorizeCall(w, e, owner, jwks, now, tolerance), s);
    }

    method ConsumeCall(t: nat, now: int)
      requires Valid() && Enabled(View(), Step.ConsumeCall(t, now))
      modifies this
      ensures Valid() && trace == old(trace) + [Step.ConsumeCall(t, now)]
    {
      hide EffectOf, Do, Legal, After, VerifyAuthorityToken;
      Fresh();
      ghost var s := View();
      var task := tasks[t];
      var verified := VerifyAuthorityToken(env.skips, task.w, task.e, [env.key], now, 0);
      if verified.Err? {
        End(t, QUIET);
      } else {
        Go(t, UseReading(verified.value, task.e, Shown(task.w, now), Some(task.verified)), QUIET);
      }
      assert EffectOf(env, s, Step.ConsumeCall(t, now)) == OnConsumeCall(env, s, s.tasks[t], now) by {
        hide *;
        EffectIs(env, s, Step.ConsumeCall(t, now));
      }
      Took(Step.ConsumeCall(t, now), s);
    }

    method UseRead(t: nat, now: int)
      requires Valid() && Enabled(View(), Step.UseRead(t, now))
      modifies this
      ensures Valid() && trace == old(trace) + [Step.UseRead(t, now)]
    {
      hide EffectOf, Do, Legal, After, UseRefusal;
      Fresh();
      ghost var s := View();
      var task := tasks[t];
      var found := store.GetGrant(task.claims.grantId);
      if UseRefusal(found, task.claims, task.e, now).Some? {
        End(t, QUIET);
      } else {
        assert found.Some? by { UseNeedsGrant(found, task.claims, task.e, now); }
        if task.claims.oneTime || found.value.oneTime {
          Go(t, UseConsuming(task.claims, task.e, task.shown, found.value, task.outer), QUIET);
        } else {
          Go(t, UseReserving(task.claims, task.e, task.shown, found.value, task.outer), QUIET);
        }
      }
      assert EffectOf(env, s, Step.UseRead(t, now)) == OnUseRead(s, s.tasks[t], now) by {
        hide *;
        EffectIs(env, s, Step.UseRead(t, now));
      }
      Took(Step.UseRead(t, now), s);
    }

    method ConsumeJti(t: nat)
      requires Valid() && Enabled(View(), Step.ConsumeJti(t))
      modifies this, store
      ensures Valid() && trace == old(trace) + [Step.ConsumeJti(t)]
    {
      hide EffectOf, Do, Legal, After;
      Fresh();
      ghost var s := View();
      var task := tasks[t];
      var first := store.TryConsumeJti(task.claims.jti);
      if first {
        Go(t, UseReserving(task.claims, task.e, task.shown, task.grant, task.outer), QUIET);
      } else {
        End(t, QUIET);
      }
      assert EffectOf(env, s, Step.ConsumeJti(t)) == OnConsumeJti(s, s.tasks[t]) by {
        hide *;
        EffectIs(env, s, Step.ConsumeJti(t));
      }
      Took(Step.ConsumeJti(t), s);
    }

    /** `true` is the only use of a one-time grant there has been, and of a token the service has signed. */
    method Reserve(t: nat, now: int) returns (reserved: bool)
      requires Valid() && Enabled(View(), Step.Reserve(t, now))
      modifies this, store
      ensures Valid() && trace == old(trace) + [Step.Reserve(t, now)]
      ensures reserved ==> Signed(t) && Only(t)
    {
      hide EffectOf, Do, Legal, After, Budget, Signed, Only;
      Fresh();
      ghost var s := View();
      var task := tasks[t];
      var g := task.grant;
      reserved := store.ReserveUse(g.id, g.grantVersion, now, Budget(g), task.claims.oneTime || g.oneTime);
      if reserved {
        Go(t, UseReturning(g.id, task.claims.jti, task.outer),
           QUIET.(used := Some(Use(g.id, task.e, task.shown, task.claims))));
      } else {
        End(t, QUIET);
      }
      assert EffectOf(env, s, Step.Reserve(t, now)) == OnReserve(s, s.tasks[t], now) by {
        hide *;
        EffectIs(env, s, Step.Reserve(t, now));
      }
      Took(Step.Reserve(t, now), s);
      if reserved {
        OnlyUse(t);
        UseIsSigned(t);
      }
    }

    method UseReturn(t: nat) returns (grantId: string, jti: string)
      requires Valid() && Enabled(View(), Step.UseReturn(t))
      modifies this
      ensures Valid() && trace == old(trace) + [Step.UseReturn(t)]
      ensures grantId == old(tasks)[t].grantId && jti == old(tasks)[t].jti
      ensures grantId in store.grants && t in h.oks && t in h.uses && h.uses[t].grantId == grantId
      ensures store.grants[grantId].oneTime ==>
        forall u :: u in h.oks && u in h.uses && h.uses[u].grantId == grantId ==> u == t
    {
      hide EffectOf, Do, Legal, After;
      Fresh();
      ghost var s := View();
      Taken(t);
      var task := tasks[t];
      grantId, jti := task.grantId, task.jti;
      if task.outer.None? {
        End(t, QUIET.(ok := true));
      } else {
        Go(t, UseReturned(grantId, jti, task.outer.value), QUIET.(ok := true));
      }
      assert EffectOf(env, s, Step.UseReturn(t)) == OnUseReturn(s, s.tasks[t]) by {
        hide *;
        EffectIs(env, s, Step.UseReturn(t));
      }
      Took(Step.UseReturn(t), s);
      OnlyUse(t);
    }

    /** The grant and jti that came back are those verified, always. */
    method AuthorizeReturn(t: nat) returns (verified: Option<Claims>)
      requires Valid() && Enabled(View(), Step.AuthorizeReturn(t))
      modifies this
      ensures Valid() && trace == old(trace) + [Step.AuthorizeReturn(t)]
      ensures verified == Some(old(tasks)[t].verified)
    {
      hide EffectOf, Do, Legal, After;
      Fresh();
      ghost var s := View();
      Bound(t);
      var task := tasks[t];
      if task.grantId == task.verified.grantId && task.jti == task.verified.jti {
        verified := Some(task.verified);
      } else {
        verified := None;
      }
      End(t, QUIET.(authorized := verified));
      assert EffectOf(env, s, Step.AuthorizeReturn(t)) == OnAuthorizeReturn(s, s.tasks[t]) by {
        hide *;
        EffectIs(env, s, Step.AuthorizeReturn(t));
      }
      Took(Step.AuthorizeReturn(t), s);
    }

    method Abort(t: nat)
      requires Valid() && Enabled(View(), Step.Abort(t))
      modifies this
      ensures Valid() && trace == old(trace) + [Step.Abort(t)]
    {
      hide EffectOf, Do, Legal, After, FirstInLane, LaneOf, Queued, Finds;
      Fresh();
      ghost var s := View();
      var task := tasks[t];
      var lane := LaneOf(task);
      End(t, QUIET.(orphan := if task.ApproveResolving? then Some(task.grant.id) else None));
      if lane.Some? { Leave(t, lane.value); }
      assert EffectOf(env, s, Step.Abort(t)) == OnAbort(s, s.tasks[t]) by {
        hide *;
        EffectIs(env, s, Step.Abort(t));
      }
      Took(Step.Abort(t), s);
    }
  }

  lemma PlanNeedsGrant(found: Option<Grant>, ownerId: string, narrow: Narrow, tokenTtl: Number, now: int)
    ensures PlanIssue(found, ownerId, narrow, tokenTtl, now).Go? ==> found.Some?
  {
    hide GrantIsLive, LimitExceeded, TtlAccepted;
  }

  lemma UseNeedsGrant(found: Option<Grant>, c: Claims, e: Expectation, now: int)
    ensures UseRefusal(found, c, e, now).None? ==> found.Some?
  {
    hide GrantIsLive, LimitExceeded, Bound;
  }
}
