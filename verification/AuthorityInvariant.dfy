/**
 What every state of a run satisfies: a call holds copies that agree with the store, the record
 agrees with both, and the store's grants and requests are what policies and owners let them be.
 */
module AuthorityInvariant {
  import opened JsValues
  import opened Results
  import opened AuthorityTypes
  import opened Policy
  import opened Claims
  import opened Tokens
  import opened Grants
  import opened StoreSteps
  import opened AuthorityMachine
  import opened AuthorityFrames
  import opened AuthorityLanes

  // ----- what a call holds -----

  predicate Copy(s: State, g: Grant)
  {
    g.id in s.store.grants && Terms(s.store.grants[g.id]) == Terms(g)
  }

  /** The request as the store has it, still to be resolved. */
  predicate Unresolved(s: State, req: Request)
  {
    req.id in s.store.requests && s.store.requests[req.id] == req && req.status == PENDING
  }

  predicate Names(e: Expectation, actor: string, audience: string)
  {
    (e.actor != "" ==> actor == e.actor) && (e.audience != "" ==> audience == e.audience)
  }

  predicate Unconditional(g: Grant)
  {
    forall k :: k in g.conditions ==> !g.conditions[k]
  }

  /** What `useToken` has checked of a grant for good: none of it can change any more. */
  predicate Permits(g: Grant, e: Expectation)
  {
    e.action in g.actions && e.resource in g.resources && Names(e, ActorKey(g.actor), g.audience)
    && Unconditional(g) && CountLimits(g.limits)
  }

  /** Neither for its own owner nor short of step-up. */
  predicate Admitted(input: CheckInput, m: PolicyMatch)
  {
    !SelfOwned(input.ownerId, input.scope.actor) && (m.requireStepUp ==> input.stepUpProvided)
  }

  /** A decision to allow, as `check` carries it. */
  predicate Allowing(env: Env, input: CheckInput, m: PolicyMatch)
  {
    m == Decide(env.policies, input.scope) && (m.decision == ALLOW || m.decision == ALLOW_WITH_LIMITS)
    && Admitted(input, m)
  }

  predicate PlanWithin(plan: IssuePlan, g: Grant)
  {
    (forall a :: a in plan.actions ==> a in g.actions) && (forall r :: r in plan.resources ==> r in g.resources)
  }

  /** The part of an approval's grant that repeats its request. */
  predicate ForRequest(s: State, req: Request, g: Grant)
  {
    Copy(s, g) && g.actions == [req.action] && g.resources == [req.resource] && g.id in s.h.made
    && s.h.made[g.id] == req.id
  }

  /** The claims `authorizeAuthority` verified are the claims of this use. */
  predicate OuterAgrees(outer: Option<Claims>, c: Claims, e: Expectation)
  {
    outer.Some? ==> SameClaims(outer.value, c) && Says(outer.value, e)
  }

  predicate CutFrom(c: Claims, g: Grant)
  {
    c.grantId == g.id && c.sub == g.ownerId
  }

  /** A use of the very grant the claims name, of that owner, for what they say. */
  predicate Backs(s: State, u: Use, c: Claims)
  {
    u.grantId == c.grantId && Says(c, u.e)
    && u.grantId in s.store.grants && s.store.grants[u.grantId].ownerId == c.sub
  }

  ghost predicate TaskOk(env: Env, s: State, t: nat, task: Task)
  {
    match task
    case AskCreating(input, m) =>
      m == Decide(env.policies, input.scope) && m.decision == ASK_OWNER && Admitted(input, m)
    case AllowListing(input, m, _) => Allowing(env, input, m)
    case AllowCreating(input, m, _) => Allowing(env, input, m)
    case ApproveQueued(ownerId, r, _, _) => (ownerId, r) in s.h.approvals
    case DenyQueued(_, _) => true
    case DenyWriting(req) => Unresolved(s, req)
    case StepUpDenying(req) => Unresolved(s, req)
    case ApproveCreating(req, _, _) => Unresolved(s, req) && (req.ownerId, req.id) in s.h.approvals
    case ApproveResolving(req, g) => Unresolved(s, req) && ForRequest(s, req, g) && g.id !in s.h.orphans
    case ApproveMinting(req, g) =>
      ForRequest(s, req, g) && t in s.h.resolutions && s.h.resolutions[t] == req.id
      && req.id in s.store.requests && s.store.requests[req.id].grantId == Some(g.id)
    case RevokeWriting(id) => id in s.store.grants
    case Issuing(g, plan) => Copy(s, g) && PlanWithin(plan, g)
    case AuthorizeConsuming(w, e, verified) => Carries(w, verified) && Says(verified, e)
    case UseReading(c, e, _, outer) => Names(e, c.actor, c.aud) && OuterAgrees(outer, c, e)
    case UseConsuming(c, e, _, g, outer) => Copy(s, g) && Permits(g, e) && CutFrom(c, g) && OuterAgrees(outer, c, e)
    case UseReserving(c, e, _, g, outer) => Copy(s, g) && Permits(g, e) && CutFrom(c, g) && OuterAgrees(outer, c, e)
    case UseReturning(id, jti, outer) =>
      t in s.h.uses && s.h.uses[t].grantId == id
      && (outer.Some? ==> Backs(s, s.h.uses[t], outer.value) && outer.value.jti == jti)
    case UseReturned(id, jti, verified) =>
      t in s.h.uses && s.h.uses[t].grantId == id && t in s.h.oks && Backs(s, s.h.uses[t], verified)
      && verified.jti == jti
  }

  // ----- what is on record about a call -----

  predicate UseOk(s: State, u: Use)
  {
    u.grantId in s.store.grants && Permits(s.store.grants[u.grantId], u.e)
  }

  predicate IssueOk(s: State, i: Issue)
  {
    i.claims.grantId in s.store.grants &&
    var g := s.store.grants[i.claims.grantId];
    WithinGrant(i.claims, g) && i.claims.iat == Seconds(i.mintAt) && g.validUntil.At?
    && i.claims.exp <= Seconds(g.validUntil.ms) + (Seconds(i.mintAt) - Seconds(i.readAt))
  }

  predicate Covers(g: Grant, input: CheckInput)
  {
    g.ownerId == input.ownerId && g.actor == input.scope.actor && g.audience == input.scope.audience
    && input.scope.action in g.actions && input.scope.resource in g.resources
  }

  /** What an answer of `check` says about the policies and the store. */
  predicate AnswerOk(env: Env, s: State, input: CheckInput, a: Answer)
  {
    var m := Decide(env.policies, input.scope);
    match a
    case Denied(OwnerBoundary) => SelfOwned(input.ownerId, input.scope.actor)
    case Denied(StepUpRequired) =>
      m.requireStepUp && !input.stepUpProvided && !SelfOwned(input.ownerId, input.scope.actor)
    case Denied(PolicyDeny) => m.decision == DENY && Admitted(input, m)
    case Denied(OverLimit(_)) => Allowing(env, input, m)
    case Asked(r) =>
      m.decision == ASK_OWNER && Admitted(input, m)
      && r in s.store.requests && s.store.requests[r].ownerId == input.ownerId
      && ReqScope(s.store.requests[r]) == input.scope
    case Allowed(id) =>
      Allowing(env, input, m) && m.decision == ALLOW && id in s.store.grants && Covers(s.store.grants[id], input)
    case AllowedWithLimits(id, limits) =>
      Allowing(env, input, m) && m.decision == ALLOW_WITH_LIMITS
      && id in s.store.grants && Covers(s.store.grants[id], input) && s.store.grants[id].limits == limits
  }

  ghost predicate RecordOk(env: Env, s: State, t: nat)
  {
    && (t in s.h.resolutions ==>
      s.h.resolutions[t] in s.store.requests && s.store.requests[s.h.resolutions[t]].status != PENDING)
    && (t in s.h.resolutions && t in s.tasks ==> s.tasks[t].ApproveMinting?)
    && (t in s.h.decided ==> t in s.h.resolutions && t !in s.tasks)
    && (t in s.h.uses ==> UseOk(s, s.h.uses[t]))
    && (t in s.h.uses && t in s.tasks ==> s.tasks[t].UseReturning? || s.tasks[t].UseReturned?)
    && (t in s.h.oks ==> t in s.h.uses)
    && (t in s.h.authorized ==> t in s.h.oks && t in s.h.uses && Backs(s, s.h.uses[t], s.h.authorized[t]))
    && (t in s.h.issued ==> IssueOk(s, s.h.issued[t]))
    && (t in s.h.answers ==> AnswerOk(env, s, s.h.answers[t].0, s.h.answers[t].1))
  }

  predicate Known(s: State, t: nat)
  {
    t in s.tasks || t in s.h.answers || t in s.h.resolutions || t in s.h.decided || t in s.h.uses || t in s.h.oks
    || t in s.h.authorized || t in s.h.issued
  }

  ghost predicate CallOk(env: Env, s: State, t: nat)
  {
    && (t in s.tasks ==> TaskOk(env, s, t, s.tasks[t]))
    && RecordOk(env, s, t)
    && (Known(s, t) ==> t < s.next)
  }

  // ----- the store -----

  ghost predicate RequestOk(env: Env, s: State, id: string)
    requires id in s.store.requests
  {
    var r := s.store.requests[id];
    && r.id == id && r.decision == ASK_OWNER && Decide(env.policies, ReqScope(r)).decision == ASK_OWNER
    && !SelfOwned(r.ownerId, r.actor)
    && (r.status == PENDING || r.status == ACTIVE || r.status == DENIED)
    && (r.status == ACTIVE <==> r.grantId.Some?) && (r.status != PENDING <==> r.resolvedAt.Some?)
    && (r.grantId.Some? ==> r.grantId.value in s.h.made && s.h.made[r.grantId.value] == id)
  }

  predicate Holds(s: State, t: nat, g: string)
  {
    t in s.tasks && s.tasks[t].ApproveResolving? && s.tasks[t].grant.id == g
  }

  /** An approval's grant is recorded in its request, about to be, or left over from a call that was cut off. */
  ghost predicate MadeOk(s: State, g: string)
    requires g in s.h.made
  {
    g in s.store.grants && s.h.made[g] in s.store.requests
    && (g in s.h.orphans || s.store.requests[s.h.made[g]].grantId == Some(g) || exists t :: Holds(s, t, g))
  }

  function GrantScope(g: Grant): Scope
    requires |g.actions| == 1 && |g.resources| == 1
  {
    Scope(g.actor, g.audience, g.actions[0], g.resources[0])
  }

  /** Approved by its owner for exactly this scope. */
  predicate ByOwner(s: State, g: Grant)
    requires |g.actions| == 1 && |g.resources| == 1
  {
    g.id in s.h.made &&
    var r := s.h.made[g.id];
    (g.ownerId, r) in s.h.approvals && r in s.store.requests
    && s.store.requests[r].ownerId == g.ownerId && ReqScope(s.store.requests[r]) == GrantScope(g)
    && g.approvalMode == ALLOW && g.limits == map[] && g.conditions == map[]
  }

  /** Allowed by policy, on the policy's terms. */
  predicate ByPolicy(env: Env, s: State, g: Grant)
    requires |g.actions| == 1 && |g.resources| == 1
  {
    var m := Decide(env.policies, GrantScope(g));
    g.id !in s.h.made && (m.decision == ALLOW || m.decision == ALLOW_WITH_LIMITS)
    && g.approvalMode == m.decision && g.limits == m.limits && g.oneTime == m.oneTime
    && g.conditions == if m.requireStepUp then STEP_UP else map[]
  }

  ghost predicate Founded(env: Env, s: State, g: Grant)
  {
    |g.actions| == 1 && |g.resources| == 1 && !SelfOwned(g.ownerId, g.actor) && g.grantVersion == 1
    && g.parentGrantId == None
    && (ByOwner(s, g) || ByPolicy(env, s, g))
  }

  ghost function UsesOf(uses: map<nat, Use>, id: string): set<nat>
  {
    set t | t in uses && uses[t].grantId == id
  }

  /** The count is the number of reservations, and no reservation went over the budget. */
  ghost predicate Accounted(s: State, g: Grant)
  {
    && g.usageCount == |UsesOf(s.h.uses, g.id)|
    && (g.usageCount > 0 ==>
      CountLimits(g.limits) && (LeastCount(g.limits).Some? ==> g.usageCount <= LeastCount(g.limits).value))
    && (g.oneTime ==> g.usageCount <= 1 && (g.status == ACTIVE ==> g.usageCount == 0))
  }

  ghost predicate GrantOk(env: Env, s: State, id: string)
    requires id in s.store.grants
  {
    var g := s.store.grants[id];
    && g.id == id && (g.status == ACTIVE || g.status == CONSUMED || g.status == REVOKED)
    && Founded(env, s, g) && Accounted(s, g)
    && (id in s.h.revoked <==> g.status == REVOKED) && (g.status == REVOKED <==> g.revokedAt.Some?)
  }

  ghost predicate CallsInv(env: Env, s: State)
  {
    forall t :: CallOk(env, s, t)
  }

  ghost predicate RequestsInv(env: Env, s: State)
  {
    forall r :: r in s.store.requests ==> RequestOk(env, s, r)
  }

  ghost predicate GrantsInv(env: Env, s: State)
  {
    forall g :: g in s.store.grants ==> GrantOk(env, s, g)
  }

  ghost predicate MadeInv(s: State)
  {
    forall g :: g in s.h.made ==> MadeOk(s, g)
  }

  ghost predicate NamesInv(s: State)
  {
    forall g :: g in s.h.revoked || g in s.h.orphans ==> g in s.store.grants
  }

  ghost predicate OnceInv(s: State)
  {
    forall t, u :: t in s.h.resolutions && u in s.h.resolutions && s.h.resolutions[t] == s.h.resolutions[u] ==> t == u
  }

  ghost predicate Inv(env: Env, s: State)
  {
    LanesInv(s) && CallsInv(env, s) && RequestsInv(env, s) && GrantsInv(env, s)
    && MadeInv(s) && NamesInv(s) && OnceInv(s)
  }

  // ----- what a step owes -----

  ghost predicate RequestsFit(env: Env, s: State, t: nat, e: Effect)
  {
    var b := Apply(s, t, e);
    forall id :: id in e.store.requests ==>
      (id in s.store.requests && e.store.requests[id] == s.store.requests[id])
      || (RequestOk(env, b, id) && (id in s.store.requests ==> Running(s, t, id)))
  }

  ghost predicate GrantsFit(env: Env, s: State, t: nat, e: Effect)
  {
    var b := Apply(s, t, e);
    forall id :: id in e.store.grants ==>
      (id in s.store.grants && e.store.grants[id] == s.store.grants[id] && e.notes.revoked != Some(id)
        && (e.notes.used.Some? ==> e.notes.used.value.grantId != id))
      || GrantOk(env, b, id)
  }

  ghost predicate NotesFit(s: State, t: nat, e: Effect)
  {
    var n := e.notes;
    && (n.made.Some? ==>
      && n.made.value.grantId !in s.store.grants && n.made.value.grantId in e.store.grants
      && n.made.value.requestId in s.store.requests
      && e.task.Some? && e.task.value.ApproveResolving? && e.task.value.grant.id == n.made.value.grantId)
    && (n.orphan.Some? ==> Holds(s, t, n.orphan.value) && n.orphan.value in s.store.grants)
    && (t in s.tasks && s.tasks[t].ApproveResolving? ==>
      var (req, g) := (s.tasks[t].req, s.tasks[t].grant);
      n.orphan == Some(g.id) || (req.id in e.store.requests && e.store.requests[req.id].grantId == Some(g.id)))
    && (n.resolution.Some? ==>
      t !in s.h.resolutions && n.resolution.value in s.store.requests
      && s.store.requests[n.resolution.value].status == PENDING)
    && (n.used.Some? ==> t !in s.h.uses)
    && (n.revoked.Some? ==> n.revoked.value in s.store.grants)
  }

  ghost predicate Owed(env: Env, s: State, t: nat, e: Effect)
  {
    && (t in s.tasks || t == s.next)
    && StoreGrows(s.store, e.store) && LaneFits(s, t, e)
    && RequestsFit(env, s, t, e) && GrantsFit(env, s, t, e) && NotesFit(s, t, e)
    && CallOk(env, Apply(s, t, e), t)
  }
}
