/**
 packages/digi-authority/src/service.ts as interleaved calls.  Every store call is one step; between
 two steps of a call any other call may move.  Clock readings, fresh identifiers and the choice
 among several fitting grants are free, and a call may be cut off after any step (`Abort`), which is
 a store call that throws.  Audit records are left out of the state; `History` keeps what runs are
 judged by.
 */
module AuthorityMachine {
  import opened JsValues
  import opened Results
  import opened AuthorityTypes
  import opened Policy
  import opened Claims
  import opened Tokens
  import opened Grants
  import opened StoreSteps

  /** What stays fixed during a run. */
  datatype Env = Env(policies: seq<ActorPolicy>, key: Jwk, tokenTtl: Number, skips: string -> bool)

  datatype CheckInput = CheckInput(ownerId: string, scope: Scope, stepUpProvided: bool)

  /** The reasons `check` denies for, by name. */
  datatype Denial = OwnerBoundary | StepUpRequired | PolicyDeny | OverLimit(limit: string)

  datatype Answer =
    | Denied(reason: Denial) | Asked(requestId: string) | Allowed(grantId: string)
    | AllowedWithLimits(grantId: string, limits: Limits)

  /** A lifetime in milliseconds, as `Date` takes it: whole, or a number that makes the date invalid. */
  datatype Ttl = Millis(ms: int) | NoDate

  /**
   A call in progress, at the store call it makes next.  A use made on behalf of `authorizeAuthority`
   carries the claims verified there.
   */
  datatype Task =
    | AskCreating(input: CheckInput, m: PolicyMatch)
    | AllowListing(input: CheckInput, m: PolicyMatch, now: int)
    | AllowCreating(input: CheckInput, m: PolicyMatch, now: int)
    | ApproveQueued(ownerId: string, requestId: string, oneTime: Option<bool>, ttl: Option<Ttl>)
    | DenyQueued(ownerId: string, requestId: string)
    | DenyWriting(req: Request)
    | StepUpDenying(req: Request)
    | ApproveCreating(req: Request, once: bool, lasts: Ttl)
    | ApproveResolving(req: Request, grant: Grant)
    | ApproveMinting(req: Request, grant: Grant)
    | RevokeWriting(grantId: string)
    | Issuing(grant: Grant, plan: IssuePlan)
    | AuthorizeConsuming(w: Wire, e: Expectation, verified: Claims)
    | UseReading(claims: Claims, e: Expectation, shown: Shown, outer: Option<Claims>)
    | UseConsuming(claims: Claims, e: Expectation, shown: Shown, grant: Grant, outer: Option<Claims>)
    | UseReserving(claims: Claims, e: Expectation, shown: Shown, grant: Grant, outer: Option<Claims>)
    | UseReturning(grantId: string, jti: string, outer: Option<Claims>)
    | UseReturned(grantId: string, jti: string, verified: Claims)

  /**
   A successful reservation: the grant it was taken from, what the caller expected of the token, the
   token and when it was verified, and the claims that were read.
   */
  datatype Use = Use(grantId: string, e: Expectation, shown: Shown, claims: Claims)

  /** What the caller of approve, deny, revoke or issue names: itself as the owner, and its options. */
  datatype Caller = Caller(ownerId: string, oneTime: Option<bool>, ttl: Option<Ttl>)

  /** The approval that made a grant, and its clock reading. */
  datatype Maker = Maker(call: nat, at: int)

  datatype Issue = Issue(claims: Claims, readAt: int, mintAt: int)

  /** Calls are numbered; a call is in a set or map once at most, as it returns once. */
  datatype History = History(
    answers: map<nat, (CheckInput, Answer)>,
    callers: map<nat, Caller>,              // who asked for what, for calls that name an owner
    approvals: set<(string, string)>,      // (owner, request) of every approveRequest made
    resolutions: map<nat, string>,         // the request each call has resolved
    decided: set<nat>,                     // approve and deny calls that returned ok
    made: map<string, string>,             // the request each approved grant was made for
    makers: map<string, Maker>,            // and the call that made it
    orphans: set<string>,                  // grants whose approval was cut off before it was recorded
    uses: map<nat, Use>,                   // successful reservations
    oks: set<nat>,                         // useToken calls that returned ok
    authorized: map<nat, Claims>,          // what authorizeAuthority calls that succeeded returned
    revoked: map<string, nat>,             // grants whose revocation was written, and the call that wrote it last
    issued: map<nat, Issue>)

  datatype State = State(store: Store, tasks: map<nat, Task>, lanes: map<string, seq<nat>>, next: nat, h: History)

  const START := State(EMPTY, map[], map[], 0, 
    History(map[], map[], {}, map[], {}, map[], map[], {}, map[], {}, map[], map[], map[]))

  datatype Step =
    | CheckCall(input: CheckInput, now: int)
    | CreateAsked(t: nat, id: string)
    | ListGrants(t: nat, found: Option<string>)
    | CreateAllowed(t: nat, id: string)
    | ApproveCall(ownerId: string, requestId: string, oneTime: Option<bool>, ttl: Option<Ttl>)
    | DenyCall(ownerId: string, requestId: string)
    | LaneStart(t: nat)
    | WriteDenied(t: nat, audited: bool, now: int)
    | CreateApproved(t: nat, id: string, now: int)
    | ResolveApproved(t: nat, now: int)
    | MintApproved(t: nat, m: Minting)
    | RevokeCall(ownerId: string, grantId: string)
    | WriteRevoked(t: nat, now: int)
    | IssueCall(ownerId: string, grantId: string, narrow: Narrow, now: int)
    | MintIssued(t: nat, m: Minting)
    | UseCall(w: Wire, e: Expectation, now: int)
    | AuthorizeCall(w: Wire, e: Expectation, owner: Option<string>, jwks: seq<Jwk>, now: int, tolerance: int)
    | ConsumeCall(t: nat, now: int)
    | UseRead(t: nat, now: int)
    | ConsumeJti(t: nat)
    | Reserve(t: nat, now: int)
    | UseReturn(t: nat)
    | AuthorizeReturn(t: nat)
    | Abort(t: nat)

  // ----- moving -----

  datatype LaneMove = Stay | Join(r: string) | Leave(r: string)

  datatype Making = Making(grantId: string, requestId: string, at: int)

  /** What a step puts on record about the call that moves. */
  datatype Notes = Notes(
    answer: Option<(CheckInput, Answer)>,
    caller: Option<Caller>,
    approval: Option<(string, string)>,
    resolution: Option<string>,
    decided: bool,
    made: Option<Making>,
    orphan: Option<string>,
    used: Option<Use>,
    ok: bool,
    authorized: Option<Claims>,
    revoked: Option<string>,
    issued: Option<Issue>)

  const QUIET := Notes(None, None, None, None, false, None, None, None, false, None, None, None)

  /** The store after a step, where its call goes (None: it is over), its lane, and the record. */
  datatype Effect = Effect(store: Store, task: Option<Task>, lane: LaneMove, notes: Notes)

  function With<T>(a: map<nat, T>, t: nat, v: Option<T>): map<nat, T>
  {
    if v.Some? then a[t := v.value] else a
  }

  function Plus<T>(a: set<T>, v: Option<T>): set<T>
  {
    if v.Some? then a + {v.value} else a
  }

  function Noted(h: History, t: nat, n: Notes): History
  {
    History(
      With(h.answers, t, n.answer),
      With(h.callers, t, n.caller),
      Plus(h.approvals, n.approval),
      With(h.resolutions, t, n.resolution),
      if n.decided then h.decided + {t} else h.decided,
      if n.made.Some? then h.made[n.made.value.grantId := n.made.value.requestId] else h.made,
      if n.made.Some? then h.makers[n.made.value.grantId := Maker(t, n.made.value.at)] else h.makers,
      Plus(h.orphans, n.orphan),
      With(h.uses, t, n.used),
      if n.ok then h.oks + {t} else h.oks,
      With(h.authorized, t, n.authorized),
      if n.revoked.Some? then h.revoked[n.revoked.value := t] else h.revoked,
      With(h.issued, t, n.issued))
  }

  function LaneIn(lanes: map<string, seq<nat>>, r: string): seq<nat>
  {
    if r in lanes then lanes[r] else []
  }

  /** `enqueue` puts a call behind every other on the same request; settling, well or badly, lets the next one start. */
  function MoveLanes(lanes: map<string, seq<nat>>, t: nat, m: LaneMove): map<string, seq<nat>>
  {
    match m
    case Stay => lanes
    case Join(r) => lanes[r := LaneIn(lanes, r) + [t]]
    case Leave(r) => lanes[r := if LaneIn(lanes, r) == [] then [] else LaneIn(lanes, r)[1..]]
  }

  function Apply(s: State, t: nat, e: Effect): State
  {
    State(e.store,
          if e.task.Some? then s.tasks[t := e.task.value] else s.tasks - {t},
          MoveLanes(s.lanes, t, e.lane),
          if t == s.next then s.next + 1 else s.next,
          Noted(s.h, t, e.notes))
  }

  function Move(store: Store, task: Task): Effect
  {
    Effect(store, Some(task), Stay, QUIET)
  }

  function End(store: Store, lane: LaneMove, notes: Notes): Effect
  {
    Effect(store, None, lane, notes)
  }

  // ----- lanes -----

  function LaneOf(task: Task): Option<string>
  {
    match task
    case ApproveQueued(_, r, _, _) => Some(r)
    case DenyQueued(_, r) => Some(r)
    case DenyWriting(req) => Some(req.id)
    case StepUpDenying(req) => Some(req.id)
    case ApproveCreating(req, _, _) => Some(req.id)
    case ApproveResolving(req, _) => Some(req.id)
    case ApproveMinting(req, _) => Some(req.id)
    case _ => None
  }

  predicate Queued(task: Task)
  {
    task.ApproveQueued? || task.DenyQueued?
  }

  predicate FirstInLane(s: State, t: nat)
    requires t in s.tasks
  {
    LaneOf(s.tasks[t]).Some? &&
    var lane := LaneIn(s.lanes, LaneOf(s.tasks[t]).value);
    lane != [] && lane[0] == t
  }

  // ----- check -----

  function ReqScope(r: Request): Scope
  {
    Scope(r.actor, r.audience, r.action, r.resource)
  }

  function NewRequest(id: string, input: CheckInput, m: PolicyMatch): Request
  {
    Request(id, input.ownerId, input.scope.actor, input.scope.audience, input.scope.action, input.scope.resource,
            m.consequence, ASK_OWNER, PENDING, input.stepUpProvided, None, None)
  }

  predicate Suits(g: Grant, input: CheckInput, now: int)
  {
    g.ownerId == input.ownerId && g.actor == input.scope.actor && g.audience == input.scope.audience
    && input.scope.action in g.actions && input.scope.resource in g.resources && GrantIsLive(g, now)
  }

  const SEVEN_DAYS_MS: int := 7 * 24 * 60 * 60 * 1000

  const STEP_UP: Conditions := map["requireStepUp" := true]

  function NewAllowed(id: string, input: CheckInput, m: PolicyMatch, now: int): Grant
  {
    Grant(id, input.ownerId, input.scope.actor, input.scope.audience, [input.scope.action], [input.scope.resource],
          m.limits, if m.requireStepUp then STEP_UP else map[],
          m.decision, m.consequence, m.oneTime, At(now), DateOf(now + SEVEN_DAYS_MS), ACTIVE, 1, None, 0, None)
  }

  function AnswerFor(g: Grant, m: PolicyMatch): Answer
  {
    match LimitExceeded(g.limits, g.usageCount)
    case Some(reason) => Denied(OverLimit(reason))
    case None => if m.decision == ALLOW_WITH_LIMITS then AllowedWithLimits(g.id, g.limits) else Allowed(g.id)
  }

  function Reply(store: Store, input: CheckInput, a: Answer): Effect
  {
    End(store, Stay, QUIET.(answer := Some((input, a))))
  }

  function OnCheckCall(env: Env, s: State, input: CheckInput, now: int): Effect
  {
    var m := Decide(env.policies, input.scope);
    if SelfOwned(input.ownerId, input.scope.actor) then Reply(s.store, input, Denied(OwnerBoundary))
    else if m.requireStepUp && !input.stepUpProvided then Reply(s.store, input, Denied(StepUpRequired))
    else if m.decision == DENY then Reply(s.store, input, Denied(PolicyDeny))
    else if m.decision == ASK_OWNER then Move(s.store, AskCreating(input, m))
    else Move(s.store, AllowListing(input, m, now))
  }

  function OnCreateAsked(s: State, task: Task, id: string): Effect
    requires task.AskCreating?
  {
    Reply(CreateRequest(s.store, NewRequest(id, task.input, task.m)), task.input, Asked(id))
  }

  function OnListGrants(s: State, task: Task, found: Option<string>): Effect
    requires task.AllowListing? && (found.Some? ==> found.value in s.store.grants)
  {
    if found.Some? then Reply(s.store, task.input, AnswerFor(s.store.grants[found.value], task.m))
    else Move(s.store, AllowCreating(task.input, task.m, task.now))
  }

  function OnCreateAllowed(s: State, task: Task, id: string): Effect
    requires task.AllowCreating?
  {
    var g := NewAllowed(id, task.input, task.m, task.now);
    Reply(CreateGrant(s.store, g), task.input, AnswerFor(g, task.m))
  }

  // ----- approve and deny -----

  function OnApproveCall(s: State, ownerId: string, requestId: string, oneTime: Option<bool>, ttl: Option<Ttl>): Effect
  {
    Effect(s.store, Some(ApproveQueued(ownerId, requestId, oneTime, ttl)), Join(requestId),
           QUIET.(approval := Some((ownerId, requestId)), caller := Some(Caller(ownerId, oneTime, ttl))))
  }

  function OnDenyCall(s: State, ownerId: string, requestId: string): Effect
  {
    Effect(s.store, Some(DenyQueued(ownerId, requestId)), Join(requestId),
           QUIET.(caller := Some(Caller(ownerId, None, None))))
  }

  const ONE_HOUR_MS: int := 60 * 60 * 1000

  /** What an approval is when its options are left out: for one use, and for an hour. */
  function OnceIfUnsaid(oneTime: Option<bool>): bool
  {
    if oneTime.Some? then oneTime.value else true
  }

  function HourIfUnsaid(ttl: Option<Ttl>): Ttl
  {
    if ttl.Some? then ttl.value else Millis(ONE_HOUR_MS)
  }

  function Later(now: int, ttl: Ttl): Date
  {
    if ttl.Millis? then DateOf(now + ttl.ms) else Invalid
  }

  function NewApproved(id: string, req: Request, oneTime: bool, ttl: Ttl, now: int): Grant
  {
    Grant(id, req.ownerId, req.actor, req.audience, [req.action], [req.resource], map[], map[],
          ALLOW, req.consequence, oneTime, At(now), Later(now, ttl), ACTIVE, 1, None, 0, None)
  }

  predicate NeedsStepUp(req: Request)
  {
    req.consequence == CRITICAL && req.decision == ASK_OWNER && !req.stepUpProvided && req.action == "payment.approve"
  }

  /** `approvePending` and `denyPending` up to their first write. */
  function OnLaneStart(s: State, task: Task): Effect
    requires Queued(task)
  {
    var found := GetRequest(s.store, task.requestId);
    if found.None? || found.value.ownerId != task.ownerId || found.value.status != PENDING then
      End(s.store, Leave(task.requestId), QUIET)
    else
      var req := found.value;
      if task.DenyQueued? then Move(s.store, DenyWriting(req))
      else if SelfOwned(task.ownerId, req.actor) then End(s.store, Leave(task.requestId), QUIET)
      else if NeedsStepUp(req) then Move(s.store, StepUpDenying(req))
      else Move(s.store, ApproveCreating(req, OnceIfUnsaid(task.oneTime), HourIfUnsaid(task.ttl)))
  }

  function OnWriteDenied(s: State, task: Task, audited: bool, now: int): Effect
    requires task.DenyWriting? || task.StepUpDenying?
  {
    End(ResolveRequest(s.store, task.req.id, DENIED, None, now), Leave(task.req.id),
        QUIET.(resolution := Some(task.req.id), decided := task.DenyWriting? && audited))
  }

  function OnCreateApproved(s: State, task: Task, id: string, now: int): Effect
    requires task.ApproveCreating?
  {
    var g := NewApproved(id, task.req, task.once, task.lasts, now);
    Effect(CreateGrant(s.store, g), Some(ApproveResolving(task.req, g)), Stay, 
           QUIET.(made := Some(Making(id, task.req.id, now))))
  }

  function OnResolveApproved(s: State, task: Task, now: int): Effect
    requires task.ApproveResolving?
  {
    Effect(ResolveRequest(s.store, task.req.id, ACTIVE, Some(task.grant.id), now),
           Some(ApproveMinting(task.req, task.grant)), Stay, QUIET.(resolution := Some(task.req.id)))
  }

  function Minted(r: Result<(Wire, Claims)>, m: Minting): Option<Issue>
  {
    if r.Ok? then Some(Issue(r.value.1, m.readAt, m.mintAt)) else None
  }

  function OnMintApproved(env: Env, s: State, task: Task, m: Minting): Effect
    requires task.ApproveMinting?
  {
    var r := IssueTokenFromGrant(env.key, env.tokenTtl, task.grant, [task.req.action], [task.req.resource], None, m);
    var issue := Minted(r, m);
    End(s.store, Leave(task.req.id), QUIET.(issued := issue, decided := issue.Some?))
  }

  // ----- revoke, issue, use -----

  function OnRevokeCall(s: State, ownerId: string, grantId: string): Effect
  {
    var found := GetGrant(s.store, grantId);
    var noted := QUIET.(caller := Some(Caller(ownerId, None, None)));
    if found.None? || found.value.ownerId != ownerId || found.value.status == REVOKED then End(s.store, Stay, noted)
    else Effect(s.store, Some(RevokeWriting(grantId)), Stay, noted)
  }

  function OnWriteRevoked(s: State, task: Task, now: int): Effect
    requires task.RevokeWriting?
  {
    End(UpdateGrantStatus(s.store, task.grantId, REVOKED, Some(Some(At(now)))), Stay,
        QUIET.(revoked := Some(task.grantId)))
  }

  function OnIssueCall(env: Env, s: State, ownerId: string, grantId: string, narrow: Narrow, now: int): Effect
  {
    var found := GetGrant(s.store, grantId);
    var noted := QUIET.(caller := Some(Caller(ownerId, None, None)));
    match PlanIssue(found, ownerId, narrow, env.tokenTtl, now)
    case Refused(_) => End(s.store, Stay, noted)
    case Go(plan) => Effect(s.store, Some(Issuing(found.value, plan)), Stay, noted)
  }

  function OnMintIssued(env: Env, s: State, task: Task, m: Minting): Effect
    requires task.Issuing?
  {
    var plan := task.plan;
    var r := IssueTokenFromGrant(env.key, env.tokenTtl, task.grant, plan.actions, plan.resources, plan.ttl, m);
    End(s.store, Stay, QUIET.(issued := Minted(r, m)))
  }

  function OnUseCall(env: Env, s: State, w: Wire, e: Expectation, now: int): Effect
  {
    match VerifyAuthorityToken(env.skips, w, e, [env.key], now, 0)
    case Err(_) => End(s.store, Stay, QUIET)
    case Ok(claims) => Move(s.store, UseReading(claims, e, Shown(w, now), None))
  }

  /** `authorizeAuthority` with whatever keys, clock and owner its host has. */
  function OnAuthorizeCall(
    s: State, w: Wire, e: Expectation, owner: Option<string>, jwks: seq<Jwk>, now: int, tolerance: int): Effect
  {
    match VerifyAuthority(w, e, owner, jwks, now, tolerance)
    case Err(_) => End(s.store, Stay, QUIET)
    case Ok(verified) => Move(s.store, AuthorizeConsuming(w, e, verified))
  }

  /** Its consumption client calls `useToken` with the token as it came. */
  function OnConsumeCall(env: Env, s: State, task: Task, now: int): Effect
    requires task.AuthorizeConsuming?
  {
    match VerifyAuthorityToken(env.skips, task.w, task.e, [env.key], now, 0)
    case Err(_) => End(s.store, Stay, QUIET)
    case Ok(claims) => Move(s.store, UseReading(claims, task.e, Shown(task.w, now), Some(task.verified)))
  }

  function OnUseRead(s: State, task: Task, now: int): Effect
    requires task.UseReading?
  {
    var found := GetGrant(s.store, task.claims.grantId);
    if UseRefusal(found, task.claims, task.e, now).Some? then End(s.store, Stay, QUIET)
    else if task.claims.oneTime || found.value.oneTime then
      Move(s.store, UseConsuming(task.claims, task.e, task.shown, found.value, task.outer))
    else Move(s.store, UseReserving(task.claims, task.e, task.shown, found.value, task.outer))
  }

  function OnConsumeJti(s: State, task: Task): Effect
    requires task.UseConsuming?
  {
    var (store, first) := TryConsumeJti(s.store, task.claims.jti);
    if first then Move(store, UseReserving(task.claims, task.e, task.shown, task.grant, task.outer))
    else End(store, Stay, QUIET)
  }

  /** `maxUsage` as passed to the store. */
  function Budget(g: Grant): Option<int>
  {
    if CountLimits(g.limits) then LeastCount(g.limits) else None
  }

  function OnReserve(s: State, task: Task, now: int): Effect
    requires task.UseReserving?
  {
    var g := task.grant;
    var (store, ok) := ReserveUse(s.store, g.id, g.grantVersion, now, Budget(g), task.claims.oneTime || g.oneTime);
    if !ok then End(store, Stay, QUIET)
    else
      Effect(store, Some(UseReturning(g.id, task.claims.jti, task.outer)), Stay,
             QUIET.(used := Some(Use(g.id, task.e, task.shown, task.claims))))
  }

  function OnUseReturn(s: State, task: Task): Effect
    requires task.UseReturning?
  {
    Effect(s.store,
           if task.outer.Some? then Some(UseReturned(task.grantId, task.jti, task.outer.value)) else None,
           Stay, QUIET.(ok := true))
  }

  /** `authorizeAuthority` after its consume returned: the grant and token must be the ones verified. */
  function OnAuthorizeReturn(s: State, task: Task): Effect
    requires task.UseReturned?
  {
    var bound := task.grantId == task.verified.grantId && task.jti == task.verified.jti;
    End(s.store, Stay, QUIET.(authorized := if bound then Some(task.verified) else None))
  }

  /** A store call that throws ends its call where it stood. */
  function OnAbort(s: State, task: Task): Effect
  {
    End(s.store, if LaneOf(task).Some? then Leave(LaneOf(task).value) else Stay,
        QUIET.(orphan := if task.ApproveResolving? then Some(task.grant.id) else None))
  }

  // ----- steps and runs -----

  predicate Begins(l: Step)
  {
    l.CheckCall? || l.ApproveCall? || l.DenyCall? || l.RevokeCall? || l.IssueCall? || l.UseCall? || l.AuthorizeCall?
  }

  /** The call that moves: an existing one, or the one that begins. */
  function Mover(s: State, l: Step): nat
  {
    if Begins(l) then s.next else l.t
  }

  /** The call waits to take this step, and what the step brings along fits the store. */
  predicate Enabled(s: State, l: Step)
  {
    Begins(l) || (l.t in s.tasks &&
      var task := s.tasks[l.t];
      match l
      case CreateAsked(_, id) => task.AskCreating? && id !in s.store.requests
      case ListGrants(_, found) => task.AllowListing? && Finds(s.store, task.input, task.now, found)
      case CreateAllowed(_, id) => task.AllowCreating? && id !in s.store.grants
      case LaneStart(t) => Queued(task) && FirstInLane(s, t)
      case WriteDenied(_, _, _) => task.DenyWriting? || task.StepUpDenying?
      case CreateApproved(_, id, _) => task.ApproveCreating? && id !in s.store.grants
      case ResolveApproved(_, _) => task.ApproveResolving?
      case MintApproved(_, _) => task.ApproveMinting?
      case WriteRevoked(_, _) => task.RevokeWriting?
      case MintIssued(_, _) => task.Issuing?
      case ConsumeCall(_, _) => task.AuthorizeConsuming?
      case UseRead(_, _) => task.UseReading?
      case ConsumeJti(_) => task.UseConsuming?
      case Reserve(_, _) => task.UseReserving?
      case UseReturn(_) => task.UseReturning?
      case AuthorizeReturn(_) => task.UseReturned?
      case Abort(t) => Queued(task) ==> FirstInLane(s, t)
      case _ => false)
  }

  /** Some active grant that suits the request, if there is one. */
  predicate Finds(store: Store, input: CheckInput, now: int, found: Option<string>)
  {
    match found
    case Some(id) => id in store.grants && Suits(store.grants[id], input, now)
    case None => forall id :: id in store.grants ==> !Suits(store.grants[id], input, now)
  }

  function EffectOf(env: Env, s: State, l: Step): Effect
    requires Enabled(s, l)
  {
    hide OnCheckCall, OnCreateAsked, OnListGrants, OnCreateAllowed, OnApproveCall, OnDenyCall, OnLaneStart;
    hide OnWriteDenied;
    hide OnCreateApproved, OnResolveApproved, OnMintApproved, OnRevokeCall, OnWriteRevoked, OnIssueCall, OnMintIssued;
    hide OnUseCall, OnAuthorizeCall, OnConsumeCall, OnUseRead, OnConsumeJti, OnReserve, OnUseReturn, OnAuthorizeReturn;
    match l
    case CheckCall(input, now) => OnCheckCall(env, s, input, now)
    case CreateAsked(t, id) => OnCreateAsked(s, s.tasks[t], id)
    case ListGrants(t, found) => OnListGrants(s, s.tasks[t], found)
    case CreateAllowed(t, id) => OnCreateAllowed(s, s.tasks[t], id)
    case ApproveCall(ownerId, requestId, oneTime, ttl) => OnApproveCall(s, ownerId, requestId, oneTime, ttl)
    case DenyCall(ownerId, requestId) => OnDenyCall(s, ownerId, requestId)
    case LaneStart(t) => OnLaneStart(s, s.tasks[t])
    case WriteDenied(t, audited, now) => OnWriteDenied(s, s.tasks[t], audited, now)
    case CreateApproved(t, id, now) => OnCreateApproved(s, s.tasks[t], id, now)
    case ResolveApproved(t, now) => OnResolveApproved(s, s.tasks[t], now)
    case MintApproved(t, m) => OnMintApproved(env, s, s.tasks[t], m)
    case RevokeCall(ownerId, grantId) => OnRevokeCall(s, ownerId, grantId)
    case WriteRevoked(t, now) => OnWriteRevoked(s, s.tasks[t], now)
    case IssueCall(ownerId, grantId, narrow, now) => OnIssueCall(env, s, ownerId, grantId, narrow, now)
    case MintIssued(t, m) => OnMintIssued(env, s, s.tasks[t], m)
    case UseCall(w, e, now) => OnUseCall(env, s, w, e, now)
    case AuthorizeCall(w, e, owner, jwks, now, tolerance) => OnAuthorizeCall(s, w, e, owner, jwks, now, tolerance)
    case ConsumeCall(t, now) => OnConsumeCall(env, s, s.tasks[t], now)
    case UseRead(t, now) => OnUseRead(s, s.tasks[t], now)
    case ConsumeJti(t) => OnConsumeJti(s, s.tasks[t])
    case Reserve(t, now) => OnReserve(s, s.tasks[t], now)
    case UseReturn(t) => OnUseReturn(s, s.tasks[t])
    case AuthorizeReturn(t) => OnAuthorizeReturn(s, s.tasks[t])
    case Abort(t) => OnAbort(s, s.tasks[t])
  }

  /** The effect of each step by itself, for proofs that would otherwise look at all of them. */
  lemma EffectIs(env: Env, s: State, l: Step)
    requires Enabled(s, l)
    ensures match l
      case CheckCall(input, now) => EffectOf(env, s, l) == OnCheckCall(env, s, input, now)
      case CreateAsked(t, id) => EffectOf(env, s, l) == OnCreateAsked(s, s.tasks[t], id)
      case ListGrants(t, found) => EffectOf(env, s, l) == OnListGrants(s, s.tasks[t], found)
      case CreateAllowed(t, id) => EffectOf(env, s, l) == OnCreateAllowed(s, s.tasks[t], id)
      case ApproveCall(ownerId, requestId, oneTime, ttl) =>
        EffectOf(env, s, l) == OnApproveCall(s, ownerId, requestId, oneTime, ttl)
      case DenyCall(ownerId, requestId) => EffectOf(env, s, l) == OnDenyCall(s, ownerId, requestId)
      case LaneStart(t) => EffectOf(env, s, l) == OnLaneStart(s, s.tasks[t])
      case WriteDenied(t, audited, now) => EffectOf(env, s, l) == OnWriteDenied(s, s.tasks[t], audited, now)
      case CreateApproved(t, id, now) => EffectOf(env, s, l) == OnCreateApproved(s, s.tasks[t], id, now)
      case ResolveApproved(t, now) => EffectOf(env, s, l) == OnResolveApproved(s, s.tasks[t], now)
      case MintApproved(t, m) => EffectOf(env, s, l) == OnMintApproved(env, s, s.tasks[t], m)
      case RevokeCall(ownerId, grantId) => EffectOf(env, s, l) == OnRevokeCall(s, ownerId, grantId)
      case WriteRevoked(t, now) => EffectOf(env, s, l) == OnWriteRevoked(s, s.tasks[t], now)
      case IssueCall(ownerId, grantId, narrow, now) =>
        EffectOf(env, s, l) == OnIssueCall(env, s, ownerId, grantId, narrow, now)
      case MintIssued(t, m) => EffectOf(env, s, l) == OnMintIssued(env, s, s.tasks[t], m)
      case UseCall(w, e, now) => EffectOf(env, s, l) == OnUseCall(env, s, w, e, now)
      case AuthorizeCall(w, e, owner, jwks, now, tolerance) =>
        EffectOf(env, s, l) == OnAuthorizeCall(s, w, e, owner, jwks, now, tolerance)
      case ConsumeCall(t, now) => EffectOf(env, s, l) == OnConsumeCall(env, s, s.tasks[t], now)
      case UseRead(t, now) => EffectOf(env, s, l) == OnUseRead(s, s.tasks[t], now)
      case ConsumeJti(t) => EffectOf(env, s, l) == OnConsumeJti(s, s.tasks[t])
      case Reserve(t, now) => EffectOf(env, s, l) == OnReserve(s, s.tasks[t], now)
      case UseReturn(t) => EffectOf(env, s, l) == OnUseReturn(s, s.tasks[t])
      case AuthorizeReturn(t) => EffectOf(env, s, l) == OnAuthorizeReturn(s, s.tasks[t])
      case Abort(t) => EffectOf(env, s, l) == OnAbort(s, s.tasks[t])
  {
    hide OnCheckCall, OnCreateAsked, OnListGrants, OnCreateAllowed, OnApproveCall, OnDenyCall, OnLaneStart;
    hide OnWriteDenied;
    hide OnCreateApproved, OnResolveApproved, OnMintApproved, OnRevokeCall, OnWriteRevoked, OnIssueCall, OnMintIssued;
    hide OnUseCall, OnAuthorizeCall, OnConsumeCall, OnUseRead, OnConsumeJti, OnReserve, OnUseReturn, OnAuthorizeReturn;
  }

  function Do(env: Env, s: State, l: Step): State
    requires Enabled(s, l)
  {
    Apply(s, Mover(s, l), EffectOf(env, s, l))
  }

  /** A run from the empty store: a list of steps, each enabled after the ones before it. */
  ghost predicate Legal(env: Env, ls: seq<Step>)
    decreases |ls|, 0
  {
    ls == [] || (Legal(env, ls[..|ls| - 1]) && Enabled(After(env, ls[..|ls| - 1]), ls[|ls| - 1]))
  }

  ghost function After(env: Env, ls: seq<Step>): State
    requires Legal(env, ls)
    decreases |ls|, 1
  {
    if ls == [] then START else Do(env, After(env, ls[..|ls| - 1]), ls[|ls| - 1])
  }
}
