/**
 Who is behind what the service has done: every state of a run traces tokens, resolutions, approved
 grants and revocations to the call that asked for them, and every use to the token it was made with.
 */
module AuthorityOrigins {
  import opened JsValues
  import opened Results
  import opened AuthorityTypes
  import opened Policy
  import opened Claims
  import opened Tokens
  import opened Grants
  import opened GrantRules
  import opened StoreSteps
  import opened AuthorityMachine
  import opened AuthorityFrames
  import opened AuthorityLanes
  import opened AuthorityInvariant
  import opened AuthorityKeeps
  import opened AuthoritySteps
  import Runs = AuthorityRuns

  /** Call `t` was made by this owner, as it named itself. */
  predicate CalledBy(s: State, t: nat, ownerId: string)
  {
    t in s.h.callers && s.h.callers[t].ownerId == ownerId
  }

  /** A payment of critical consequence that was asked for without step-up. */
  predicate Unstepped(r: Request)
  {
    r.consequence == CRITICAL && r.action == "payment.approve" && !r.stepUpProvided
  }

  /** Options left out mean one use and one hour. */
  predicate Chosen(c: Caller, once: bool, lasts: Ttl)
  {
    once == (c.oneTime == None || c.oneTime == Some(true))
    && lasts == (if c.ttl == None then Millis(3600000) else c.ttl.value)
  }

  /** The grant is what the call asked for, from the moment it was made. */
  predicate OnTerms(g: Grant, c: Caller, at: int)
  {
    g.oneTime == (c.oneTime == None || c.oneTime == Some(true)) && g.validFrom == At(at)
    && g.validUntil == match c.ttl
                       case None => DateOf(at + 3600000)
                       case Some(Millis(ms)) => DateOf(at + ms)
                       case Some(NoDate) => Invalid
  }

  predicate Verified(env: Env, c: Claims, e: Expectation, shown: Shown)
  {
    VerifyAuthorityToken(env.skips, shown.w, e, [env.key], shown.at, 0) == Ok(c)
  }

  /** The claims name this very grant, at this version. */
  predicate FromGrant(c: Claims, g: Grant)
  {
    c.grantId == g.id && c.sub == g.ownerId && c.actor == ActorKey(g.actor) && c.aud == g.audience
    && c.grantVersion == g.grantVersion
  }

  predicate TaskTraced(env: Env, s: State, t: nat, task: Task)
  {
    match task
    case ApproveQueued(ownerId, _, oneTime, ttl) => t in s.h.callers && s.h.callers[t] == Caller(ownerId, oneTime, ttl)
    case DenyQueued(ownerId, _) => CalledBy(s, t, ownerId)
    case DenyWriting(req) => CalledBy(s, t, req.ownerId)
    case StepUpDenying(req) => CalledBy(s, t, req.ownerId)
    case ApproveCreating(req, once, lasts) =>
      CalledBy(s, t, req.ownerId) && Chosen(s.h.callers[t], once, lasts) && !Unstepped(req)
    case ApproveResolving(req, g) => CalledBy(s, t, req.ownerId) && g.ownerId == req.ownerId
    case ApproveMinting(_, g) => CalledBy(s, t, g.ownerId)
    case RevokeWriting(id) => id in s.store.grants && CalledBy(s, t, s.store.grants[id].ownerId)
    case Issuing(g, _) => CalledBy(s, t, g.ownerId)
    case UseReading(c, e, shown, _) => Verified(env, c, e, shown)
    case UseConsuming(c, e, shown, g, _) => Verified(env, c, e, shown) && FromGrant(c, g)
    case UseReserving(c, e, shown, g, _) => Verified(env, c, e, shown) && FromGrant(c, g)
    case UseReturning(_, _, outer) => outer.Some? ==> t in s.h.uses && SameClaims(outer.value, s.h.uses[t].claims)
    case UseReturned(_, _, verified) => t in s.h.uses && SameClaims(verified, s.h.uses[t].claims)
    case _ => true
  }

  predicate UseTraced(env: Env, s: State, u: Use)
  {
    Verified(env, u.claims, u.e, u.shown)
    && u.grantId in s.store.grants && s.store.grants[u.grantId].id == u.grantId
    && FromGrant(u.claims, s.store.grants[u.grantId])
  }

  ghost predicate RecordTraced(env: Env, s: State, t: nat)
  {
    && (t in s.h.resolutions ==>
      s.h.resolutions[t] in s.store.requests && CalledBy(s, t, s.store.requests[s.h.resolutions[t]].ownerId))
    && (t in s.h.issued ==> CalledBy(s, t, s.h.issued[t].claims.sub))
    && (t in s.h.uses ==> UseTraced(env, s, s.h.uses[t]))
    && (t in s.h.authorized ==> t in s.h.uses && SameClaims(s.h.authorized[t], s.h.uses[t].claims))
    && (t in s.h.answers ==> AnswerTraced(s, s.h.answers[t].0, s.h.answers[t].1))
  }

  /** A limit is named as exceeded only if a grant for what was asked has reached it. */
  ghost predicate AnswerTraced(s: State, input: CheckInput, a: Answer)
  {
    a.Denied? && a.reason.OverLimit? ==>
      exists g, k :: g in s.store.grants && SpentFor(s.store.grants[g], k, input) && a.reason.limit == k + "_exceeded"
  }

  predicate SpentFor(g: Grant, k: string, input: CheckInput)
  {
    Covers(g, input) && CountsUses(k) && Spent(g.limits, k, g.usageCount)
  }

  predicate MadeTraced(s: State, g: string)
  {
    g in s.h.makers && g in s.h.made && g in s.store.grants && s.h.made[g] in s.store.requests &&
    var maker := s.h.makers[g];
    CalledBy(s, maker.call, s.store.grants[g].ownerId) && OnTerms(s.store.grants[g], s.h.callers[maker.call], maker.at)
    && !Unstepped(s.store.requests[s.h.made[g]])
  }

  predicate RevokedTraced(s: State, g: string)
  {
    g in s.h.revoked && g in s.store.grants && CalledBy(s, s.h.revoked[g], s.store.grants[g].ownerId)
  }

  predicate RequestTraced(env: Env, s: State, r: string)
  {
    r in s.store.requests
    && s.store.requests[r].consequence == Decide(env.policies, ReqScope(s.store.requests[r])).consequence
  }

  ghost predicate Traced(env: Env, s: State)
  {
    && (forall t :: t in s.tasks ==> TaskTraced(env, s, t, s.tasks[t]))
    && (forall t :: RecordTraced(env, s, t))
    && (forall g :: g in s.h.made ==> MadeTraced(s, g))
    && (forall g :: g in s.h.revoked ==> RevokedTraced(s, g))
    && (forall r :: r in s.store.requests ==> RequestTraced(env, s, r))
    && (forall t :: t in s.h.callers ==> t < s.next)
  }

  // ----- what a step leaves alone -----

  ghost predicate CallersGrow(a: State, b: State)
  {
    forall t :: t in a.h.callers ==> t in b.h.callers && b.h.callers[t] == a.h.callers[t]
  }

  lemma TaskStays(env: Env, a: State, b: State, u: nat, task: Task)
    requires TaskTraced(env, a, u, task) && StoreGrows(a.store, b.store) && CallersGrow(a, b)
    requires SameAt(a.h.uses, b.h.uses, u)
    ensures TaskTraced(env, b, u, task)
  {
    hide Verified, FromGrant, Unstepped, Chosen, SameClaims, Asking;
  }

  lemma UseStays(env: Env, a: State, b: State, u: Use)
    requires UseTraced(env, a, u) && StoreGrows(a.store, b.store)
    ensures UseTraced(env, b, u)
  {
    hide Verified, ActorKey, Asking;
  }

  lemma AnswerStays(a: State, b: State, input: CheckInput, answer: Answer)
    requires AnswerTraced(a, input, answer) && StoreGrows(a.store, b.store)
    ensures AnswerTraced(b, input, answer)
  {
    if answer.Denied? && answer.reason.OverLimit? {
      var g, k :| g in a.store.grants && SpentFor(a.store.grants[g], k, input)
                  && answer.reason.limit == k + "_exceeded";
      SpentStays(a.store.grants[g], b.store.grants[g], k, input);
    }
    hide StoreGrows, SpentFor;
  }

  lemma SpentStays(g: Grant, h: Grant, k: string, input: CheckInput)
    requires GrantMoves(g, h) && SpentFor(g, k, input)
    ensures SpentFor(h, k, input)
  {
    hide StatusMoves;
  }

  lemma RecordStays(env: Env, a: State, b: State, u: nat)
    requires RecordTraced(env, a, u) && StoreGrows(a.store, b.store) && CallersGrow(a, b)
    requires SameAt(a.h.resolutions, b.h.resolutions, u) && SameAt(a.h.uses, b.h.uses, u)
    requires SameAt(a.h.issued, b.h.issued, u) && SameAt(a.h.authorized, b.h.authorized, u)
    requires SameAt(a.h.answers, b.h.answers, u)
    ensures RecordTraced(env, b, u)
  {
    hide UseTraced, AnswerTraced, SameClaims, Terms;
    if u in a.h.uses { UseStays(env, a, b, a.h.uses[u]); }
    if u in a.h.answers { AnswerStays(a, b, a.h.answers[u].0, a.h.answers[u].1); }
  }

  lemma MadeStays(a: State, b: State, g: string)
    requires MadeTraced(a, g) && StoreGrows(a.store, b.store) && CallersGrow(a, b)
    requires g in b.h.made && b.h.made[g] == a.h.made[g] && g in b.h.makers && b.h.makers[g] == a.h.makers[g]
    ensures MadeTraced(b, g)
  {
    hide DateOf;
  }

  lemma RevokedStays(a: State, b: State, g: string)
    requires RevokedTraced(a, g) && StoreGrows(a.store, b.store) && CallersGrow(a, b)
    requires g in b.h.revoked && b.h.revoked[g] == a.h.revoked[g]
    ensures RevokedTraced(b, g)
  {
    hide Asking;
  }

  lemma RequestStays(env: Env, a: State, b: State, r: string)
    requires RequestTraced(env, a, r) && StoreGrows(a.store, b.store)
    ensures RequestTraced(env, b, r)
  {
    hide Decide, Terms;
  }

  // ----- what a step owes -----

  /** What is new is traced as well. */
  ghost predicate NotesTraced(env: Env, s: State, t: nat, e: Effect)
  {
    var n := e.notes;
    var b := Apply(s, t, e);
    && (n.caller.Some? ==> t == s.next)
    && (e.task.Some? ==> TaskTraced(env, b, t, e.task.value))
    && (n.resolution.Some? ==>
      n.resolution.value in b.store.requests && CalledBy(b, t, b.store.requests[n.resolution.value].ownerId))
    && (n.answer.Some? ==> AnswerTraced(b, n.answer.value.0, n.answer.value.1))
    && (n.issued.Some? ==> CalledBy(b, t, n.issued.value.claims.sub))
    && (n.used.Some? ==> t !in s.h.uses && t !in s.h.authorized && UseTraced(env, b, n.used.value))
    && (n.authorized.Some? ==> t in s.h.uses && n.used.None? && SameClaims(n.authorized.value, s.h.uses[t].claims))
    && (n.made.Some? ==> n.made.value.grantId !in s.h.made && MadeTraced(b, n.made.value.grantId))
    && (n.revoked.Some? ==> RevokedTraced(b, n.revoked.value))
    && (forall r :: r in b.store.requests && r !in s.store.requests ==> RequestTraced(env, b, r))
  }

  lemma CallersKept(s: State, t: nat, e: Effect)
    requires (forall u :: u in s.h.callers ==> u < s.next) && (e.notes.caller.Some? ==> t == s.next)
    requires t in s.tasks ==> t < s.next
    requires t in s.tasks || t == s.next
    ensures CallersGrow(s, Apply(s, t, e))
    ensures forall u :: u in Apply(s, t, e).h.callers ==> u < Apply(s, t, e).next
  {
    hide MoveLanes;
  }

  /** The record after a step, component by component. */
  lemma RecordAfter(s: State, t: nat, e: Effect)
    ensures var (h, k) := (s.h, Apply(s, t, e).h);
      && k.resolutions == With(h.resolutions, t, e.notes.resolution) && k.issued == With(h.issued, t, e.notes.issued)
      && k.answers == With(h.answers, t, e.notes.answer) && k.uses == With(h.uses, t, e.notes.used)
      && k.authorized == With(h.authorized, t, e.notes.authorized)
      && k.revoked == (if e.notes.revoked.Some? then h.revoked[e.notes.revoked.value := t] else h.revoked)
      && (e.notes.made.None? ==> k.made == h.made && k.makers == h.makers)
      && (e.notes.made.Some? ==>
        k.made == h.made[e.notes.made.value.grantId := e.notes.made.value.requestId]
        && k.makers == h.makers[e.notes.made.value.grantId := Maker(t, e.notes.made.value.at)])
    ensures Apply(s, t, e).store == e.store
    ensures Apply(s, t, e).tasks == if e.task.Some? then s.tasks[t := e.task.value] else s.tasks - {t}
  {
    hide MoveLanes;
  }

  lemma MoverTraced(env: Env, s: State, t: nat, e: Effect)
    requires RecordTraced(env, s, t) && NotesTraced(env, s, t, e)
    requires StoreGrows(s.store, e.store) && CallersGrow(s, Apply(s, t, e))
    ensures RecordTraced(env, Apply(s, t, e), t)
  {
    var b := Apply(s, t, e);
    RecordAfter(s, t, e);
    hide Apply, TaskTraced, MadeTraced, RevokedTraced, RequestTraced, AnswerTraced, SameClaims, UseTraced, Terms;
    if t in s.h.uses { UseStays(env, s, b, s.h.uses[t]); }
    if t in s.h.answers { AnswerStays(s, b, s.h.answers[t].0, s.h.answers[t].1); }
  }

  lemma OtherTraced(env: Env, s: State, t: nat, e: Effect, u: nat)
    requires u != t && RecordTraced(env, s, u) && StoreGrows(s.store, e.store) && CallersGrow(s, Apply(s, t, e))
    ensures RecordTraced(env, Apply(s, t, e), u)
    ensures u in s.tasks && TaskTraced(env, s, u, s.tasks[u]) ==> TaskTraced(env, Apply(s, t, e), u, s.tasks[u])
  {
    hide RecordTraced, TaskTraced, StoreGrows, CallersGrow;
    RecordAfter(s, t, e);
    hide Apply;
    RecordStays(env, s, Apply(s, t, e), u);
    if u in s.tasks && TaskTraced(env, s, u, s.tasks[u]) { TaskStays(env, s, Apply(s, t, e), u, s.tasks[u]); }
  }

  lemma TracedKept(env: Env, s: State, t: nat, e: Effect)
    requires Traced(env, s) && NotesTraced(env, s, t, e) && StoreGrows(s.store, e.store)
    requires (t in s.tasks ==> t < s.next) && (t in s.tasks || t == s.next)
    ensures Traced(env, Apply(s, t, e))
  {
    hide TaskTraced, RecordTraced, MadeTraced, RevokedTraced, RequestTraced, UseTraced;
    hide StoreGrows, CallersGrow, Apply, SameClaims;
    var b := Apply(s, t, e);
    CallersKept(s, t, e);
    RecordAfter(s, t, e);
    forall u ensures RecordTraced(env, b, u) {
      assert RecordTraced(env, s, u);
      if u == t { MoverTraced(env, s, t, e); } else { OtherTraced(env, s, t, e, u); }
    }
    forall u | u in b.tasks ensures TaskTraced(env, b, u, b.tasks[u]) {
      if u != t {
        assert RecordTraced(env, s, u) && TaskTraced(env, s, u, s.tasks[u]);
        OtherTraced(env, s, t, e, u);
      }
    }
    forall g | g in b.h.made ensures MadeTraced(b, g) {
      if !(e.notes.made.Some? && e.notes.made.value.grantId == g) {
        assert MadeTraced(s, g);
        MadeNames(s, g);
        MadeStays(s, b, g);
      }
    }
    forall g | g in b.h.revoked ensures RevokedTraced(b, g) {
      if e.notes.revoked != Some(g) {
        assert RevokedTraced(s, g);
        RevokedStays(s, b, g);
      }
    }
    forall r | r in b.store.requests ensures RequestTraced(env, b, r) {
      if r in s.store.requests { RequestStays(env, s, b, r); }
    }
  }

  lemma MadeNames(s: State, g: string)
    requires MadeTraced(s, g)
    ensures g in s.h.makers && g in s.h.made
  {
  }

  // ----- every step -----

  /** Nothing new on record but, for a call that begins, its caller. */
  predicate Plain(s: State, t: nat, e: Effect)
  {
    var n := e.notes;
    n.resolution.None? && n.issued.None? && n.used.None? && n.authorized.None? && n.made.None? && n.revoked.None?
    && (n.caller.Some? ==> t == s.next) && e.store.requests == s.store.requests
    && (n.answer.Some? ==> n.answer.value.1.Denied? ==> !n.answer.value.1.reason.OverLimit?)
  }

  lemma PlainTraced(env: Env, s: State, t: nat, e: Effect)
    requires Plain(s, t, e) && (e.task.Some? ==> TaskTraced(env, Apply(s, t, e), t, e.task.value))
    ensures NotesTraced(env, s, t, e)
  {
    hide TaskTraced, MoveLanes, Noted;
  }

  /** The callers after a step that puts one on record. */
  lemma CallerNoted(s: State, t: nat, e: Effect)
    ensures var b := Apply(s, t, e);
      b.h.callers == With(s.h.callers, t, e.notes.caller) && b.store == e.store
      && b.h.uses == With(s.h.uses, t, e.notes.used)
  {
    hide MoveLanes;
  }

  lemma CheckCallTraced(env: Env, s: State, input: CheckInput, now: int)
    ensures NotesTraced(env, s, s.next, OnCheckCall(env, s, input, now))
  {
    hide Decide, SelfOwned, NotesTraced, Apply;
    PlainTraced(env, s, s.next, OnCheckCall(env, s, input, now));
  }

  lemma CreateAskedTraced(env: Env, s: State, t: nat, id: string)
    requires t in s.tasks && s.tasks[t].AskCreating? && TaskOk(env, s, t, s.tasks[t])
    ensures NotesTraced(env, s, t, OnCreateAsked(s, s.tasks[t], id))
  {
    var task := s.tasks[t];
    assert ReqScope(NewRequest(id, task.input, task.m)) == task.input.scope;
    hide Decide, SelfOwned, MoveLanes, Noted;
  }

  /** The answer for a grant that covers what was asked names a limit only if it is reached. */
  lemma AnswerForTraced(s: State, input: CheckInput, g: Grant, m: PolicyMatch)
    requires g.id in s.store.grants && s.store.grants[g.id] == g && Covers(g, input)
    ensures AnswerTraced(s, input, AnswerFor(g, m))
  {
    ExceededMeans(g.limits, g.usageCount);
    hide LimitExceeded, CountsUses, Spent;
    if LimitExceeded(g.limits, g.usageCount).Some? {
      var k :| CountsUses(k) && Spent(g.limits, k, g.usageCount)
               && LimitExceeded(g.limits, g.usageCount).value == k + "_exceeded";
      assert SpentFor(s.store.grants[g.id], k, input);
    }
  }

  lemma ListGrantsTraced(env: Env, s: State, t: nat, found: Option<string>)
    requires t in s.tasks && s.tasks[t].AllowListing? && (found.Some? ==> found.value in s.store.grants)
    requires found.Some? ==> Suits(s.store.grants[found.value], s.tasks[t].input, s.tasks[t].now)
    requires found.Some? ==> s.store.grants[found.value].id == found.value
    ensures NotesTraced(env, s, t, OnListGrants(s, s.tasks[t], found))
  {
    hide AnswerFor, Apply, AnswerTraced, GrantIsLive, ActorKey;
    var e := OnListGrants(s, s.tasks[t], found);
    CallerNoted(s, t, e);
    if found.Some? {
      AnswerForTraced(Apply(s, t, e), s.tasks[t].input, s.store.grants[found.value], s.tasks[t].m);
    }
  }

  lemma CreateAllowedTraced(env: Env, s: State, t: nat, id: string)
    requires t in s.tasks && s.tasks[t].AllowCreating?
    ensures NotesTraced(env, s, t, OnCreateAllowed(s, s.tasks[t], id))
  {
    hide AnswerFor, Apply, AnswerTraced, DateOf;
    var task := s.tasks[t];
    var e := OnCreateAllowed(s, task, id);
    CallerNoted(s, t, e);
    AnswerForTraced(Apply(s, t, e), task.input, NewAllowed(id, task.input, task.m, task.now), task.m);
  }

  lemma ApproveCallTraced(env: Env, s: State, ownerId: string, r: string, oneTime: Option<bool>, ttl: Option<Ttl>)
    ensures NotesTraced(env, s, s.next, OnApproveCall(s, ownerId, r, oneTime, ttl))
  {
    hide NotesTraced, Apply;
    CallerNoted(s, s.next, OnApproveCall(s, ownerId, r, oneTime, ttl));
    PlainTraced(env, s, s.next, OnApproveCall(s, ownerId, r, oneTime, ttl));
  }

  lemma DenyCallTraced(env: Env, s: State, ownerId: string, r: string)
    ensures NotesTraced(env, s, s.next, OnDenyCall(s, ownerId, r))
  {
    hide NotesTraced, Apply;
    CallerNoted(s, s.next, OnDenyCall(s, ownerId, r));
    PlainTraced(env, s, s.next, OnDenyCall(s, ownerId, r));
  }

  lemma RevokeCallTraced(env: Env, s: State, ownerId: string, grantId: string)
    ensures NotesTraced(env, s, s.next, OnRevokeCall(s, ownerId, grantId))
  {
    hide NotesTraced, Apply;
    CallerNoted(s, s.next, OnRevokeCall(s, ownerId, grantId));
    PlainTraced(env, s, s.next, OnRevokeCall(s, ownerId, grantId));
  }

  lemma IssueCallTraced(env: Env, s: State, ownerId: string, grantId: string, narrow: Narrow, now: int)
    ensures NotesTraced(env, s, s.next, OnIssueCall(env, s, ownerId, grantId, narrow, now))
  {
    hide NotesTraced, Apply, PlanIssue;
    var e := OnIssueCall(env, s, ownerId, grantId, narrow, now);
    CallerNoted(s, s.next, e);
    var planned := PlanIssue(GetGrant(s.store, grantId), ownerId, narrow, env.tokenTtl, now);
    if planned.Go? {
      PlanMeans(GetGrant(s.store, grantId), ownerId, narrow, env.tokenTtl, now, planned.plan);
      hide Live, CountsUses, Spent, Seconds;
    }
    PlainTraced(env, s, s.next, e);
  }

  lemma LaneStartTraced(env: Env, s: State, t: nat)
    requires t in s.tasks && Queued(s.tasks[t]) && TaskTraced(env, s, t, s.tasks[t])
    requires var r := s.tasks[t].requestId; r in s.store.requests ==> s.store.requests[r].decision == ASK_OWNER
    ensures NotesTraced(env, s, t, OnLaneStart(s, s.tasks[t]))
  {
    hide NotesTraced, Apply, SelfOwned;
    CallerNoted(s, t, OnLaneStart(s, s.tasks[t]));
    PlainTraced(env, s, t, OnLaneStart(s, s.tasks[t]));
  }

  lemma WriteDeniedTraced(env: Env, s: State, t: nat, audited: bool, now: int)
    requires t in s.tasks && (s.tasks[t].DenyWriting? || s.tasks[t].StepUpDenying?)
    requires TaskTraced(env, s, t, s.tasks[t]) && TaskOk(env, s, t, s.tasks[t])
    ensures NotesTraced(env, s, t, OnWriteDenied(s, s.tasks[t], audited, now))
  {
    CallerNoted(s, t, OnWriteDenied(s, s.tasks[t], audited, now));
    hide Apply;
  }

  lemma CreateApprovedTraced(env: Env, s: State, t: nat, id: string, now: int)
    requires t in s.tasks && s.tasks[t].ApproveCreating? && id !in s.h.made
    requires TaskTraced(env, s, t, s.tasks[t]) && TaskOk(env, s, t, s.tasks[t])
    ensures NotesTraced(env, s, t, OnCreateApproved(s, s.tasks[t], id, now))
  {
    hide Apply, DateOf;
    CallerNoted(s, t, OnCreateApproved(s, s.tasks[t], id, now));
    RecordAfter(s, t, OnCreateApproved(s, s.tasks[t], id, now));
  }

  lemma ResolveApprovedTraced(env: Env, s: State, t: nat, now: int)
    requires t in s.tasks && s.tasks[t].ApproveResolving?
    requires TaskTraced(env, s, t, s.tasks[t]) && TaskOk(env, s, t, s.tasks[t])
    ensures NotesTraced(env, s, t, OnResolveApproved(s, s.tasks[t], now))
  {
    hide Apply, Copy;
    CallerNoted(s, t, OnResolveApproved(s, s.tasks[t], now));
  }

  /** A token cut from a copy of a grant is its owner's. */
  lemma IssuedToOwner(env: Env, s: State, g: Grant, plan: IssuePlan, m: Minting)
    requires Copy(s, g) && PlanWithin(plan, g)
    ensures var r := IssueTokenFromGrant(env.key, env.tokenTtl, g, plan.actions, plan.resources, plan.ttl, m);
      r.Ok? ==> r.value.1.sub == g.ownerId
  {
    hide IssueTokenFromGrant;
    var r := IssueTokenFromGrant(env.key, env.tokenTtl, g, plan.actions, plan.resources, plan.ttl, m);
    if r.Ok? {
      IssuedWithinGrant(env.key, env.tokenTtl, g, plan.actions, plan.resources, plan.ttl, m);
    }
  }

  lemma MintApprovedTraced(env: Env, s: State, t: nat, m: Minting)
    requires t in s.tasks && s.tasks[t].ApproveMinting?
    requires TaskTraced(env, s, t, s.tasks[t]) && TaskOk(env, s, t, s.tasks[t])
    ensures NotesTraced(env, s, t, OnMintApproved(env, s, s.tasks[t], m))
  {
    hide Apply, IssueTokenFromGrant, Copy;
    var task := s.tasks[t];
    IssuedToOwner(env, s, task.grant, IssuePlan([task.req.action], [task.req.resource], None), m);
    CallerNoted(s, t, OnMintApproved(env, s, task, m));
  }

  lemma WriteRevokedTraced(env: Env, s: State, t: nat, now: int)
    requires t in s.tasks && s.tasks[t].RevokeWriting? && TaskTraced(env, s, t, s.tasks[t])
    ensures NotesTraced(env, s, t, OnWriteRevoked(s, s.tasks[t], now))
  {
    hide Apply;
    CallerNoted(s, t, OnWriteRevoked(s, s.tasks[t], now));
    RecordAfter(s, t, OnWriteRevoked(s, s.tasks[t], now));
  }

  lemma MintIssuedTraced(env: Env, s: State, t: nat, m: Minting)
    requires t in s.tasks && s.tasks[t].Issuing?
    requires TaskTraced(env, s, t, s.tasks[t]) && TaskOk(env, s, t, s.tasks[t])
    ensures NotesTraced(env, s, t, OnMintIssued(env, s, s.tasks[t], m))
  {
    hide Apply, IssueTokenFromGrant, Copy, PlanWithin;
    var task := s.tasks[t];
    IssuedToOwner(env, s, task.grant, task.plan, m);
    CallerNoted(s, t, OnMintIssued(env, s, task, m));
  }

  lemma UseCallTraced(env: Env, s: State, w: Wire, x: Expectation, now: int)
    ensures NotesTraced(env, s, s.next, OnUseCall(env, s, w, x, now))
  {
    hide NotesTraced, Apply, VerifyAuthorityToken;
    PlainTraced(env, s, s.next, OnUseCall(env, s, w, x, now));
  }

  lemma AuthorizeCallTraced(
      env: Env, s: State, w: Wire, x: Expectation, owner: Option<string>, jwks: seq<Jwk>, now: int, tolerance: int)
    ensures NotesTraced(env, s, s.next, OnAuthorizeCall(s, w, x, owner, jwks, now, tolerance))
  {
    hide NotesTraced, Apply, VerifyAuthority;
    PlainTraced(env, s, s.next, OnAuthorizeCall(s, w, x, owner, jwks, now, tolerance));
  }

  lemma ConsumeCallTraced(env: Env, s: State, t: nat, now: int)
    requires t in s.tasks && s.tasks[t].AuthorizeConsuming?
    ensures NotesTraced(env, s, t, OnConsumeCall(env, s, s.tasks[t], now))
  {
    hide NotesTraced, Apply, VerifyAuthorityToken;
    PlainTraced(env, s, t, OnConsumeCall(env, s, s.tasks[t], now));
  }

  lemma UseReadTraced(env: Env, s: State, t: nat, now: int)
    requires t in s.tasks && s.tasks[t].UseReading? && TaskTraced(env, s, t, s.tasks[t])
    requires var id := s.tasks[t].claims.grantId; id in s.store.grants ==> s.store.grants[id].id == id
    ensures NotesTraced(env, s, t, OnUseRead(s, s.tasks[t], now))
  {
    hide NotesTraced, Apply, UseRefusal, Verified, ActorKey;
    var task := s.tasks[t];
    RefusalMeans(GetGrant(s.store, task.claims.grantId), task.claims, task.e, now);
    hide Live, HasBudget;
    PlainTraced(env, s, t, OnUseRead(s, task, now));
  }

  lemma ConsumeJtiTraced(env: Env, s: State, t: nat)
    requires t in s.tasks && s.tasks[t].UseConsuming? && TaskTraced(env, s, t, s.tasks[t])
    ensures NotesTraced(env, s, t, OnConsumeJti(s, s.tasks[t]))
  {
    hide NotesTraced, Apply, Verified, FromGrant;
    PlainTraced(env, s, t, OnConsumeJti(s, s.tasks[t]));
  }

  lemma ReserveTraced(env: Env, s: State, t: nat, now: int)
    requires t in s.tasks && s.tasks[t].UseReserving? && t !in s.h.uses && t !in s.h.authorized
    requires TaskTraced(env, s, t, s.tasks[t]) && TaskOk(env, s, t, s.tasks[t])
    requires var id := s.tasks[t].grant.id; id in s.store.grants && s.store.grants[id].id == id
    ensures NotesTraced(env, s, t, OnReserve(s, s.tasks[t], now))
  {
    hide Apply, Verified, Permits, Budget, Reservable, SameClaims, Says, ActorKey;
    CallerNoted(s, t, OnReserve(s, s.tasks[t], now));
  }

  lemma UseReturnTraced(env: Env, s: State, t: nat)
    requires t in s.tasks && s.tasks[t].UseReturning? && TaskTraced(env, s, t, s.tasks[t])
    ensures NotesTraced(env, s, t, OnUseReturn(s, s.tasks[t]))
  {
    hide NotesTraced, Apply, SameClaims;
    CallerNoted(s, t, OnUseReturn(s, s.tasks[t]));
    PlainTraced(env, s, t, OnUseReturn(s, s.tasks[t]));
  }

  lemma AuthorizeReturnTraced(env: Env, s: State, t: nat)
    requires t in s.tasks && s.tasks[t].UseReturned? && TaskTraced(env, s, t, s.tasks[t])
    ensures NotesTraced(env, s, t, OnAuthorizeReturn(s, s.tasks[t]))
  {
    hide Apply, SameClaims;
    CallerNoted(s, t, OnAuthorizeReturn(s, s.tasks[t]));
  }

  lemma AbortTraced(env: Env, s: State, t: nat)
    requires t in s.tasks
    ensures NotesTraced(env, s, t, OnAbort(s, s.tasks[t]))
  {
    hide NotesTraced, Apply;
    PlainTraced(env, s, t, OnAbort(s, s.tasks[t]));
  }

  /** What the invariant says of the call that moves. */
  lemma MoverHolds(env: Env, s: State, t: nat)
    requires Inv(env, s) && Traced(env, s) && t in s.tasks
    ensures TaskOk(env, s, t, s.tasks[t]) && TaskTraced(env, s, t, s.tasks[t]) && t < s.next
    ensures s.tasks[t].UseReserving? ==> t !in s.h.uses && t !in s.h.authorized && s.tasks[t].grant.id in s.store.grants
  {
    assert CallOk(env, s, t);
    hide LanesInv, RequestsInv, GrantsInv, MadeInv, NamesInv, OnceInv, TaskTraced, RecordTraced, MadeTraced, Permits;
    hide UseOk, IssueOk, AnswerOk, Backs, Unresolved, ForRequest;
  }

  lemma RequestHolds(env: Env, s: State, r: string)
    requires Inv(env, s) && r in s.store.requests
    ensures s.store.requests[r].decision == ASK_OWNER
  {
    assert RequestOk(env, s, r);
    hide LanesInv, CallsInv, GrantsInv, MadeInv, NamesInv, OnceInv, Decide, SelfOwned;
  }

  lemma GrantHolds(env: Env, s: State, g: string)
    requires Inv(env, s)
    ensures g in s.store.grants ==> s.store.grants[g].id == g
    ensures g !in s.store.grants ==> g !in s.h.made
  {
    assert g in s.store.grants ==> GrantOk(env, s, g);
    assert g in s.h.made ==> MadeOk(s, g);
    hide LanesInv, CallsInv, RequestsInv, NamesInv, OnceInv, Founded, Accounted;
  }

  lemma StepTraced(env: Env, s: State, l: Step)
    requires Inv(env, s) && Traced(env, s) && Enabled(s, l)
    ensures NotesTraced(env, s, Mover(s, l), EffectOf(env, s, l))
  {
    hide OnCheckCall, OnCreateAsked, OnListGrants, OnCreateAllowed, OnApproveCall, OnDenyCall, OnLaneStart;
    hide OnWriteDenied, OnCreateApproved, OnResolveApproved, OnMintApproved, OnRevokeCall, OnWriteRevoked;
    hide OnIssueCall, OnMintIssued;
    hide OnUseCall, OnAuthorizeCall, OnConsumeCall, OnUseRead, OnConsumeJti, OnReserve, OnUseReturn, OnAuthorizeReturn;
    hide OnAbort, Inv, Traced, TaskOk, TaskTraced, NotesTraced, FirstInLane, Finds, Suits;
    var t := Mover(s, l);
    if !Begins(l) { MoverHolds(env, s, t); }
    match l
    case CheckCall(input, now) => CheckCallTraced(env, s, input, now);
    case CreateAsked(_, id) => CreateAskedTraced(env, s, t, id);
    case ListGrants(_, found) =>
      FoundIsStored(s, t, found);
      if found.Some? { GrantHolds(env, s, found.value); }
      ListGrantsTraced(env, s, t, found);
    case CreateAllowed(_, id) => CreateAllowedTraced(env, s, t, id);
    case ApproveCall(ownerId, r, oneTime, ttl) => ApproveCallTraced(env, s, ownerId, r, oneTime, ttl);
    case DenyCall(ownerId, r) => DenyCallTraced(env, s, ownerId, r);
    case LaneStart(_) =>
      if s.tasks[t].requestId in s.store.requests { RequestHolds(env, s, s.tasks[t].requestId); }
      LaneStartTraced(env, s, t);
    case WriteDenied(_, audited, now) => WriteDeniedTraced(env, s, t, audited, now);
    case CreateApproved(_, id, now) => GrantHolds(env, s, id); CreateApprovedTraced(env, s, t, id, now);
    case ResolveApproved(_, now) => ResolveApprovedTraced(env, s, t, now);
    case MintApproved(_, m) => MintApprovedTraced(env, s, t, m);
    case RevokeCall(ownerId, grantId) => RevokeCallTraced(env, s, ownerId, grantId);
    case WriteRevoked(_, now) => WriteRevokedTraced(env, s, t, now);
    case IssueCall(ownerId, grantId, narrow, now) => IssueCallTraced(env, s, ownerId, grantId, narrow, now);
    case MintIssued(_, m) => MintIssuedTraced(env, s, t, m);
    case UseCall(w, e, now) => UseCallTraced(env, s, w, e, now);
    case AuthorizeCall(w, e, owner, jwks, now, tol) => AuthorizeCallTraced(env, s, w, e, owner, jwks, now, tol);
    case ConsumeCall(_, now) => ConsumeCallTraced(env, s, t, now);
    case UseRead(_, now) => GrantHolds(env, s, s.tasks[t].claims.grantId); UseReadTraced(env, s, t, now);
    case ConsumeJti(_) => ConsumeJtiTraced(env, s, t);
    case Reserve(_, now) => GrantHolds(env, s, s.tasks[t].grant.id); ReserveTraced(env, s, t, now);
    case UseReturn(_) => UseReturnTraced(env, s, t);
    case AuthorizeReturn(_) => AuthorizeReturnTraced(env, s, t);
    case Abort(_) => AbortTraced(env, s, t);
  }

  lemma FoundIsStored(s: State, t: nat, found: Option<string>)
    requires Enabled(s, ListGrants(t, found))
    ensures found.Some? ==> found.value in s.store.grants
    ensures found.Some? ==> Suits(s.store.grants[found.value], s.tasks[t].input, s.tasks[t].now)
  {
    hide Suits, FirstInLane;
  }

  lemma StartTraced(env: Env)
    ensures Traced(env, START)
  {
    hide TaskTraced, UseTraced, AnswerTraced, MadeTraced, RevokedTraced, RequestTraced, SameClaims;
  }

  lemma StepOwesLess(env: Env, s: State, l: Step)
    requires Inv(env, s) && Enabled(s, l)
    ensures StoreGrows(s.store, EffectOf(env, s, l).store)
    ensures Mover(s, l) in s.tasks || Mover(s, l) == s.next
    ensures Mover(s, l) in s.tasks ==> Mover(s, l) < s.next
  {
    hide Inv, EffectOf, Mover, Enabled, StoreGrows, LaneFits, RequestsFit, GrantsFit, NotesFit, CallOk;
    StepOwes(env, s, l);
    assert Mover(s, l) in s.tasks ==> Mover(s, l) < s.next by { TaskNumbered(env, s, Mover(s, l)); }
  }

  lemma TaskNumbered(env: Env, s: State, t: nat)
    requires Inv(env, s)
    ensures t in s.tasks ==> t < s.next
  {
    hide CallsInv, RequestsInv, GrantsInv, MadeInv, NamesInv, OnceInv, LaneOk, InLane;
  }

  lemma {:induction false} TracedHolds(env: Env, ls: seq<Step>)
    requires Legal(env, ls)
    ensures Traced(env, After(env, ls))
  {
    hide Enabled, Inv, Traced, Mover, EffectOf, Apply, NotesTraced, StoreGrows;
    if ls == [] {
      StartTraced(env);
    } else {
      var s, l := After(env, ls[..|ls| - 1]), ls[|ls| - 1];
      TracedHolds(env, ls[..|ls| - 1]);
      Runs.InvHolds(env, ls[..|ls| - 1]);
      StepTraced(env, s, l);
      StepOwesLess(env, s, l);
      TracedKept(env, s, Mover(s, l), EffectOf(env, s, l));
    }
  }
}
