/**
 What each operation of the service does when no other call moves while it runs: the whole state it
 leaves, from whatever the calls before it have left behind.
 */
module AuthorityAlone {
  import opened JsValues
  import opened Results
  import opened AuthorityTypes
  import opened Policy
  import opened PolicyRulings
  import opened Claims
  import opened Tokens
  import opened TokenAcceptance
  import opened Grants
  import opened GrantRules
  import opened StoreSteps
  import opened AuthorityMachine
  import opened AuthorityInvariant
  import opened AuthorityRuns
  import opened AuthorityStages

  // ----- check -----

  /** A refusal names the first test that fails: the owner boundary, step-up, the policy. */
  lemma CheckDenied(env: Env, ls: seq<Step>, input: CheckInput, now: int, m: PolicyMatch)
    requires Legal(env, ls) && Ruled(env.policies, input.scope, m) && Refuses(input, m)
    ensures var s := After(env, ls);
      var reason := if ActsForItself(input.ownerId, input.scope.actor) then OwnerBoundary
                    else if m.requireStepUp && !input.stepUpProvided then StepUpRequired else PolicyDeny;
      Stands(env, ls + [CheckCall(input, now)], s, None, s.store, s.lanes,
             s.h.(answers := s.h.answers[s.next := (input, Denied(reason))]))
  {
    hide *;
    CheckOpens(env, ls, input, now, m);
  }

  /** A scope left to the owner becomes a pending request of just that scope. */
  lemma CheckAsks(env: Env, ls: seq<Step>, input: CheckInput, now: int, m: PolicyMatch, id: string)
    requires Legal(env, ls) && Ruled(env.policies, input.scope, m) && !Refuses(input, m) && m.decision == ASK_OWNER
    requires id !in After(env, ls).store.requests
    ensures var s := After(env, ls);
      var r := Request(id, input.ownerId, input.scope.actor, input.scope.audience, input.scope.action,
                       input.scope.resource, m.consequence, ASK_OWNER, PENDING, input.stepUpProvided, None, None);
      Stands(env, ls + [CheckCall(input, now)] + [CreateAsked(s.next, id)], s, None,
             s.store.(requests := s.store.requests[id := r]), s.lanes,
             s.h.(answers := s.h.answers[s.next := (input, Asked(id))]))
  {
    assert NewRequest(id, input, m)
      == Request(id, input.ownerId, input.scope.actor, input.scope.audience, input.scope.action,
                 input.scope.resource, m.consequence, ASK_OWNER, PENDING, input.stepUpProvided, None, None);
    hide *;
    CheckOpens(env, ls, input, now, m);
    var s := After(env, ls);
    CreatesAsked(env, ls + [CheckCall(input, now)], s, AskCreating(input, m), s.store, s.lanes, s.h, id);
  }

  /** What is answered of a grant: the first limit it has reached, or that it allows. */
  ghost predicate AnswersOn(g: Grant, m: PolicyMatch, a: Answer)
  {
    if exists k :: CountsUses(k) && Spent(g.limits, k, g.usageCount) then
      exists k :: CountsUses(k) && FirstSpent(g.limits, k, g.usageCount) && a == Denied(OverLimit(k + "_exceeded"))
    else a == if m.decision == ALLOW_WITH_LIMITS then AllowedWithLimits(g.id, g.limits) else Allowed(g.id)
  }

  lemma AnswerIs(g: Grant, m: PolicyMatch)
    ensures AnswersOn(g, m, AnswerFor(g, m))
  {
    ExceededMeans(g.limits, g.usageCount);
    hide LimitExceeded, CountsUses, Spent, FirstSpent;
  }

  /** While there is a live grant for owner, actor, audience, action and resource, no other is made for them. */
  lemma CheckReuses(env: Env, ls: seq<Step>, input: CheckInput, now: int, m: PolicyMatch, id: string)
    requires Legal(env, ls) && Ruled(env.policies, input.scope, m) && !Refuses(input, m) && m.decision != ASK_OWNER
    requires id in After(env, ls).store.grants && Answerable(After(env, ls).store.grants[id], input, now)
    ensures var (t, called) := (After(env, ls).next, ls + [CheckCall(input, now)]);
      Legal(env, called) && !Enabled(After(env, called), ListGrants(t, None))
  {
    var s := After(env, ls);
    AnswerableIs(s.store.grants[id], input, now);
    hide *;
    CheckOpens(env, ls, input, now, m);
    Seen(env, ls + [CheckCall(input, now)], s, AllowListing(input, m, now), s.store, s.lanes, s.h);
    ListsOne(After(env, ls + [CheckCall(input, now)]), s.next, id);
  }

  lemma ListsOne(s: State, t: nat, id: string)
    requires t in s.tasks && s.tasks[t].AllowListing? && id in s.store.grants
    requires Suits(s.store.grants[id], s.tasks[t].input, s.tasks[t].now)
    ensures !Enabled(s, ListGrants(t, None))
  {
    hide Suits, FirstInLane;
  }

  /** A live grant for owner, actor, audience, action and resource answers for an allowed scope. */
  lemma CheckAllows(env: Env, ls: seq<Step>, input: CheckInput, now: int, m: PolicyMatch, id: string)
    requires Legal(env, ls) && Ruled(env.policies, input.scope, m) && !Refuses(input, m) && m.decision != ASK_OWNER
    requires id in After(env, ls).store.grants && Answerable(After(env, ls).store.grants[id], input, now)
    ensures var s := After(env, ls);
      exists a :: AnswersOn(s.store.grants[id], m, a)
        && Stands(env, ls + [CheckCall(input, now)] + [ListGrants(s.next, Some(id))], s, None, s.store, s.lanes,
                  s.h.(answers := s.h.answers[s.next := (input, a)]))
  {
    var s := After(env, ls);
    AnswerableIs(s.store.grants[id], input, now);
    assert Finds(s.store, input, now, Some(id));
    hide *;
    AnswerIs(s.store.grants[id], m);
    CheckOpens(env, ls, input, now, m);
    Lists(env, ls + [CheckCall(input, now)], s, AllowListing(input, m, now), s.store, s.lanes, s.h, Some(id));
  }

  predicate Answerable(g: Grant, input: CheckInput, now: int)
  {
    g.ownerId == input.ownerId && g.actor == input.scope.actor && g.audience == input.scope.audience
    && input.scope.action in g.actions && input.scope.resource in g.resources && Live(g, now)
  }

  lemma AnswerableIs(g: Grant, input: CheckInput, now: int)
    ensures Suits(g, input, now) <==> Answerable(g, input, now)
  {
    LiveIs(g, now);
    hide GrantIsLive, Live;
  }

  /** With no such grant one is made, on the terms of the policy and for seven days. */
  lemma CheckCreates(env: Env, ls: seq<Step>, input: CheckInput, now: int, m: PolicyMatch, id: string)
    requires Legal(env, ls) && Ruled(env.policies, input.scope, m) && !Refuses(input, m) && m.decision != ASK_OWNER
    requires forall k :: k in After(env, ls).store.grants ==> !Answerable(After(env, ls).store.grants[k], input, now)
    requires id !in After(env, ls).store.grants
    ensures var s := After(env, ls);
      var g := Grant(id, input.ownerId, input.scope.actor, input.scope.audience, [input.scope.action],
                     [input.scope.resource], m.limits, if m.requireStepUp then map["requireStepUp" := true] else map[],
                     m.decision, m.consequence, m.oneTime, At(now), DateOf(now + 7 * 86400000), ACTIVE, 1, None, 0,
                     None);
      exists a :: AnswersOn(g, m, a)
        && Stands(env,
             ls + [CheckCall(input, now)] + [ListGrants(s.next, None)] + [CreateAllowed(s.next, id)], s, None,
             s.store.(grants := s.store.grants[id := g]), s.lanes,
             s.h.(answers := s.h.answers[s.next := (input, a)]))
  {
    var s := After(env, ls);
    forall k | k in s.store.grants ensures !Suits(s.store.grants[k], input, now) {
      AnswerableIs(s.store.grants[k], input, now);
    }
    assert Finds(s.store, input, now, None);
    var g := NewAllowed(id, input, m, now);
    assert g.validUntil == DateOf(now + 7 * 86400000)
      && g.conditions == if m.requireStepUp then map["requireStepUp" := true] else map[];
    assert g == Grant(id, input.ownerId, input.scope.actor, input.scope.audience, [input.scope.action],
                      [input.scope.resource], m.limits, g.conditions, m.decision, m.consequence, m.oneTime, At(now),
                      g.validUntil, ACTIVE, 1, None, 0, None);
    hide *;
    AnswerIs(g, m);
    CheckOpens(env, ls, input, now, m);
    var l1 := ls + [CheckCall(input, now)];
    Lists(env, l1, s, AllowListing(input, m, now), s.store, s.lanes, s.h, None);
    CreatesAllowed(env, l1 + [ListGrants(s.next, None)], s, AllowCreating(input, m, now), s.store, s.lanes, s.h, id);
  }

  // ----- approve and deny -----

  /** An approval lasts for an hour if its caller does not say how long. */
  function EndOf(ttl: Option<Ttl>, now: int): Date
  {
    match ttl
    case None => DateOf(now + 3600000)
    case Some(Millis(ms)) => DateOf(now + ms)
    case Some(NoDate) => Invalid
  }

  /** The grant of an approval: for one use unless its caller says otherwise. */
  function Approved(id: string, req: Request, oneTime: Option<bool>, ttl: Option<Ttl>, now: int): Grant
  {
    Grant(id, req.ownerId, req.actor, req.audience, [req.action], [req.resource], map[], map[], ALLOW, req.consequence,
          oneTime == None || oneTime == Some(true), At(now), EndOf(ttl, now), ACTIVE, 1, None, 0, None)
  }

  lemma ApprovedIs(id: string, req: Request, oneTime: Option<bool>, ttl: Option<Ttl>, now: int)
    ensures NewApproved(id, req, OnceIfUnsaid(oneTime), HourIfUnsaid(ttl), now) == Approved(id, req, oneTime, ttl, now)
  {
    hide DateOf;
  }

  /** The moments of an approval, the identifier of its grant, and the minting of its token. */
  datatype Approving = Approving(id: string, createAt: int, resolveAt: int, m: Minting)

  function ApproveSteps(
      t: nat, ownerId: string, r: string, oneTime: Option<bool>, ttl: Option<Ttl>, a: Approving): seq<Step>
  {
    [ApproveCall(ownerId, r, oneTime, ttl), LaneStart(t), CreateApproved(t, a.id, a.createAt),
     ResolveApproved(t, a.resolveAt), MintApproved(t, a.m)]
  }

  lemma ApproveStepsAre(
      ls: seq<Step>, t: nat, ownerId: string, r: string, oneTime: Option<bool>, ttl: Option<Ttl>, a: Approving)
    ensures ls + [ApproveCall(ownerId, r, oneTime, ttl)] + [LaneStart(t)] + [CreateApproved(t, a.id, a.createAt)]
              + [ResolveApproved(t, a.resolveAt)] + [MintApproved(t, a.m)]
         == ls + ApproveSteps(t, ownerId, r, oneTime, ttl, a)
  {
  }

  /** The requests and grants when an approval is through. */
  function ApprovedStore(store: Store, r: string, g: Grant, resolveAt: int): Store
    requires r in store.requests
  {
    store.(grants := store.grants[g.id := g],
           requests := store.requests[r :=
             store.requests[r].(status := ACTIVE, grantId := Some(g.id), resolvedAt := Some(At(resolveAt)))])
  }

  /** A request that may be approved: pending, the owner's, not the actor's own, with the step-up it needs. */
  predicate Approvable(store: Store, ownerId: string, r: string)
  {
    Decidable(store, ownerId, r) && !ActsForItself(ownerId, store.requests[r].actor)
    && !ShortOfStepUp(store.requests[r])
  }

  /** What an approval leaves on record before its token is minted. */
  function Records(
      h: History, t: nat, ownerId: string, r: string, oneTime: Option<bool>, ttl: Option<Ttl>, a: Approving): History
  {
    h.(approvals := h.approvals + {(ownerId, r)}, callers := h.callers[t := Caller(ownerId, oneTime, ttl)],
       made := h.made[a.id := r], makers := h.makers[a.id := Maker(t, a.createAt)],
       resolutions := h.resolutions[t := r])
  }

  lemma ApproveCreates(
      env: Env, ls: seq<Step>, ownerId: string, r: string, oneTime: Option<bool>, ttl: Option<Ttl>, a: Approving)
    requires Legal(env, ls) && LaneIn(After(env, ls).lanes, r) == [] && Approvable(After(env, ls).store, ownerId, r)
    requires a.id !in After(env, ls).store.grants && After(env, ls).store.requests[r].id == r
    ensures var s := After(env, ls);
      var (t, req) := (s.next, s.store.requests[r]);
      var g := Approved(a.id, req, oneTime, ttl, a.createAt);
      var l4 := ls + [ApproveCall(ownerId, r, oneTime, ttl)] + [LaneStart(t)] + [CreateApproved(t, a.id, a.createAt)]
                  + [ResolveApproved(t, a.resolveAt)];
      Stands(env, l4, s, Some(ApproveMinting(req, g)), ApprovedStore(s.store, r, g, a.resolveAt),
             s.lanes[r := [t]], Records(s.h, t, ownerId, r, oneTime, ttl, a))
  {
    var s := After(env, ls);
    var (t, req) := (s.next, s.store.requests[r]);
    var g := NewApproved(a.id, req, OnceIfUnsaid(oneTime), HourIfUnsaid(ttl), a.createAt);
    ApprovedIs(a.id, req, oneTime, ttl, a.createAt);
    hide Legal, After, Stands, ActsForItself, ShortOfStepUp, OnceIfUnsaid, HourIfUnsaid, NewApproved, Approved, LaneIn;
    var lanes := s.lanes[r := [t]];
    var h := Asks(s.h, t, ownerId, r, oneTime, ttl);
    ApproveOpens(env, ls, ownerId, r, oneTime, ttl);
    var l1 := ls + [ApproveCall(ownerId, r, oneTime, ttl)];
    Starts(env, l1, s, ApproveQueued(ownerId, r, oneTime, ttl), s.store, lanes, h);
    var l2 := l1 + [LaneStart(t)];
    var creating := ApproveCreating(req, OnceIfUnsaid(oneTime), HourIfUnsaid(ttl));
    CreatesApproved(env, l2, s, creating, s.store, lanes, h, a.id, a.createAt);
    var l3 := l2 + [CreateApproved(t, a.id, a.createAt)];
    Resolves(env, l3, s, ApproveResolving(req, g), s.store.(grants := s.store.grants[a.id := g]), lanes,
             h.(made := h.made[a.id := r], makers := h.makers[a.id := Maker(t, a.createAt)]), a.resolveAt);
  }

  /**
   An approval makes the grant, resolves the request with it, and returns ok with a token of all of the
   grant if the token lasts a second and its claims are well-formed.
   */
  lemma ApproveAlone(
      env: Env, ls: seq<Step>, ownerId: string, r: string, oneTime: Option<bool>, ttl: Option<Ttl>, a: Approving,
      lasts: int)
    requires Legal(env, ls) && LaneIn(After(env, ls).lanes, r) == [] && Approvable(After(env, ls).store, ownerId, r)
    requires a.id !in After(env, ls).store.grants && EndOf(ttl, a.createAt).At?
    requires Lasts(lasts, env.tokenTtl, Seconds(EndOf(ttl, a.createAt).ms) - Seconds(a.m.readAt))
    ensures var s := After(env, ls);
      var (t, req) := (s.next, s.store.requests[r]);
      var g := Approved(a.id, req, oneTime, ttl, a.createAt);
      var c := IssuedClaims(g, [req.action], [req.resource], a.m, lasts);
      var h := Records(s.h, t, ownerId, r, oneTime, ttl, a);
      Stands(env, ls + ApproveSteps(t, ownerId, r, oneTime, ttl, a), s, None, ApprovedStore(s.store, r, g, a.resolveAt),
             s.lanes[r := []],
             if lasts >= 1 && Wellformed(c) then
               h.(issued := h.issued[t := Issue(c, a.m.readAt, a.m.mintAt)], decided := h.decided + {t})
             else h)
  {
    RequestNamed(env, ls, r);
    var s := After(env, ls);
    var (t, req) := (s.next, s.store.requests[r]);
    var g := Approved(a.id, req, oneTime, ttl, a.createAt);
    assert g.validUntil == EndOf(ttl, a.createAt);
    hide Legal, After, Stands, Approvable, Approved, ApprovedStore, LaneIn, EndOf, Records, Lasts, IssuedClaims;
    hide ApproveSteps, Wellformed, Seconds;
    ApproveCreates(env, ls, ownerId, r, oneTime, ttl, a);
    ApproveStepsAre(ls, t, ownerId, r, oneTime, ttl, a);
    var l4 := ls + [ApproveCall(ownerId, r, oneTime, ttl)] + [LaneStart(t)] + [CreateApproved(t, a.id, a.createAt)]
                + [ResolveApproved(t, a.resolveAt)];
    MintsApproved(env, l4, s, ApproveMinting(req, g), ApprovedStore(s.store, r, g, a.resolveAt), s.lanes[r := [t]],
                  Records(s.h, t, ownerId, r, oneTime, ttl, a), a.m, lasts);
  }

  lemma RequestNamed(env: Env, ls: seq<Step>, r: string)
    requires Legal(env, ls) && r in After(env, ls).store.requests
    ensures After(env, ls).store.requests[r].id == r
  {
    InvHolds(env, ls);
    assert RequestOk(env, After(env, ls), r) by { hide After, Legal, RequestOk; }
    hide After, Legal, Inv;
  }

  /** A request that is not there, not the caller's, or decided already is left as it is; so is an actor's own. */
  lemma ApproveRefused(
      env: Env, ls: seq<Step>, ownerId: string, r: string, oneTime: Option<bool>, ttl: Option<Ttl>)
    requires Legal(env, ls) && LaneIn(After(env, ls).lanes, r) == []
    requires var store := After(env, ls).store;
      !Decidable(store, ownerId, r) || ActsForItself(ownerId, store.requests[r].actor)
    ensures var s := After(env, ls);
      Stands(env, ls + [ApproveCall(ownerId, r, oneTime, ttl)] + [LaneStart(s.next)], s, None, s.store,
             s.lanes[r := []], Asks(s.h, s.next, ownerId, r, oneTime, ttl))
  {
    hide Legal, After, Stands, ActsForItself, ShortOfStepUp, LaneIn, Asks, Decidable;
    var s := After(env, ls);
    ApproveOpens(env, ls, ownerId, r, oneTime, ttl);
    Starts(env, ls + [ApproveCall(ownerId, r, oneTime, ttl)], s, ApproveQueued(ownerId, r, oneTime, ttl), s.store,
           s.lanes[r := [s.next]], Asks(s.h, s.next, ownerId, r, oneTime, ttl));
  }

  /** A critical payment that was asked for without step-up is denied when it is approved. */
  lemma ApproveShortOfStepUp(
      env: Env, ls: seq<Step>, ownerId: string, r: string, oneTime: Option<bool>, ttl: Option<Ttl>, audited: bool,
      now: int)
    requires Legal(env, ls) && LaneIn(After(env, ls).lanes, r) == [] && Decidable(After(env, ls).store, ownerId, r)
    requires var req := After(env, ls).store.requests[r]; !ActsForItself(ownerId, req.actor) && ShortOfStepUp(req)
    ensures var s := After(env, ls);
      var denied := s.store.requests[r].(status := DENIED, grantId := None, resolvedAt := Some(At(now)));
      var h := Asks(s.h, s.next, ownerId, r, oneTime, ttl);
      Stands(env,
        ls + [ApproveCall(ownerId, r, oneTime, ttl)] + [LaneStart(s.next)] + [WriteDenied(s.next, audited, now)],
        s, None, s.store.(requests := s.store.requests[r := denied]), s.lanes[r := []],
        h.(resolutions := h.resolutions[s.next := r]))
  {
    RequestNamed(env, ls, r);
    hide Legal, After, Stands, ActsForItself, ShortOfStepUp, LaneIn, Asks;
    var s := After(env, ls);
    var (lanes, h) := (s.lanes[r := [s.next]], Asks(s.h, s.next, ownerId, r, oneTime, ttl));
    ApproveOpens(env, ls, ownerId, r, oneTime, ttl);
    var l1 := ls + [ApproveCall(ownerId, r, oneTime, ttl)];
    Starts(env, l1, s, ApproveQueued(ownerId, r, oneTime, ttl), s.store, lanes, h);
    WritesDenied(env, l1 + [LaneStart(s.next)], s, StepUpDenying(s.store.requests[r]), s.store, lanes, h, audited, now);
  }

  /** The owner's denial of a pending request is written, and returns ok once it is audited; no other is. */
  lemma DenyAlone(env: Env, ls: seq<Step>, ownerId: string, r: string, audited: bool, now: int)
    requires Legal(env, ls) && LaneIn(After(env, ls).lanes, r) == []
    ensures var s := After(env, ls);
      var started := ls + [DenyCall(ownerId, r)] + [LaneStart(s.next)];
      var h := NamedAs(s.h, s.next, ownerId);
      if Decidable(s.store, ownerId, r) then
        var denied := s.store.requests[r].(status := DENIED, grantId := None, resolvedAt := Some(At(now)));
        Stands(env, started + [WriteDenied(s.next, audited, now)], s, None,
               s.store.(requests := s.store.requests[r := denied]), s.lanes[r := []],
               h.(resolutions := h.resolutions[s.next := r],
                  decided := if audited then h.decided + {s.next} else h.decided))
      else Stands(env, started, s, None, s.store, s.lanes[r := []], h)
  {
    var s := After(env, ls);
    if Decidable(s.store, ownerId, r) { RequestNamed(env, ls, r); }
    hide Legal, After, Stands, ActsForItself, ShortOfStepUp, LaneIn, NamedAs;
    var (lanes, h) := (s.lanes[r := [s.next]], NamedAs(s.h, s.next, ownerId));
    DenyOpens(env, ls, ownerId, r);
    var l1 := ls + [DenyCall(ownerId, r)];
    Starts(env, l1, s, DenyQueued(ownerId, r), s.store, lanes, h);
    if Decidable(s.store, ownerId, r) {
      WritesDenied(env, l1 + [LaneStart(s.next)], s, DenyWriting(s.store.requests[r]), s.store, lanes, h, audited, now);
    }
  }

  // ----- revoke and issue -----

  /** The owner's revocation of a grant that is not revoked is written; no other is. */
  lemma RevokeAlone(env: Env, ls: seq<Step>, ownerId: string, g: string, now: int)
    requires Legal(env, ls)
    ensures var s := After(env, ls);
      var (called, h) := (ls + [RevokeCall(ownerId, g)], NamedAs(s.h, s.next, ownerId));
      if g in s.store.grants && s.store.grants[g].ownerId == ownerId && s.store.grants[g].status != REVOKED then
        var dead := s.store.grants[g].(status := REVOKED, revokedAt := Some(At(now)));
        Stands(env, called + [WriteRevoked(s.next, now)], s, None, s.store.(grants := s.store.grants[g := dead]),
               s.lanes, h.(revoked := h.revoked[g := s.next]))
      else Stands(env, called, s, None, s.store, s.lanes, h)
  {
    hide *;
    var s := After(env, ls);
    RevokeOpens(env, ls, ownerId, g);
    if g in s.store.grants && s.store.grants[g].ownerId == ownerId && s.store.grants[g].status != REVOKED {
      WritesRevoked(env, ls + [RevokeCall(ownerId, g)], s, RevokeWriting(g), s.store, s.lanes,
                    NamedAs(s.h, s.next, ownerId), now);
    }
  }

  /** The owner of a live grant is issued a token of the scope and lifetime wanted, within the grant. */
  lemma IssueAlone(
      env: Env, ls: seq<Step>, ownerId: string, id: string, narrow: Narrow, now: int, m: Minting, lasts: int)
    requires Legal(env, ls) && id in After(env, ls).store.grants
    requires var g := After(env, ls).store.grants[id]; MayIssue(g, ownerId, Wanted(g, narrow), env.tokenTtl, now)
    requires After(env, ls).store.grants[id].validUntil.At?
    requires Lasts(lasts, if narrow.ttlSeconds.Some? then narrow.ttlSeconds.value else env.tokenTtl,
                   Seconds(After(env, ls).store.grants[id].validUntil.ms) - Seconds(m.readAt))
    ensures var s := After(env, ls);
      var (g, h) := (s.store.grants[id], NamedAs(s.h, s.next, ownerId));
      var c := IssuedClaims(g, Wanted(g, narrow).actions, Wanted(g, narrow).resources, m, lasts);
      Stands(env, ls + [IssueCall(ownerId, id, narrow, now)] + [MintIssued(s.next, m)], s, None, s.store, s.lanes,
             if lasts >= 1 && Wellformed(c) then h.(issued := h.issued[s.next := Issue(c, m.readAt, m.mintAt)]) else h)
  {
    hide Legal, After, Stands, Lasts, MayIssue, IssuedClaims, Wellformed, Seconds, NamedAs;
    var s := After(env, ls);
    IssueOpens(env, ls, ownerId, id, narrow, now);
    var g := s.store.grants[id];
    MintsIssued(env, ls + [IssueCall(ownerId, id, narrow, now)], s, Issuing(g, Wanted(g, narrow)), s.store, s.lanes,
                NamedAs(s.h, s.next, ownerId), m, lasts);
  }

  /** Anyone else, and the owner of a grant that does not allow what is wanted, is issued nothing. */
  lemma IssueRefused(env: Env, ls: seq<Step>, ownerId: string, id: string, narrow: Narrow, now: int)
    requires Legal(env, ls)
    requires id in After(env, ls).store.grants ==>
      var g := After(env, ls).store.grants[id]; !MayIssue(g, ownerId, Wanted(g, narrow), env.tokenTtl, now)
    ensures var s := After(env, ls);
      Stands(env, ls + [IssueCall(ownerId, id, narrow, now)], s, None, s.store, s.lanes, NamedAs(s.h, s.next, ownerId))
  {
    hide *;
    IssueOpens(env, ls, ownerId, id, narrow, now);
  }

  // ----- use and authorize -----

  /** The clock when the token is verified, when the grant is read, and when it is used. */
  datatype Clock = Clock(verify: int, read: int, take: int)

  /** The steps of a use after its token is verified. */
  function UseSteps(t: nat, once: bool, k: Clock): seq<Step>
  {
    [UseRead(t, k.read)] + (if once then [ConsumeJti(t)] else []) + [Reserve(t, k.take), UseReturn(t)]
  }

  lemma UseStepsAre(ls: seq<Step>, t: nat, k: Clock)
    ensures ls + [UseRead(t, k.read)] + [Reserve(t, k.take)] + [UseReturn(t)] == ls + UseSteps(t, false, k)
    ensures ls + [UseRead(t, k.read)] + [ConsumeJti(t)] + [Reserve(t, k.take)] + [UseReturn(t)]
         == ls + UseSteps(t, true, k)
  {
  }

  /** The grant has one use more, and is consumed if it or the token is for one; the token is spent if so. */
  function UsedStore(store: Store, c: Claims): Store
    requires c.grantId in store.grants
  {
    var g := store.grants[c.grantId];
    var once := c.oneTime || g.oneTime;
    store.(grants := store.grants[c.grantId :=
             g.(usageCount := g.usageCount + 1, status := if once then CONSUMED else ACTIVE)],
           consumed := if once then store.consumed + {c.jti} else store.consumed)
  }

  predicate Unspent(store: Store, c: Claims)
    requires c.grantId in store.grants
  {
    c.oneTime || store.grants[c.grantId].oneTime ==> c.jti !in store.consumed
  }

  /** The reservation and the return, with whatever tokens spent. */
  lemma TakeGoes(
      env: Env, ls: seq<Step>, s: State, c: Claims, e: Expectation, shown: Shown, g: Grant, outer: Option<Claims>,
      store: Store, take: int)
    requires Stands(env, ls, s, Some(UseReserving(c, e, shown, g, outer)), store, s.lanes, s.h)
    requires g.id in store.grants && store.grants[g.id] == g && HasBudget(g.limits, g.usageCount) && Live(g, take)
    ensures Stands(env, ls + [Reserve(s.next, take)] + [UseReturn(s.next)], s,
              if outer.Some? then Some(UseReturned(g.id, c.jti, outer.value)) else None,
              store.(grants := store.grants[g.id := UsedOnce(g, c.oneTime || g.oneTime)]), s.lanes,
              s.h.(uses := s.h.uses[s.next := Use(g.id, e, shown, c)], oks := s.h.oks + {s.next}))
  {
    var t := s.next;
    assert g.validFrom.At? && g.validUntil.At? && g.status == ACTIVE;
    hide *;
    Reserves(env, ls, s, UseReserving(c, e, shown, g, outer), store, s.lanes, s.h, take);
    Returns(env, ls + [Reserve(t, take)], s, UseReturning(g.id, c.jti, outer),
            store.(grants := store.grants[g.id := UsedOnce(g, c.oneTime || g.oneTime)]), s.lanes,
            s.h.(uses := s.h.uses[t := Use(g.id, e, shown, c)]));
  }

  lemma LiveActive(g: Grant, now: int)
    requires Live(g, now)
    ensures g.status == ACTIVE
  {
  }

  lemma UseGoesOnce(
      env: Env, ls: seq<Step>, s: State, c: Claims, e: Expectation, shown: Shown, outer: Option<Claims>, k: Clock)
    requires Stands(env, ls, s, Some(UseReading(c, e, shown, outer)), s.store, s.lanes, s.h)
    requires c.grantId in s.store.grants && s.store.grants[c.grantId].id == c.grantId && Unspent(s.store, c)
    requires MayUse(s.store.grants[c.grantId], c, e, k.read) && Live(s.store.grants[c.grantId], k.take)
    requires c.oneTime || s.store.grants[c.grantId].oneTime
    ensures Stands(env,
              ls + [UseRead(s.next, k.read)] + [ConsumeJti(s.next)] + [Reserve(s.next, k.take)] + [UseReturn(s.next)],
              s, if outer.Some? then Some(UseReturned(c.grantId, c.jti, outer.value)) else None,
              UsedStore(s.store, c), s.lanes,
              s.h.(uses := s.h.uses[s.next := Use(c.grantId, e, shown, c)], oks := s.h.oks + {s.next}))
  {
    hide Stands, Live, HasBudget;
    var g := s.store.grants[c.grantId];
    var l1 := ls + [UseRead(s.next, k.read)];
    assert HasBudget(g.limits, g.usageCount) && g.status == ACTIVE by { LiveActive(g, k.read); }
    var spent := s.store.(consumed := s.store.consumed + {c.jti});
    assert UsedStore(s.store, c) == spent.(grants := s.store.grants[g.id := UsedOnce(g, true)]);
    assert c.jti !in s.store.consumed;
    hide *;
    Reads(env, ls, s, UseReading(c, e, shown, outer), s.store, s.lanes, s.h, k.read);
    ConsumesJti(env, l1, s, UseConsuming(c, e, shown, g, outer), s.store, s.lanes, s.h);
    TakeGoes(env, l1 + [ConsumeJti(s.next)], s, c, e, shown, g, outer, spent, k.take);
  }

  lemma UseGoesFreely(
      env: Env, ls: seq<Step>, s: State, c: Claims, e: Expectation, shown: Shown, outer: Option<Claims>, k: Clock)
    requires Stands(env, ls, s, Some(UseReading(c, e, shown, outer)), s.store, s.lanes, s.h)
    requires c.grantId in s.store.grants && s.store.grants[c.grantId].id == c.grantId && Unspent(s.store, c)
    requires MayUse(s.store.grants[c.grantId], c, e, k.read) && Live(s.store.grants[c.grantId], k.take)
    requires !c.oneTime && !s.store.grants[c.grantId].oneTime
    ensures Stands(env,
              ls + [UseRead(s.next, k.read)] + [Reserve(s.next, k.take)] + [UseReturn(s.next)],
              s, if outer.Some? then Some(UseReturned(c.grantId, c.jti, outer.value)) else None,
              UsedStore(s.store, c), s.lanes,
              s.h.(uses := s.h.uses[s.next := Use(c.grantId, e, shown, c)], oks := s.h.oks + {s.next}))
  {
    hide Stands, Live, HasBudget;
    var g := s.store.grants[c.grantId];
    var l1 := ls + [UseRead(s.next, k.read)];
    assert HasBudget(g.limits, g.usageCount) && g.status == ACTIVE by { LiveActive(g, k.read); }
    assert UsedStore(s.store, c) == s.store.(grants := s.store.grants[g.id := UsedOnce(g, false)]);
    hide *;
    Reads(env, ls, s, UseReading(c, e, shown, outer), s.store, s.lanes, s.h, k.read);
    TakeGoes(env, l1, s, c, e, shown, g, outer, s.store, k.take);
  }

  lemma UseGoes(
      env: Env, ls: seq<Step>, s: State, c: Claims, e: Expectation, shown: Shown, outer: Option<Claims>, k: Clock)
    requires Stands(env, ls, s, Some(UseReading(c, e, shown, outer)), s.store, s.lanes, s.h)
    requires c.grantId in s.store.grants && s.store.grants[c.grantId].id == c.grantId && Unspent(s.store, c)
    requires MayUse(s.store.grants[c.grantId], c, e, k.read) && Live(s.store.grants[c.grantId], k.take)
    ensures Stands(env, ls + UseSteps(s.next, c.oneTime || s.store.grants[c.grantId].oneTime, k), s,
              if outer.Some? then Some(UseReturned(c.grantId, c.jti, outer.value)) else None,
              UsedStore(s.store, c), s.lanes,
              s.h.(uses := s.h.uses[s.next := Use(c.grantId, e, shown, c)], oks := s.h.oks + {s.next}))
  {
    hide *;
    UseStepsAre(ls, s.next, k);
    if c.oneTime || s.store.grants[c.grantId].oneTime {
      UseGoesOnce(env, ls, s, c, e, shown, outer, k);
    } else {
      UseGoesFreely(env, ls, s, c, e, shown, outer, k);
    }
  }

  /**
   A token in force that the service has signed, for a live grant that approves what is expected of it and has
   uses left, is used: the call returns ok, and what changes is the grant's count, and with a single use its
   status and the spent tokens.
   */
  lemma UndisturbedUseSucceeds(env: Env, ls: seq<Step>, w: Wire, e: Expectation, c: Claims, k: Clock)
    requires Legal(env, ls) && Admits(env, w, e, k.verify, c)
    requires c.grantId in After(env, ls).store.grants && Unspent(After(env, ls).store, c)
    requires var g := After(env, ls).store.grants[c.grantId]; MayUse(g, c, e, k.read) && Live(g, k.take)
    ensures var s := After(env, ls); var once := c.oneTime || s.store.grants[c.grantId].oneTime;
      Stands(env, ls + [UseCall(w, e, k.verify)] + UseSteps(s.next, once, k), s, None, UsedStore(s.store, c), s.lanes,
             s.h.(uses := s.h.uses[s.next := Use(c.grantId, e, Shown(w, k.verify), c)], oks := s.h.oks + {s.next}))
  {
    hide *;
    GrantNamed(env, ls, c.grantId);
    UseOpens(env, ls, w, e, k.verify);
    UseGoes(env, ls + [UseCall(w, e, k.verify)], After(env, ls), c, e, Shown(w, k.verify), None, k);
  }

  lemma GrantNamed(env: Env, ls: seq<Step>, id: string)
    requires Legal(env, ls) && id in After(env, ls).store.grants
    ensures After(env, ls).store.grants[id].id == id
  {
    GrantHolds(env, ls, id);
    hide After, Legal, Founded, Accounted;
  }

  /** A token that is not taken, or whose grant may not be used so, leaves everything as it is. */
  lemma UseRefused(env: Env, ls: seq<Step>, w: Wire, e: Expectation, k: Clock)
    requires Legal(env, ls)
    requires forall c :: Admits(env, w, e, k.verify, c) ==>
      var grants := After(env, ls).store.grants; c.grantId !in grants || !MayUse(grants[c.grantId], c, e, k.read)
    ensures var s := After(env, ls); var called := ls + [UseCall(w, e, k.verify)];
      Stands(env, if exists c :: Admits(env, w, e, k.verify, c) then called + [UseRead(s.next, k.read)] else called,
             s, None, s.store, s.lanes, s.h)
  {
    hide *;
    UseOpens(env, ls, w, e, k.verify);
    if c :| Admits(env, w, e, k.verify, c) {
      var s := After(env, ls);
      Reads(env, ls + [UseCall(w, e, k.verify)], s, UseReading(c, e, Shown(w, k.verify), None), s.store, s.lanes, s.h,
            k.read);
    }
  }

  /** A single-use token that is spent leaves everything as it is. */
  lemma SpentUseFails(env: Env, ls: seq<Step>, w: Wire, e: Expectation, c: Claims, k: Clock)
    requires Legal(env, ls) && Admits(env, w, e, k.verify, c)
    requires c.grantId in After(env, ls).store.grants && !Unspent(After(env, ls).store, c)
    requires MayUse(After(env, ls).store.grants[c.grantId], c, e, k.read)
    ensures var s := After(env, ls);
      Stands(env, ls + [UseCall(w, e, k.verify)] + [UseRead(s.next, k.read)] + [ConsumeJti(s.next)], s, None, s.store,
             s.lanes, s.h)
  {
    hide Legal, After, Stands, Admits, MayUse;
    var s := After(env, ls);
    UseOpens(env, ls, w, e, k.verify);
    var l1 := ls + [UseCall(w, e, k.verify)];
    var shown := Shown(w, k.verify);
    Reads(env, l1, s, UseReading(c, e, shown, None), s.store, s.lanes, s.h, k.read);
    ConsumesJti(env, l1 + [UseRead(s.next, k.read)], s, UseConsuming(c, e, shown, s.store.grants[c.grantId], None),
                s.store, s.lanes, s.h);
    assert s.store.consumed + {c.jti} == s.store.consumed;
  }

  /** And `authorizeAuthority` returns the claims it has verified, by its own keys and clock, once that use is made. */
  lemma AuthorizeAlone(
      env: Env, ls: seq<Step>, w: Wire, e: Expectation, owner: Option<string>, jwks: seq<Jwk>, at: int, tolerance: int,
      full: Claims, c: Claims, k: Clock)
    requires Legal(env, ls) && ConsumerAdmits(w, e, owner, jwks, at, tolerance, full) && Admits(env, w, e, k.verify, c)
    requires c.grantId in After(env, ls).store.grants && Unspent(After(env, ls).store, c)
    requires var g := After(env, ls).store.grants[c.grantId]; MayUse(g, c, e, k.read) && Live(g, k.take)
    ensures var s := After(env, ls); var once := c.oneTime || s.store.grants[c.grantId].oneTime;
      Stands(env, ls + [AuthorizeCall(w, e, owner, jwks, at, tolerance)] + [ConsumeCall(s.next, k.verify)]
                    + UseSteps(s.next, once, k) + [AuthorizeReturn(s.next)],
             s, None, UsedStore(s.store, c), s.lanes,
             s.h.(uses := s.h.uses[s.next := Use(c.grantId, e, Shown(w, k.verify), c)], oks := s.h.oks + {s.next},
                  authorized := s.h.authorized[s.next := full]))
  {
    hide *;
    var s := After(env, ls);
    var (shown, once) := (Shown(w, k.verify), c.oneTime || s.store.grants[c.grantId].oneTime);
    GrantNamed(env, ls, c.grantId);
    SameToken(env, w, e, owner, jwks, at, tolerance, full, c, k.verify);
    AuthorizeOpens(env, ls, w, e, owner, jwks, at, tolerance, full);
    var l1 := ls + [AuthorizeCall(w, e, owner, jwks, at, tolerance)];
    Consumes(env, l1, s, AuthorizeConsuming(w, e, full), s.store, s.lanes, s.h, k.verify, c);
    var l2 := l1 + [ConsumeCall(s.next, k.verify)];
    UseGoes(env, l2, s, c, e, shown, Some(full), k);
    AuthorizeReturns(env, l2 + UseSteps(s.next, once, k), s, UseReturned(c.grantId, c.jti, full), UsedStore(s.store, c),
                     s.lanes, s.h.(uses := s.h.uses[s.next := Use(c.grantId, e, shown, c)], oks := s.h.oks + {s.next}));
  }

  /** Both have read the one payload. */
  lemma SameToken(
      env: Env, w: Wire, e: Expectation, owner: Option<string>, jwks: seq<Jwk>, at: int, tolerance: int,
      full: Claims, c: Claims, verify: int)
    requires ConsumerAdmits(w, e, owner, jwks, at, tolerance, full) && Admits(env, w, e, verify, c)
    ensures c == full.(ownerTrustId := None)
  {
    var d :| Accepted(w.body.jwt, d, [env.key], e.audience, verify, 0) && c == d.(ownerTrustId := None);
    assert Wellformed(d) && Wellformed(full) && ToPayload(d) == ToPayload(full);
    ShapeMeans(d);
    ShapeMeans(full);
    hide Wellformed, Genuine, Seconds, ToPayload, IsAuthorityClaimsShape;
    PayloadKeepsClaims(d);
    PayloadKeepsClaims(full);
  }

  // ----- a call that is cut off -----

  /** A call that waits for no other: it is at a store call, or the first of its lane. */
  predicate AtWork(s: State, t: nat)
  {
    t in s.tasks && (Queued(s.tasks[t]) ==> FirstInLane(s, t))
  }

  /** The store call it makes may throw; then it is over, with no answer, and the store and what others did stay. */
  lemma CutOff(env: Env, ls: seq<Step>, t: nat)
    requires Legal(env, ls) && AtWork(After(env, ls), t)
    ensures var s := After(env, ls);
      var orphans := if s.tasks[t].ApproveResolving? then s.h.orphans + {s.tasks[t].grant.id} else s.h.orphans;
      Enabled(s, Abort(t)) && Legal(env, ls + [Abort(t)]) &&
      var b := After(env, ls + [Abort(t)]);
      b.store == s.store && b.tasks == s.tasks - {t} && b.next == s.next && b.h == s.h.(orphans := orphans)
  {
    CutOffStep(env, After(env, ls), t);
    hide *;
    InvHolds(env, ls);
    NotNext(env, After(env, ls), t);
    Extend(env, ls, Abort(t));
  }

  lemma NotNext(env: Env, s: State, t: nat)
    requires Inv(env, s) && t in s.tasks
    ensures t != s.next
  {
  }

  lemma CutOffStep(env: Env, s: State, t: nat)
    requires AtWork(s, t)
    ensures Enabled(s, Abort(t))
    ensures var b := Do(env, s, Abort(t));
      var orphans := if s.tasks[t].ApproveResolving? then s.h.orphans + {s.tasks[t].grant.id} else s.h.orphans;
      b.store == s.store && b.tasks == s.tasks - {t} && (t != s.next ==> b.next == s.next)
      && b.h == s.h.(orphans := orphans)
  {
    hide EffectOf, MoveLanes, FirstInLane, LaneOf;
    assert EffectOf(env, s, Abort(t)) == OnAbort(s, s.tasks[t]) by {
      hide *;
      EffectIs(env, s, Abort(t));
    }
  }

  // ----- from approval to use -----

  /** What a consumer that was asked for by `r` expects of its token. */
  function Expects(req: Request): Expectation
  {
    Expectation(req.audience, ActorKey(req.actor), req.action, req.resource)
  }

  /** The text of a token of the whole of the grant, if one is issued. */
  function TokenOf(env: Env, g: Grant, m: Minting): Wire
  {
    match IssueTokenFromGrant(env.key, env.tokenTtl, g, g.actions, g.resources, None, m)
    case Ok((w, _)) => w
    case Err(_) => Wire("", Garbage, "")
  }

  lemma ScopeIsNamed(action: string, resource: string, c: Claims)
    requires Wellformed(c) && c.actions == [action] && c.resources == [resource]
    ensures action != "" && resource != "" && c.aud != "" && c.actor != ""
  {
    hide NamesActor;
    assert IsTrimmed(c.actions[0]) && IsTrimmed(c.resources[0]);
  }

  /** A token is taken for as long as it lasts by the service that has issued it. */
  lemma IssuedIsAdmitted(env: Env, req: Request, g: Grant, m: Minting, lasts: int, at: int)
    requires g.audience == req.audience && g.actor == req.actor
    requires g.actions == [req.action] && g.resources == [req.resource]
    requires g.validUntil.At? && Lasts(lasts, env.tokenTtl, Seconds(g.validUntil.ms) - Seconds(m.readAt)) && lasts >= 1
    requires Wellformed(IssuedClaims(g, g.actions, g.resources, m, lasts))
    requires Seconds(m.mintAt) <= Seconds(at) < Seconds(m.mintAt) + lasts
    ensures var c := IssuedClaims(g, g.actions, g.resources, m, lasts);
      Admits(env, TokenOf(env, g, m), Expects(req), at, c.(ownerTrustId := None))
  {
    var c := IssuedClaims(g, g.actions, g.resources, m, lasts);
    var (input, e) := (IssueInput(g, g.actions, g.resources, m, lasts), Expects(req));
    IssueIsMint(env.key, env.tokenTtl, g, g.actions, g.resources, None, m, lasts);
    IssueMeans(env.key, env.tokenTtl, g, g.actions, g.resources, None, m, lasts);
    ScopeIsNamed(req.action, req.resource, c);
    assert FindJwk([env.key], env.key.kid) == Some(env.key);
    assert Definite(e) && Meets(c, e) && InForce(c, at, 0);
    assert TokenOf(env, g, m) == MintAuthorityToken(env.key, input).value.0;
    hide *;
    MintedVerifies(env.skips, env.key, input, [env.key], e, at, 0);
    AdmitsIs(env, TokenOf(env, g, m), e, at, c.(ownerTrustId := None));
  }

  lemma ApprovedMayBeUsed(
      id: string, req: Request, oneTime: Option<bool>, ttl: Option<Ttl>, at: int, m: Minting, lasts: int, now: int)
    requires EndOf(ttl, at).At? && at <= now < EndOf(ttl, at).ms
    ensures var g := Approved(id, req, oneTime, ttl, at);
      var c := IssuedClaims(g, [req.action], [req.resource], m, lasts).(ownerTrustId := None);
      Live(g, now) && MayUse(g, c, Expects(req), now)
  {
    hide EndOf, Seconds, ActorKey;
  }

  /** A call that is over has left this state. */
  lemma Over(env: Env, ls: seq<Step>, s: State, store: Store, lanes: map<string, seq<nat>>, h: History)
    requires Stands(env, ls, s, None, store, lanes, h)
    ensures Legal(env, ls) && After(env, ls) == State(store, s.tasks, lanes, s.next + 1, h)
  {
    hide Legal, After;
  }

  /** The lifetime of the token, and the moments of its use: within what it lasts, and within the grant. */
  predicate InTime(env: Env, a: Approving, until: Date, lasts: int, k: Clock)
  {
    until.At? && lasts >= 1 && Lasts(lasts, env.tokenTtl, Seconds(until.ms) - Seconds(a.m.readAt))
    && Seconds(a.m.mintAt) <= Seconds(k.verify) < Seconds(a.m.mintAt) + lasts
    && a.createAt <= k.read < until.ms && a.createAt <= k.take < until.ms
  }

  /** Call `t` has approved, call `u` has used, and these are the grants. */
  ghost predicate ApprovedAndUsed(env: Env, ls: seq<Step>, t: nat, u: nat, grants: map<string, Grant>)
  {
    Legal(env, ls) && t in After(env, ls).h.decided && u in After(env, ls).h.oks
    && After(env, ls).store.grants == grants
  }

  /** The grant when it has been used once. */
  function FirstUsed(g: Grant): Grant
  {
    g.(usageCount := 1, status := if g.oneTime then CONSUMED else ACTIVE)
  }

  /** The use that follows an approval. */
  lemma UsesApproved(env: Env, ls: seq<Step>, t: nat, req: Request, g: Grant, c: Claims, w: Wire, k: Clock)
    requires Legal(env, ls) && t in After(env, ls).h.decided
    requires Admits(env, w, Expects(req), k.verify, c) && c.grantId == g.id && c.oneTime == g.oneTime
    requires g.id in After(env, ls).store.grants && After(env, ls).store.grants[g.id] == g && g.usageCount == 0
    requires c.jti !in After(env, ls).store.consumed && MayUse(g, c, Expects(req), k.read) && Live(g, k.take)
    ensures var s := After(env, ls);
      ApprovedAndUsed(
        env, ls + [UseCall(w, Expects(req), k.verify)] + UseSteps(s.next, g.oneTime, k), t, s.next,
        s.store.grants[g.id := FirstUsed(g)])
  {
    hide Legal, After, Stands, Admits, MayUse, Live, UseSteps, Expects;
    var s := After(env, ls);
    UndisturbedUseSucceeds(env, ls, w, Expects(req), c, k);
    Over(env, ls + [UseCall(w, Expects(req), k.verify)] + UseSteps(s.next, g.oneTime, k), s, UsedStore(s.store, c),
         s.lanes, s.h.(uses := s.h.uses[s.next := Use(c.grantId, Expects(req), Shown(w, k.verify), c)],
                       oks := s.h.oks + {s.next}));
  }

  /** The store an approval leaves is one in which its token may be used. */
  lemma ApprovedIsReady(
      env: Env, was: Store, r: string, oneTime: Option<bool>, ttl: Option<Ttl>, a: Approving, lasts: int, k: Clock)
    requires r in was.requests && a.m.jti !in was.consumed && InTime(env, a, EndOf(ttl, a.createAt), lasts, k)
    requires var req := was.requests[r];
      Wellformed(IssuedClaims(Approved(a.id, req, oneTime, ttl, a.createAt), [req.action], [req.resource], a.m, lasts))
    ensures var req := was.requests[r];
      var g := Approved(a.id, req, oneTime, ttl, a.createAt);
      var c := IssuedClaims(g, [req.action], [req.resource], a.m, lasts).(ownerTrustId := None);
      var store := ApprovedStore(was, r, g, a.resolveAt);
      && Admits(env, TokenOf(env, g, a.m), Expects(req), k.verify, c) && c.grantId == g.id && c.oneTime == g.oneTime
      && g.id == a.id && g.id in store.grants && store.grants[g.id] == g && g.usageCount == 0
      && c.jti !in store.consumed && MayUse(g, c, Expects(req), k.read) && Live(g, k.take)
      && g.validUntil == EndOf(ttl, a.createAt)
      && store.grants[g.id := FirstUsed(g)] == was.grants[a.id := FirstUsed(g)]
  {
    hide Wellformed, EndOf, Lasts, Seconds, MayUse, Live, Expects, Admits, ActorKey, TokenOf;
    var req := was.requests[r];
    var g := Approved(a.id, req, oneTime, ttl, a.createAt);
    ApprovedMayBeUsed(a.id, req, oneTime, ttl, a.createAt, a.m, lasts, k.read);
    ApprovedMayBeUsed(a.id, req, oneTime, ttl, a.createAt, a.m, lasts, k.take);
    IssuedIsAdmitted(env, req, g, a.m, lasts, k.verify);
    assert was.grants[a.id := g][a.id := FirstUsed(g)] == was.grants[a.id := FirstUsed(g)];
  }

  /**
   Asked for, approved and used: the token that an approval returns is good for what was asked, until it or the
   grant ends, and where the approval is for one use the grant is then consumed.
   */
  lemma ApprovedIsUsable(
      env: Env, ls: seq<Step>, ownerId: string, r: string, oneTime: Option<bool>, ttl: Option<Ttl>, a: Approving,
      lasts: int, k: Clock)
    requires Legal(env, ls) && LaneIn(After(env, ls).lanes, r) == [] && Approvable(After(env, ls).store, ownerId, r)
    requires a.id !in After(env, ls).store.grants && a.m.jti !in After(env, ls).store.consumed
    requires InTime(env, a, EndOf(ttl, a.createAt), lasts, k)
    requires var req := After(env, ls).store.requests[r];
      Wellformed(IssuedClaims(Approved(a.id, req, oneTime, ttl, a.createAt), [req.action], [req.resource], a.m, lasts))
    ensures var s := After(env, ls);
      var (t, req) := (s.next, s.store.requests[r]);
      var g := Approved(a.id, req, oneTime, ttl, a.createAt);
      var approved := ls + ApproveSteps(t, ownerId, r, oneTime, ttl, a);
      ApprovedAndUsed(
        env, approved + [UseCall(TokenOf(env, g, a.m), Expects(req), k.verify)] + UseSteps(t + 1, g.oneTime, k), t,
        t + 1,
        s.store.grants[a.id := FirstUsed(g)])
  {
    hide Legal, After, Stands, Wellformed, EndOf, Lasts, Seconds, LaneIn;
    var s := After(env, ls);
    var until := EndOf(ttl, a.createAt);
    assert r in s.store.requests && until.At? && lasts >= 1
      && Lasts(lasts, env.tokenTtl, Seconds(until.ms) - Seconds(a.m.readAt));
    hide *;
    var (t, req) := (s.next, s.store.requests[r]);
    var g := Approved(a.id, req, oneTime, ttl, a.createAt);
    var c := IssuedClaims(g, [req.action], [req.resource], a.m, lasts);
    var store := ApprovedStore(s.store, r, g, a.resolveAt);
    ApprovedIsReady(env, s.store, r, oneTime, ttl, a, lasts, k);
    ApproveAlone(env, ls, ownerId, r, oneTime, ttl, a, lasts);
    var h := Records(s.h, t, ownerId, r, oneTime, ttl, a);
    var approved := ls + ApproveSteps(t, ownerId, r, oneTime, ttl, a);
    Over(env, approved, s, store, s.lanes[r := []],
         h.(issued := h.issued[t := Issue(c, a.m.readAt, a.m.mintAt)], decided := h.decided + {t}));
    UsesApproved(env, approved, t, req, g, c.(ownerTrustId := None), TokenOf(env, g, a.m), k);
  }
}
