/** What holds in every run of the authority service, however its calls interleave. */
module AuthorityRuns {
  import opened JsValues
  import opened Results
  import opened AuthorityTypes
  import opened Policy
  import opened PolicyRulings
  import opened Claims
  import opened Tokens
  import opened Grants
  import opened StoreSteps
  import opened AuthorityMachine
  import opened AuthorityFrames
  import opened AuthorityLanes
  import opened AuthorityInvariant
  import opened AuthorityKeeps
  import opened AuthoritySteps

  lemma {:induction false} InvHolds(env: Env, ls: seq<Step>)
    requires Legal(env, ls)
    ensures Inv(env, After(env, ls))
  {
    hide Enabled, Inv, Owed, Mover, EffectOf, Apply;
    if ls == [] {
      StartInv(env);
    } else {
      var s, l := After(env, ls[..|ls| - 1]), ls[|ls| - 1];
      InvHolds(env, ls[..|ls| - 1]);
      StepOwes(env, s, l);
      StepKeeps(env, s, Mover(s, l), EffectOf(env, s, l));
    }
  }

  lemma StartInv(env: Env)
    ensures Inv(env, START)
  {
    hide TaskOk, UseOk, IssueOk, AnswerOk;
  }

  // ----- parts of a run -----

  lemma {:induction false} PrefixLegal(env: Env, ls: seq<Step>, k: nat)
    requires Legal(env, ls) && k <= |ls|
    ensures Legal(env, ls[..k])
    decreases |ls|
  {
    hide Enabled, After;
    if k < |ls| {
      PrefixLegal(env, ls[..|ls| - 1], k);
      assert ls[..|ls| - 1][..k] == ls[..k];
    } else {
      assert ls[..k] == ls;
    }
  }

  lemma StepGrows(env: Env, s: State, l: Step)
    requires Inv(env, s) && Enabled(s, l)
    ensures StoreGrows(s.store, Do(env, s, l).store)
  {
    hide Enabled, EffectOf, Mover, Inv, LaneFits, RequestsFit, GrantsFit, NotesFit, CallOk, StoreGrows, Noted;
    hide MoveLanes;
    StepOwes(env, s, l);
  }

  /** From any moment of a run to its end: terms stay, statuses move forward only, resolved requests stay resolved. */
  lemma {:induction false} StatusIsMonotone(env: Env, ls: seq<Step>, k: nat)
    requires Legal(env, ls) && k <= |ls|
    ensures Legal(env, ls[..k]) && StoreGrows(After(env, ls[..k]).store, After(env, ls).store)
    decreases |ls|
  {
    PrefixLegal(env, ls, k);
    hide Enabled, Inv, Mover, EffectOf;
    if k < |ls| {
      var init := ls[..|ls| - 1];
      var s, l := After(env, init), ls[|ls| - 1];
      StatusIsMonotone(env, init, k);
      assert init[..k] == ls[..k];
      InvHolds(env, init);
      hide StoreGrows;
      StepGrows(env, s, l);
      GrowsComposes(After(env, ls[..k]).store, s.store, After(env, ls).store);
    } else {
      assert ls[..k] == ls;
      hide Legal;
    }
  }

  // ----- at most once, and never over budget -----

  /** The record and the store agree, for any call of a run. */
  lemma CallHolds(env: Env, ls: seq<Step>, t: nat)
    requires Legal(env, ls)
    ensures CallOk(env, After(env, ls), t)
  {
    hide After, Legal, CallOk, LanesInv, RequestsInv, GrantsInv, MadeInv, NamesInv, OnceInv;
    InvHolds(env, ls);
  }

  lemma GrantHolds(env: Env, ls: seq<Step>, id: string)
    requires Legal(env, ls) && id in After(env, ls).store.grants
    ensures GrantOk(env, After(env, ls), id)
  {
    hide After, Legal, GrantOk, LanesInv, CallsInv, RequestsInv, MadeInv, NamesInv, OnceInv;
    InvHolds(env, ls);
  }

  lemma TwoUses(uses: map<nat, Use>, t: nat, u: nat)
    requires t in uses && u in uses && t != u && uses[t].grantId == uses[u].grantId
    ensures |UsesOf(uses, uses[t].grantId)| >= 2
  {
    var all := UsesOf(uses, uses[t].grantId);
    assert {t, u} <= all;
    SubsetSize({t, u}, all);
  }

  lemma {:induction false} SubsetSize(a: set<nat>, b: set<nat>)
    requires a <= b
    ensures |a| <= |b|
  {
    if a != {} {
      var x :| x in a;
      SubsetSize(a - {x}, b - {x});
    }
  }

  /**
   Of all the useToken calls of a run, over whatever tokens, at most one takes a one-time grant; so
   at most one returns ok, and at most one authorizeAuthority built on them succeeds.
   */
  lemma OneTimeOnce(env: Env, ls: seq<Step>, t: nat, u: nat)
    requires Legal(env, ls) && t in After(env, ls).h.uses && u in After(env, ls).h.uses
    requires var h := After(env, ls).h; h.uses[t].grantId == h.uses[u].grantId
    ensures var s := After(env, ls);
      s.h.authorized.Keys <= s.h.oks && s.h.oks <= s.h.uses.Keys
      && s.h.uses[t].grantId in s.store.grants
      && (s.store.grants[s.h.uses[t].grantId].oneTime ==> t == u)
  {
    hide After, Legal, Founded, TaskOk, UsesOf, Permits, IssueOk, AnswerOk;
    var s := After(env, ls);
    forall v
      ensures (v in s.h.authorized ==> v in s.h.oks) && (v in s.h.oks ==> v in s.h.uses)
    {
      CallHolds(env, ls, v);
    }
    CallHolds(env, ls, t);
    GrantHolds(env, ls, s.h.uses[t].grantId);
    if t != u { TwoUses(s.h.uses, t, u); }
  }

  /**
   What `authorizeAuthority` returns: claims for what was asked, and a use of the very grant they name, of
   that owner.
   */
  lemma AuthorizedIsUsed(env: Env, ls: seq<Step>, t: nat)
    requires Legal(env, ls) && t in After(env, ls).h.authorized
    ensures var s := After(env, ls); var c := s.h.authorized[t];
      t in s.h.oks && t in s.h.uses && s.h.uses[t].grantId == c.grantId && Says(c, s.h.uses[t].e)
      && c.grantId in s.store.grants && s.store.grants[c.grantId].ownerId == c.sub
  {
    hide After, Legal, TaskOk, UseOk, IssueOk, AnswerOk, Says;
    CallHolds(env, ls, t);
  }

  /** What a use that is about to return, or has returned to `authorizeAuthority`, is known to hold. */
  lemma Returning(env: Env, ls: seq<Step>, t: nat)
    requires Legal(env, ls) && t in After(env, ls).tasks && After(env, ls).tasks[t].UseReturning?
    ensures var s := After(env, ls); t in s.h.uses && s.h.uses[t].grantId == s.tasks[t].grantId
  {
    hide After, Legal, RecordOk, Says;
    CallHolds(env, ls, t);
  }

  lemma Returned(env: Env, ls: seq<Step>, t: nat)
    requires Legal(env, ls) && t in After(env, ls).tasks && After(env, ls).tasks[t].UseReturned?
    ensures var task := After(env, ls).tasks[t];
      task.grantId == task.verified.grantId && task.jti == task.verified.jti
  {
    hide After, Legal, RecordOk, Says;
    CallHolds(env, ls, t);
  }

  /**
   Both verifiers read one token, so what came back is what was verified: `consume_binding_mismatch` is
   never returned.
   */
  lemma BindingNeverRefuses(env: Env, ls: seq<Step>, t: nat)
    requires Legal(env, ls) && t in After(env, ls).tasks && After(env, ls).tasks[t].UseReturned?
    ensures var s := After(env, ls);
      Enabled(s, AuthorizeReturn(t)) && t in Do(env, s, AuthorizeReturn(t)).h.authorized
      && Do(env, s, AuthorizeReturn(t)).h.authorized[t] == s.tasks[t].verified
  {
    CallHolds(env, ls, t);
    BoundReturns(env, After(env, ls), t);
    hide *;
  }

  /** In whatever state: without the grant and the jti that were verified it would return nothing. */
  lemma BoundOrNothing(env: Env, s: State, t: nat)
    requires Enabled(s, AuthorizeReturn(t)) && s.tasks[t].UseReturned?
    ensures var task := s.tasks[t];
      Do(env, s, AuthorizeReturn(t)).h.authorized
        == if task.grantId == task.verified.grantId && task.jti == task.verified.jti
           then s.h.authorized[t := task.verified] else s.h.authorized
  {
    hide EffectOf, MoveLanes;
    assert EffectOf(env, s, AuthorizeReturn(t)) == OnAuthorizeReturn(s, s.tasks[t]) by {
      hide *;
      EffectIs(env, s, AuthorizeReturn(t));
    }
  }

  lemma BoundReturns(env: Env, s: State, t: nat)
    requires CallOk(env, s, t) && t in s.tasks && s.tasks[t].UseReturned?
    ensures Enabled(s, AuthorizeReturn(t)) && t in Do(env, s, AuthorizeReturn(t)).h.authorized
    ensures Do(env, s, AuthorizeReturn(t)).h.authorized[t] == s.tasks[t].verified
  {
    hide EffectOf, RecordOk, Says, MoveLanes;
    assert EffectOf(env, s, AuthorizeReturn(t)) == OnAuthorizeReturn(s, s.tasks[t]) by {
      assert Enabled(s, AuthorizeReturn(t));
      hide *;
      EffectIs(env, s, AuthorizeReturn(t));
    }
  }

  /** Conservation: the stored count is the number of successful reservations, and no count limit is ever passed. */
  lemma CountIsUses(env: Env, ls: seq<Step>, id: string)
    requires Legal(env, ls) && id in After(env, ls).store.grants
    ensures var s := After(env, ls); var g := s.store.grants[id];
      && g.usageCount == |UsesOf(s.h.uses, id)|
      && (g.usageCount > 0 ==>
        CountLimits(g.limits) && forall k :: k in g.limits ==> g.usageCount <= CountOf(g.limits, k))
  {
    hide After, Legal, Founded, UsesOf;
    GrantHolds(env, ls, id);
  }

  // ----- provenance -----

  lemma ScopeIs(g: Grant, action: string, resource: string)
    requires |g.actions| == 1 && |g.resources| == 1 && action in g.actions && resource in g.resources
    ensures GrantScope(g) == Scope(g.actor, g.audience, action, resource)
  {
  }

  predicate OwnerApproved(s: State, ownerId: string, scope: Scope, r: string)
  {
    (ownerId, r) in s.h.approvals && r in s.store.requests
    && s.store.requests[r].ownerId == ownerId && ReqScope(s.store.requests[r]) == scope
  }

  /** The policies allow the scope as the grant has it, or leave it to the owner, who approved it. */
  ghost predicate UseRuled(s: State, g: Grant, scope: Scope, m: PolicyMatch)
  {
    (m.decision == ASK_OWNER && exists r :: OwnerApproved(s, g.ownerId, scope, r))
    || ((m.decision == ALLOW || m.decision == ALLOW_WITH_LIMITS) && !m.requireStepUp
        && g.limits == m.limits && g.oneTime == m.oneTime)
  }

  lemma UseDecided(env: Env, ls: seq<Step>, t: nat)
    requires Legal(env, ls) && t in After(env, ls).h.uses
    ensures var s := After(env, ls); var use := s.h.uses[t];
      use.grantId in s.store.grants &&
      var g := s.store.grants[use.grantId];
      var scope := Scope(g.actor, g.audience, use.e.action, use.e.resource);
      && Names(use.e, ActorKey(g.actor), g.audience) && !SelfOwned(g.ownerId, g.actor)
      && UseRuled(s, g, scope, Decide(env.policies, scope))
  {
    hide After, Legal, Decide, SelfOwned, Accounted, TaskOk, IssueOk, AnswerOk, CallOk, GrantOk, Inv;
    CallHolds(env, ls, t);
    InvHolds(env, ls);
    UseStands(env, After(env, ls), t);
  }

  lemma UseStands(env: Env, s: State, t: nat)
    requires Inv(env, s) && t in s.h.uses
    ensures var use := s.h.uses[t];
      use.grantId in s.store.grants &&
      var g := s.store.grants[use.grantId];
      var scope := Scope(g.actor, g.audience, use.e.action, use.e.resource);
      && Names(use.e, ActorKey(g.actor), g.audience) && !SelfOwned(g.ownerId, g.actor)
      && UseRuled(s, g, scope, Decide(env.policies, scope))
  {
    var use := s.h.uses[t];
    assert CallOk(env, s, t) && GrantOk(env, s, use.grantId) && RequestsInv(env, s);
    hide Inv, Decide, SelfOwned, Accounted, TaskOk, IssueOk, AnswerOk;
    var g := s.store.grants[use.grantId];
    ScopeIs(g, use.e.action, use.e.resource);
    if ByOwner(s, g) {
      var r := s.h.made[g.id];
      assert RequestOk(env, s, r);
      assert OwnerApproved(s, g.ownerId, GrantScope(g), r);
    } else {
      assert !Decide(env.policies, GrantScope(g)).requireStepUp by { hide Names; StepUpConditions(); }
    }
  }

  /** Conditions that ask for step-up are never empty. */
  lemma StepUpConditions()
    ensures exists k :: k in STEP_UP && STEP_UP[k]
  {
    assert "requireStepUp" in STEP_UP;
  }

  lemma AnswersDecided(env: Env, ls: seq<Step>, t: nat)
    requires Legal(env, ls) && t in After(env, ls).h.answers
    ensures var s := After(env, ls); AnswerOk(env, s, s.h.answers[t].0, s.h.answers[t].1)
  {
    hide After, Legal, TaskOk, UseOk, IssueOk, AnswerOk;
    CallHolds(env, ls, t);
  }

  /** An application that acts for the owner it names itself after. */
  predicate ActsForItself(ownerId: string, actor: ActorRef)
  {
    actor.kind == App && (ownerId == actor.id || ownerId == "app:" + actor.id)
  }

  lemma SelfOwnedIs(ownerId: string, actor: ActorRef)
    ensures SelfOwned(ownerId, actor) <==> ActsForItself(ownerId, actor)
  {
    assert TypeName(App) + ":" + actor.id == "app:" + actor.id;
  }

  /**
   Every use is of an actor the owner is not, and of a scope that the policies allow without step-up,
   or that they leave to the owner and that very owner approved.  A scope they deny is never used.
   */
  lemma UseIsFounded(env: Env, ls: seq<Step>, t: nat)
    requires Legal(env, ls) && t in After(env, ls).h.uses
    ensures var s := After(env, ls); var use := s.h.uses[t];
      use.grantId in s.store.grants &&
      var g := s.store.grants[use.grantId];
      var scope := Scope(g.actor, g.audience, use.e.action, use.e.resource);
      && Names(use.e, ActorKey(g.actor), g.audience) && !ActsForItself(g.ownerId, g.actor)
      && exists m :: Ruled(env.policies, scope, m) && UseRuled(s, g, scope, m)
  {
    hide *;
    UseDecided(env, ls, t);
    var s := After(env, ls);
    var use := s.h.uses[t];
    var g := s.store.grants[use.grantId];
    var scope := Scope(g.actor, g.audience, use.e.action, use.e.resource);
    SelfOwnedIs(g.ownerId, g.actor);
    DecideMeans(env.policies, scope, Decide(env.policies, scope));
  }

  /** What `check` has answered: which test came first, and what the answer names. */
  ghost predicate AnswerRuled(s: State, input: CheckInput, a: Answer, m: PolicyMatch)
  {
    var short := m.requireStepUp && !input.stepUpProvided;
    if ActsForItself(input.ownerId, input.scope.actor) then a == Denied(OwnerBoundary)
    else if short then a == Denied(StepUpRequired)
    else if m.decision == DENY then a == Denied(PolicyDeny)
    else if m.decision == ASK_OWNER then
      a.Asked? && a.requestId in s.store.requests && s.store.requests[a.requestId].ownerId == input.ownerId
      && ReqScope(s.store.requests[a.requestId]) == input.scope
    else
      match a
      case Denied(reason) => reason.OverLimit?
      case Asked(_) => false
      case Allowed(id) => m.decision == ALLOW && id in s.store.grants && Covers(s.store.grants[id], input)
      case AllowedWithLimits(id, limits) =>
        m.decision == ALLOW_WITH_LIMITS && id in s.store.grants && Covers(s.store.grants[id], input)
        && s.store.grants[id].limits == limits
  }

  lemma AnswerRuledIs(env: Env, s: State, input: CheckInput, a: Answer)
    requires AnswerOk(env, s, input, a)
    ensures AnswerRuled(s, input, a, Decide(env.policies, input.scope))
  {
    hide Decide, SelfOwned, ActsForItself;
    SelfOwnedIs(input.ownerId, input.scope.actor);
  }

  /** What `check` answers is what the policies say, and the grant or request it names covers what was asked. */
  lemma AnswersAreFounded(env: Env, ls: seq<Step>, t: nat)
    requires Legal(env, ls) && t in After(env, ls).h.answers
    ensures var s := After(env, ls); var (input, a) := s.h.answers[t];
      exists m :: Ruled(env.policies, input.scope, m) && AnswerRuled(s, input, a, m)
  {
    hide *;
    AnswersDecided(env, ls, t);
    var s := After(env, ls);
    var (input, a) := s.h.answers[t];
    AnswerRuledIs(env, s, input, a);
    DecideMeans(env.policies, input.scope, Decide(env.policies, input.scope));
  }

  /**
   Every token issued stays inside its grant as the store has it, and ends with it but for the seconds
   between two clock readings.
   */
  lemma IssuedIsWithin(env: Env, ls: seq<Step>, t: nat)
    requires Legal(env, ls) && t in After(env, ls).h.issued
    ensures var s := After(env, ls); var i := s.h.issued[t];
      i.claims.grantId in s.store.grants &&
      var g := s.store.grants[i.claims.grantId];
      WithinGrant(i.claims, g) && g.validUntil.At?
      && i.claims.exp <= Seconds(g.validUntil.ms) + (Seconds(i.mintAt) - Seconds(i.readAt))
  {
    hide After, Legal, TaskOk, UseOk, AnswerOk, Seconds, WithinGrant;
    CallHolds(env, ls, t);
  }

  // ----- revocation -----

  lemma UsedWasActive(env: Env, s: State, l: Step)
    requires Enabled(s, l) && EffectOf(env, s, l).notes.used.Some?
    ensures var id := EffectOf(env, s, l).notes.used.value.grantId;
      id in s.store.grants && s.store.grants[id].status == ACTIVE
  {
    hide Decide, SelfOwned, AnswerFor, NeedsStepUp, IssueTokenFromGrant, PlanIssue, VerifyAuthorityToken, UseRefusal;
    hide Budget, Suits, FirstInLane;
  }

  /**
   A reservation that is not on record when the revocation is written is never made, whatever the calls had
   read before.
   */
  lemma {:induction false} RevokedStaysUnused(env: Env, ls: seq<Step>, k: nat, t: nat)
    requires Legal(env, ls) && k <= |ls| && t in After(env, ls).h.uses
    requires Legal(env, ls[..k]) && After(env, ls).h.uses[t].grantId in After(env, ls[..k]).h.revoked
    ensures t in After(env, ls[..k]).h.uses
    decreases |ls|
  {
    hide Enabled, Inv, Mover, EffectOf;
    if k < |ls| {
      var init := ls[..|ls| - 1];
      var s, l := After(env, init), ls[|ls| - 1];
      assert init[..k] == ls[..k];
      var id := After(env, ls).h.uses[t].grantId;
      RevokedGrows(env, init, k, id);
      InvHolds(env, init);
      if t !in s.h.uses || s.h.uses[t].grantId != id {
        UsedWasActive(env, s, l);
        GrantHolds(env, init, id);
        assert false;
      }
      RevokedStaysUnused(env, init, k, t);
    } else {
      assert ls[..k] == ls;
    }
  }

  lemma {:induction false} RevokedGrows(env: Env, ls: seq<Step>, k: nat, id: string)
    requires Legal(env, ls) && k <= |ls| && Legal(env, ls[..k]) && id in After(env, ls[..k]).h.revoked
    ensures id in After(env, ls).h.revoked
    decreases |ls|
  {
    hide Enabled, Mover, EffectOf, MoveLanes;
    if k < |ls| {
      var init := ls[..|ls| - 1];
      assert init[..k] == ls[..k];
      RevokedGrows(env, init, k, id);
    } else {
      assert ls[..k] == ls;
    }
  }

  // ----- one resolution, one grant -----

  /** Each request is resolved by one call at most, so one approve or deny returns ok for it at most. */
  lemma ResolvedByOne(env: Env, ls: seq<Step>, t: nat, u: nat)
    requires Legal(env, ls)
    requires var h := After(env, ls).h; t in h.resolutions && u in h.resolutions && h.resolutions[t] == h.resolutions[u]
    ensures t == u && After(env, ls).h.decided <= After(env, ls).h.resolutions.Keys
  {
    hide After, Legal, TaskOk, UseOk, IssueOk, AnswerOk;
    InvHolds(env, ls);
    forall v ensures v in After(env, ls).h.decided ==> v in After(env, ls).h.resolutions { CallHolds(env, ls, v); }
  }

  lemma HolderRuns(env: Env, s: State, t: nat, g: string)
    requires CallOk(env, s, t) && Holds(s, t, g)
    ensures g in s.h.made && Running(s, t, s.h.made[g])
    ensures s.h.made[g] in s.store.requests && s.store.requests[s.h.made[g]].status == PENDING
  {
    hide RecordOk, Copy;
  }

  lemma HoldersAgree(env: Env, s: State, g: string, h: string)
    requires LanesInv(s) && CallsInv(env, s) && RequestsInv(env, s)
    requires g in s.h.made && h in s.h.made && s.h.made[g] == s.h.made[h]
    requires exists t :: Holds(s, t, g)
    ensures s.h.made[g] in s.store.requests && s.store.requests[s.h.made[g]].grantId == None
    ensures (exists u :: Holds(s, u, h)) ==> g == h
  {
    hide CallOk, LanesInv;
    var r := s.h.made[g];
    var t :| Holds(s, t, g);
    HolderRuns(env, s, t, g);
    assert RequestOk(env, s, r);
    if u :| Holds(s, u, h) {
      HolderRuns(env, s, u, h);
      OneRuns(s, t, u, r);
    }
  }

  /** At most one grant is made for a request, but for grants of approvals that a failing store call cut off. */
  lemma OneGrantPerRequest(env: Env, ls: seq<Step>, g: string, h: string)
    requires Legal(env, ls)
    requires var made := After(env, ls).h.made; g in made && h in made && made[g] == made[h]
    requires g !in After(env, ls).h.orphans && h !in After(env, ls).h.orphans
    ensures g == h
  {
    hide After, Legal, LanesInv, CallsInv, RequestsInv, GrantsInv, Holds;
    var s := After(env, ls);
    InvHolds(env, ls);
    assert MadeOk(s, g) && MadeOk(s, h);
    if exists t :: Holds(s, t, g) {
      HoldersAgree(env, s, g, h);
    } else if exists u :: Holds(s, u, h) {
      HoldersAgree(env, s, h, g);
    }
  }

  /** Without failing store calls nothing is left over. */
  lemma {:induction false} NoOrphans(env: Env, ls: seq<Step>)
    requires Legal(env, ls) && forall i :: 0 <= i < |ls| ==> !ls[i].Abort?
    ensures After(env, ls).h.orphans == {}
  {
    if ls != [] {
      var init := ls[..|ls| - 1];
      NoOrphans(env, init);
      OrphanIsAborted(env, After(env, init), ls[|ls| - 1]);
      hide EffectOf, Enabled, Mover, MoveLanes;
    }
  }

  lemma OrphanIsAborted(env: Env, s: State, l: Step)
    requires Enabled(s, l) && !l.Abort?
    ensures EffectOf(env, s, l).notes.orphan == None
  {
    hide Decide, SelfOwned, AnswerFor, NeedsStepUp, IssueTokenFromGrant, PlanIssue, VerifyAuthorityToken, UseRefusal;
    hide Budget, Suits, FirstInLane, ReserveUse;
  }

  lemma LeavingFreesNext(s: State, t: nat, e: Effect, r: string)
    requires LaneOk(s, r) && LaneFits(s, t, e) && e.lane == Leave(r) && |LaneIn(s.lanes, r)| > 1
    ensures var u := LaneIn(s.lanes, r)[1]; var b := Apply(s, t, e);
      LaneIn(s.lanes, r)[0] == t && u in b.tasks && Queued(b.tasks[u]) && FirstInLane(b, u)
  {
    hide Noted;
  }

  lemma LaneMayStart(s: State, u: nat)
    ensures u in s.tasks && Queued(s.tasks[u]) && FirstInLane(s, u) ==> Enabled(s, LaneStart(u))
  {
    hide FirstInLane, Queued;
  }

  lemma DoIs(env: Env, s: State, l: Step)
    requires Enabled(s, l)
    ensures Do(env, s, l) == Apply(s, Mover(s, l), EffectOf(env, s, l))
  {
    hide EffectOf, Apply, Mover, Enabled;
  }

  /** When the running call of a lane settles, well or badly, the next one on the request may start. */
  lemma SettlingFreesNext(env: Env, ls: seq<Step>, l: Step, r: string)
    requires Legal(env, ls) && Enabled(After(env, ls), l) && EffectOf(env, After(env, ls), l).lane == Leave(r)
    requires |LaneIn(After(env, ls).lanes, r)| > 1
    ensures var s := After(env, ls); var u := LaneIn(s.lanes, r)[1]; var b := Do(env, s, l);
      LaneIn(s.lanes, r)[0] == Mover(s, l) && u in b.tasks && Enabled(b, LaneStart(u))
  {
    hide *;
    var s := After(env, ls);
    InvHolds(env, ls);
    StepLane(env, s, l, r);
    LeavingFreesNext(s, Mover(s, l), EffectOf(env, s, l), r);
    LaneMayStart(Do(env, s, l), LaneIn(s.lanes, r)[1]);
    DoIs(env, s, l);
  }

  lemma StepLane(env: Env, s: State, l: Step, r: string)
    requires Inv(env, s) && Enabled(s, l)
    ensures LaneOk(s, r) && LaneFits(s, Mover(s, l), EffectOf(env, s, l))
  {
    hide Enabled, EffectOf, LaneFits, LaneOk, Mover, CallsInv, RequestsInv, GrantsInv, MadeInv, NamesInv, OnceInv;
    hide RequestsFit, GrantsFit, NotesFit, CallOk, StoreGrows;
    StepOwes(env, s, l);
  }

  lemma Extend(env: Env, ls: seq<Step>, l: Step)
    requires Legal(env, ls) && Enabled(After(env, ls), l)
    ensures Legal(env, ls + [l]) && After(env, ls + [l]) == Do(env, After(env, ls), l)
  {
    hide Enabled, Do;
    assert (ls + [l])[..|ls + [l]| - 1] == ls;
  }
}
