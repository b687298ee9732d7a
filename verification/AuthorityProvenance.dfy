/** Who asked for what the service has done, and with which token, in every run. */
module AuthorityProvenance {
  import opened JsValues
  import opened Results
  import opened AuthorityTypes
  import opened Policy
  import opened PolicyRulings
  import opened Claims
  import opened Tokens
  import opened TokenAcceptance
  import opened Grants
  import opened StoreSteps
  import opened AuthorityMachine
  import opened AuthorityInvariant
  import opened AuthorityOrigins
  import opened AuthorityRuns

  // ----- tokens -----

  /** The one key has signed the token. */
  lemma OneKey(jwt: Jwt, key: Jwk)
    ensures Genuine(jwt, [key]) <==>
      jwt.header.kid == key.kid && jwt.signature == SignedBy(key.key, jwt.header, jwt.payload)
  {
    assert [key][0] == key;
  }

  /** What verification by the service has found out about a use. */
  lemma VerifiedMeans(env: Env, c: Claims, e: Expectation, shown: Shown)
    requires Verified(env, c, e, shown)
    ensures shown.w.body.Compact? && shown.w.lead == "" &&
      var jwt := shown.w.body.jwt;
      && jwt.header.alg == "EdDSA" && jwt.header.kid == env.key.kid
      && jwt.signature == SignedBy(env.key.key, jwt.header, jwt.payload)
      && exists full :: Accepted(jwt, full, [env.key], e.audience, shown.at, 0) && c == full.(ownerTrustId := None)
    ensures (e.actor != "" ==> c.actor == e.actor)
      && (e.action != "" ==> e.action in c.actions) && (e.resource != "" ==> e.resource in c.resources)
  {
    hide VerifyAuthorityToken, Wellformed, Seconds, ToPayload, Genuine;
    ServiceAccepts(env.skips, shown.w, e, [env.key], shown.at, 0, c);
    OneKey(shown.w.body.jwt, env.key);
  }

  /**
   Every use was made with a token that the service's own key has signed, in force when it was verified,
   of claims that name the grant used, its owner, its actor and its audience, and cover what was expected.
   */
  lemma UseIsSigned(env: Env, ls: seq<Step>, t: nat)
    requires Legal(env, ls) && t in After(env, ls).h.uses
    ensures var s := After(env, ls); var u := s.h.uses[t];
      && u.shown.w.body.Compact? && u.shown.w.lead == "" && u.grantId in s.store.grants &&
      var (jwt, g) := (u.shown.w.body.jwt, s.store.grants[u.grantId]);
      && jwt.header.alg == "EdDSA" && jwt.header.kid == env.key.kid
      && jwt.signature == SignedBy(env.key.key, jwt.header, jwt.payload)
      && (exists c :: Accepted(jwt, c, [env.key], u.e.audience, u.shown.at, 0) && u.claims == c.(ownerTrustId := None))
      && u.claims.grantId == u.grantId && u.claims.sub == g.ownerId && u.claims.actor == ActorKey(g.actor)
      && u.claims.aud == g.audience && u.claims.grantVersion == g.grantVersion
      && (u.e.actor != "" ==> u.claims.actor == u.e.actor)
      && (u.e.action != "" ==> u.e.action in u.claims.actions)
      && (u.e.resource != "" ==> u.e.resource in u.claims.resources)
  {
    hide After, Legal, Verified, Accepted, ActorKey, TaskTraced, MadeTraced, RevokedTraced, RequestTraced, AnswerTraced;
    TracedHolds(env, ls);
    assert RecordTraced(env, After(env, ls), t);
    var u := After(env, ls).h.uses[t];
    VerifiedMeans(env, u.claims, u.e, u.shown);
  }

  /** What `authorizeAuthority` has returned are the claims, but for the TrustID, of a token that key has signed. */
  lemma AuthorizedIsSigned(env: Env, ls: seq<Step>, t: nat)
    requires Legal(env, ls) && t in After(env, ls).h.authorized
    ensures var h := After(env, ls).h;
      t in h.uses && SameClaims(h.authorized[t], h.uses[t].claims) && h.uses[t].shown.w.body.Compact? &&
      var jwt := h.uses[t].shown.w.body.jwt;
      jwt.signature == SignedBy(env.key.key, jwt.header, jwt.payload)
      && exists c :: jwt.payload == ToPayload(c) && Wellformed(c) && SameClaims(h.authorized[t], c)
  {
    hide After, Legal, Verified, UseTraced, Wellformed, ToPayload;
    TracedHolds(env, ls);
    assert RecordTraced(env, After(env, ls), t);
    hide Traced, RecordTraced;
    UseIsSigned(env, ls, t);
    hide Genuine, Seconds;
  }

  // ----- callers -----

  /** What a step that begins a call says of its caller. */
  function CallerOf(l: Step): Option<Caller>
  {
    match l
    case ApproveCall(ownerId, _, oneTime, ttl) => Some(Caller(ownerId, oneTime, ttl))
    case DenyCall(ownerId, _) => Some(Caller(ownerId, None, None))
    case RevokeCall(ownerId, _) => Some(Caller(ownerId, None, None))
    case IssueCall(ownerId, _, _, _) => Some(Caller(ownerId, None, None))
    case _ => None
  }

  /** Call `t` began with step `k`. */
  ghost predicate BeganAt(env: Env, ls: seq<Step>, k: int, t: nat)
  {
    0 <= k < |ls| && Legal(env, ls[..k]) && After(env, ls[..k]).next == t
  }

  lemma CallerIsNoted(env: Env, s: State, l: Step)
    requires Enabled(s, l)
    ensures EffectOf(env, s, l).notes.caller == CallerOf(l)
  {
    hide Decide, SelfOwned, AnswerFor, NeedsStepUp, IssueTokenFromGrant, PlanIssue, VerifyAuthorityToken;
    hide VerifyAuthority, UseRefusal, Budget, Finds, FirstInLane, ReserveUse;
  }

  /** The record of callers is what the calls of the run said when they began. */
  lemma {:induction false} CallersAreAsked(env: Env, ls: seq<Step>, t: nat)
    requires Legal(env, ls) && t in After(env, ls).h.callers
    ensures exists k :: BeganAt(env, ls, k, t) && CallerOf(ls[k]) == Some(After(env, ls).h.callers[t])
  {
    hide Enabled, EffectOf, MoveLanes;
    if ls != [] {
      var init, l := ls[..|ls| - 1], ls[|ls| - 1];
      var s := After(env, init);
      CallerIsNoted(env, s, l);
      if CallerOf(l).Some? && Mover(s, l) == t {
        assert BeganAt(env, ls, |ls| - 1, t);
      } else {
        CallersAreAsked(env, init, t);
        var k :| BeganAt(env, init, k, t) && CallerOf(init[k]) == Some(After(env, init).h.callers[t]);
        assert init[..k] == ls[..k] && init[k] == ls[k];
        assert BeganAt(env, ls, k, t);
      }
    }
  }

  /** A token is issued to nobody but the owner of its grant: the one who asked is the one it says. */
  lemma IssuedToOwner(env: Env, ls: seq<Step>, t: nat)
    requires Legal(env, ls) && t in After(env, ls).h.issued
    ensures var s := After(env, ls); var c := s.h.issued[t].claims;
      t in s.h.callers && s.h.callers[t].ownerId == c.sub
      && c.grantId in s.store.grants && s.store.grants[c.grantId].ownerId == c.sub
  {
    hide After, Legal, UseTraced, TaskTraced, MadeTraced, RevokedTraced, RequestTraced, AnswerTraced;
    TracedHolds(env, ls);
    IssuedIsWithin(env, ls, t);
    assert RecordTraced(env, After(env, ls), t);
  }

  /** Whoever resolves a request, by approving or denying it, is its owner. */
  lemma ResolvedByOwner(env: Env, ls: seq<Step>, t: nat)
    requires Legal(env, ls) && t in After(env, ls).h.resolutions
    ensures var s := After(env, ls); var r := s.h.resolutions[t];
      t in s.h.callers && r in s.store.requests && s.h.callers[t].ownerId == s.store.requests[r].ownerId
  {
    hide After, Legal, UseTraced, TaskTraced, MadeTraced, RevokedTraced, RequestTraced, AnswerTraced;
    TracedHolds(env, ls);
    assert RecordTraced(env, After(env, ls), t);
  }

  /** A grant is revoked at nobody's request but its owner's. */
  lemma RevokedByOwner(env: Env, ls: seq<Step>, g: string)
    requires Legal(env, ls) && g in After(env, ls).h.revoked
    ensures var s := After(env, ls); var t := s.h.revoked[g];
      t in s.h.callers && g in s.store.grants && s.h.callers[t].ownerId == s.store.grants[g].ownerId
  {
    hide After, Legal, RecordTraced, TaskTraced, MadeTraced, RequestTraced;
    TracedHolds(env, ls);
    assert RevokedTraced(After(env, ls), g);
  }

  /**
   An approved grant is for one use and one hour unless its owner said otherwise, from the moment of the
   approval; and it is never for a payment of critical consequence that was asked for without step-up.
   */
  lemma ApprovedOnTerms(env: Env, ls: seq<Step>, id: string)
    requires Legal(env, ls) && id in After(env, ls).h.made
    ensures var s := After(env, ls);
      && id in s.store.grants && id in s.h.makers && s.h.makers[id].call in s.h.callers
      && s.h.made[id] in s.store.requests &&
      var (g, c, at, r) := (s.store.grants[id], s.h.callers[s.h.makers[id].call], s.h.makers[id].at,
                            s.store.requests[s.h.made[id]]);
      && c.ownerId == g.ownerId && g.oneTime == (c.oneTime == None || c.oneTime == Some(true)) && g.validFrom == At(at)
      && (c.ttl == None ==> g.validUntil == DateOf(at + 60 * 60 * 1000))
      && (forall ms :: c.ttl == Some(Millis(ms)) ==> g.validUntil == DateOf(at + ms))
      && (c.ttl == Some(NoDate) ==> g.validUntil == Invalid)
      && !(r.consequence == CRITICAL && r.action == "payment.approve" && !r.stepUpProvided)
  {
    hide After, Legal, RecordTraced, TaskTraced, RevokedTraced, RequestTraced, DateOf;
    TracedHolds(env, ls);
    assert MadeTraced(After(env, ls), id);
  }

  /** A request carries the consequence that the policies give its scope, which they leave to the owner. */
  lemma RequestIsRuled(env: Env, ls: seq<Step>, r: string)
    requires Legal(env, ls) && r in After(env, ls).store.requests
    ensures var req := After(env, ls).store.requests[r];
      exists m :: Ruled(env.policies, ReqScope(req), m) && m.decision == ASK_OWNER && req.consequence == m.consequence
  {
    hide After, Legal, RecordTraced, TaskTraced, MadeTraced, RevokedTraced, Decide, Inv;
    TracedHolds(env, ls);
    InvHolds(env, ls);
    var req := After(env, ls).store.requests[r];
    assert RequestTraced(env, After(env, ls), r);
    AskedByPolicy(env, After(env, ls), r);
    DecideMeans(env.policies, ReqScope(req), Decide(env.policies, ReqScope(req)));
    hide Ruled;
  }

  lemma AskedByPolicy(env: Env, s: State, r: string)
    requires Inv(env, s) && r in s.store.requests
    ensures Decide(env.policies, ReqScope(s.store.requests[r])).decision == ASK_OWNER
  {
    hide CallsInv, GrantsInv, MadeInv, NamesInv, OnceInv, Decide, SelfOwned;
    assert RequestOk(env, s, r);
  }

  /** A limit that `check` names as exceeded is reached by a grant that covers what was asked. */
  lemma OverLimitIsReached(env: Env, ls: seq<Step>, t: nat)
    requires Legal(env, ls) && t in After(env, ls).h.answers
    ensures var s := After(env, ls); var (input, a) := s.h.answers[t];
      a.Denied? && a.reason.OverLimit? ==>
        exists g, k :: g in s.store.grants && SpentFor(s.store.grants[g], k, input) && a.reason.limit == k + "_exceeded"
  {
    hide After, Legal, UseTraced, TaskTraced, MadeTraced, RevokedTraced, RequestTraced, SpentFor;
    TracedHolds(env, ls);
    assert RecordTraced(env, After(env, ls), t);
  }

  // ----- in production -----

  /** With the policies of production a use is of an application, of a bound scope, that its owner approved. */
  lemma ProductionUses(env: Env, ls: seq<Step>, t: nat)
    requires Legal(env, ls) && t in After(env, ls).h.uses && env.policies == DigiAuthorityPolicies(true)
    ensures var s := After(env, ls); var u := s.h.uses[t];
      u.grantId in s.store.grants &&
      var g := s.store.grants[u.grantId];
      var scope := Scope(g.actor, g.audience, u.e.action, u.e.resource);
      InProtocol(scope) && exists r :: OwnerApproved(s, g.ownerId, scope, r)
  {
    hide After, Legal, Ruled, InProtocol, OwnerApproved, DigiAuthorityPolicies, ActsForItself, Names;
    UseIsFounded(env, ls, t);
    var s := After(env, ls);
    var g := s.store.grants[s.h.uses[t].grantId];
    var scope := Scope(g.actor, g.audience, s.h.uses[t].e.action, s.h.uses[t].e.resource);
    var m :| Ruled(env.policies, scope, m) && UseRuled(s, g, scope, m);
    ProductionRules(scope, m);
  }

  /** And `check` allows nothing, asks for bound scopes only, and denies every other. */
  lemma ProductionAnswers(env: Env, ls: seq<Step>, t: nat)
    requires Legal(env, ls) && t in After(env, ls).h.answers && env.policies == DigiAuthorityPolicies(true)
    ensures var (input, a) := After(env, ls).h.answers[t];
      if ActsForItself(input.ownerId, input.scope.actor) then a == Denied(OwnerBoundary)
      else if InProtocol(input.scope) then a.Asked?
      else a == Denied(PolicyDeny)
  {
    hide After, Legal, Ruled, InProtocol, DigiAuthorityPolicies, ActsForItself, Covers;
    AnswersAreFounded(env, ls, t);
    var s := After(env, ls);
    var (input, a) := s.h.answers[t];
    var m :| Ruled(env.policies, input.scope, m) && AnswerRuled(s, input, a, m);
    ProductionRules(input.scope, m);
  }
}
