/** The checks of packages/digi-authority/src/service.ts that read one copy of a grant, and token issue. */
module Grants {
  import opened JsValues
  import opened Results
  import opened AuthorityTypes
  import opened Policy
  import opened Claims
  import opened Tokens

  predicate GrantIsLive(g: Grant, now: int)
  {
    g.status == ACTIVE && g.validFrom.At? && g.validUntil.At? && g.validFrom.ms <= now < g.validUntil.ms
  }

  // ----- usable limits -----

  const COUNT_KEYS: set<string> := {"maxPosts", "maxMessages", "maxDeployments"}

  /** Neither `unsupported_limits` nor `invalid_limits`. */
  predicate CountLimits(limits: Limits)
  {
    forall k :: k in limits ==>
      k in COUNT_KEYS && limits[k].Count? && limits[k].n.IsSafeInteger() && limits[k].n.r >= 0.0
  }

  function CountOf(limits: Limits, k: string): nat
    requires CountLimits(limits) && k in limits
  {
    limits[k].n.r.Floor
  }

  function Lesser(a: Option<nat>, b: Option<nat>): Option<nat>
  {
    if a.None? then b else if b.None? then a else if a.value <= b.value then a else b
  }

  function CountAt(limits: Limits, k: string): Option<nat>
    requires CountLimits(limits)
  {
    if k in limits then Some(CountOf(limits, k)) else None
  }

  /** `counts.length ? Math.min(...counts) : null`. */
  function LeastCount(limits: Limits): (m: Option<nat>)
    requires CountLimits(limits)
    ensures m.None? <==> limits == map[]
    ensures m.Some? ==> exists k :: k in limits && CountOf(limits, k) == m.value
    ensures forall k :: k in limits ==> m.Some? && m.value <= CountOf(limits, k)
  {
    var m :=
      Lesser(CountAt(limits, "maxPosts"), Lesser(CountAt(limits, "maxMessages"), CountAt(limits, "maxDeployments")));
    assert forall k :: k in limits ==> k == "maxPosts" || k == "maxMessages" || k == "maxDeployments";
    m
  }

  /** For such limits the early test and the atomic one ask the same question of the usage they see. */
  lemma LimitsAreOneBudget(limits: Limits, usageCount: nat)
    requires CountLimits(limits)
    ensures LimitExceeded(limits, usageCount).Some?
      <==> LeastCount(limits).Some? && usageCount >= LeastCount(limits).value
  {
    forall k | k in limits ensures Reached(limits, k, usageCount) <==> usageCount >= CountOf(limits, k) {
    }
    if LeastCount(limits).Some? && usageCount >= LeastCount(limits).value {
      var k :| k in limits && CountOf(limits, k) == LeastCount(limits).value;
      assert Reached(limits, k, usageCount);
    }
  }

  // ----- useToken up to the atomic steps -----

  predicate Bound(g: Grant, c: Claims, e: Expectation)
  {
    g.ownerId == c.sub && ActorKey(g.actor) == c.actor && g.audience == c.aud
    && e.action in g.actions && e.resource in g.resources
  }

  /** The reasons `useToken` refuses for, by name. */
  datatype Refusal =
    | Revoked | Replay | GrantNotActive | GrantVersionMismatch | GrantBindingMismatch | GrantNotApproved
    | UnsupportedConditions | DelegationChainUnsupported | UnsupportedLimits | InvalidLimits
    | LimitReached(limit: string)

  /** The refusals that need only a copy of the grant, in the order of the code. */
  function UseRefusal(found: Option<Grant>, c: Claims, e: Expectation, now: int): Option<Refusal>
  {
    if found.None? || found.value.status == REVOKED then Some(Revoked)
    else
      var g := found.value;
      if g.status == CONSUMED then Some(Replay)
      else if !GrantIsLive(g, now) then Some(GrantNotActive)
      else if g.grantVersion != c.grantVersion then Some(GrantVersionMismatch)
      else if !Bound(g, c, e) then Some(GrantBindingMismatch)
      else if g.approvalMode != ALLOW && g.approvalMode != ALLOW_WITH_LIMITS then Some(GrantNotApproved)
      else if exists k :: k in g.conditions && g.conditions[k] then Some(UnsupportedConditions)
      else if g.parentGrantId.Some? && g.parentGrantId.value != "" then Some(DelegationChainUnsupported)
      else if exists k :: k in g.limits && k !in COUNT_KEYS then Some(UnsupportedLimits)
      else if !CountLimits(g.limits) then Some(InvalidLimits)
      else
        match LimitExceeded(g.limits, g.usageCount)
        case Some(reason) => Some(LimitReached(reason))
        case None => None
  }

  // ----- issuing -----

  datatype Narrow = Narrow(actions: Option<seq<string>>, resources: Option<seq<string>>, ttlSeconds: Option<Number>)

  function Min(a: Number, b: Number): Number
  {
    if a.NaN? || b.NaN? then NaN else if a.Greater(b) then b else a
  }

  function RemainingSeconds(g: Grant, now: int): Number
  {
    if g.validUntil.At? then Int(Seconds(g.validUntil.ms) - Seconds(now)) else NaN
  }

  /** The readings of the clock and the fresh identifier of one issue. */
  datatype Minting = Minting(jti: string, ownerTrustId: Option<string>, readAt: int, mintAt: int)

  function IssueTokenFromGrant(
      key: Jwk, tokenTtl: Number, g: Grant, actions: seq<string>, resources: seq<string>, ttl: Option<Number>,
      m: Minting)
    : Result<(Wire, Claims)>
  {
    var wanted := if ttl.Some? then ttl.value else tokenTtl;
    MintAuthorityToken(key, MintInput(
      g.ownerId, g.audience, ActorKey(g.actor), actions, resources, g.limits,
      g.approvalMode, g.id, g.grantVersion, g.oneTime, m.jti,
      Min(Min(wanted, Int(TOKEN_TTL_SECONDS)), RemainingSeconds(g, m.readAt)), m.mintAt, 0, m.ownerTrustId))
  }

  datatype IssuePlan = IssuePlan(actions: seq<string>, resources: seq<string>, ttl: Option<Number>)

  /** The reasons `issueToken` refuses for, by name. */
  datatype IssueRefusal =
    | NotFound | GrantRevoked | NotActive | EmptyScope | TtlEscalation | GrantExpired | ActionNotInGrant
    | ResourceNotInGrant
    | Exceeded(limit: string)

  datatype Planned = Refused(reason: IssueRefusal) | Go(plan: IssuePlan)

  predicate TtlAccepted(ttl: Option<Number>, tokenTtl: Number)
  {
    ttl.Some? ==>
      ttl.value.Fin? && ttl.value.r == ttl.value.r.Floor as real && ttl.value.r > 0.0 && !ttl.value.Greater(tokenTtl)
  }

  /** `issueToken` up to the minting. */
  function PlanIssue(found: Option<Grant>, ownerId: string, narrow: Narrow, tokenTtl: Number, now: int): Planned
  {
    if found.None? || found.value.ownerId != ownerId then Refused(NotFound)
    else
      var g := found.value;
      if !GrantIsLive(g, now) then Refused(if g.status == REVOKED then GrantRevoked else NotActive)
      else
        var actions := if narrow.actions.Some? then narrow.actions.value else g.actions;
        var resources := if narrow.resources.Some? then narrow.resources.value else g.resources;
        if actions == [] || resources == [] then Refused(EmptyScope)
        else if !TtlAccepted(narrow.ttlSeconds, tokenTtl) then Refused(TtlEscalation)
        else if Seconds(g.validUntil.ms) <= Seconds(now) then Refused(GrantExpired)
        else if exists a :: a in actions && a !in g.actions then Refused(ActionNotInGrant)
        else if exists r :: r in resources && r !in g.resources then Refused(ResourceNotInGrant)
        else
          match LimitExceeded(g.limits, g.usageCount)
          case Some(reason) => Refused(Exceeded(reason))
          case None => Go(IssuePlan(actions, resources, narrow.ttlSeconds))
  }

  /** A token stays inside the grant it was cut from. */
  predicate WithinGrant(c: Claims, g: Grant)
  {
    && c.grantId == g.id && c.grantVersion == g.grantVersion && c.sub == g.ownerId && c.actor == ActorKey(g.actor)
    && c.aud == g.audience && c.limits == g.limits && c.approval == g.approvalMode && c.oneTime == g.oneTime
    && (forall a :: a in c.actions ==> a in g.actions) && (forall r :: r in c.resources ==> r in g.resources)
    && c.actions != [] && c.resources != []
    && c.nbf == c.iat && 0 < c.exp - c.iat <= TOKEN_TTL_SECONDS
  }

  lemma IssuedWithinGrant(
      key: Jwk, tokenTtl: Number, g: Grant, actions: seq<string>, resources: seq<string>, ttl: Option<Number>,
      m: Minting)
    requires IssueTokenFromGrant(key, tokenTtl, g, actions, resources, ttl, m).Ok?
    requires (forall a :: a in actions ==> a in g.actions) && (forall r :: r in resources ==> r in g.resources)
    ensures var c := IssueTokenFromGrant(key, tokenTtl, g, actions, resources, ttl, m).value.1;
      && WithinGrant(c, g) && c.jti == m.jti && c.iat == Seconds(m.mintAt)
      && c.actions == actions && c.resources == resources
      && g.validUntil.At?
      && c.exp <= Seconds(g.validUntil.ms) + (Seconds(m.mintAt) - Seconds(m.readAt))
  {
    var c := IssueTokenFromGrant(key, tokenTtl, g, actions, resources, ttl, m).value.1;
    PayloadKeepsClaims(c);
    assert |Strings(c.actions)| > 0 && |Strings(c.resources)| > 0;
    hide IsAuthorityClaimsShape, ToPayload, FromPayload;
  }

  /** The text that is issued carries the claims it was made of. */
  lemma IssuedCarries(
    key: Jwk, tokenTtl: Number, g: Grant, actions: seq<string>, resources: seq<string>, ttl: Option<Number>, m: Minting)
    requires IssueTokenFromGrant(key, tokenTtl, g, actions, resources, ttl, m).Ok?
    ensures var (w, c) := IssueTokenFromGrant(key, tokenTtl, g, actions, resources, ttl, m).value; Carries(w, c)
  {
    var (w, c) := IssueTokenFromGrant(key, tokenTtl, g, actions, resources, ttl, m).value;
    PayloadKeepsClaims(c);
    hide IsAuthorityClaimsShape, ToPayload, FromPayload;
  }

  /** Both readings in one second: the token ends no later than the grant, to the second. */
  lemma IssuedEndsWithGrant(
      key: Jwk, tokenTtl: Number, g: Grant, actions: seq<string>, resources: seq<string>, ttl: Option<Number>,
      m: Minting)
    requires IssueTokenFromGrant(key, tokenTtl, g, actions, resources, ttl, m).Ok?
    requires (forall a :: a in actions ==> a in g.actions) && (forall r :: r in resources ==> r in g.resources)
    requires Seconds(m.mintAt) == Seconds(m.readAt)
    ensures g.validUntil.At?
    ensures IssueTokenFromGrant(key, tokenTtl, g, actions, resources, ttl, m).value.1.exp * 1000 <= g.validUntil.ms
  {
    IssuedWithinGrant(key, tokenTtl, g, actions, resources, ttl, m);
    hide IssueTokenFromGrant;
  }
}
