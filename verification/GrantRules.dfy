/**
 What the checks of packages/digi-authority/src/service.ts that read one copy of a grant let through, and
 the tokens it issues, said of the grant, the claims and the clock.
 */
module GrantRules {
  import opened JsValues
  import opened Results
  import opened AuthorityTypes
  import opened Policy
  import opened Claims
  import opened Tokens
  import opened TokenAcceptance
  import opened Grants

  predicate Live(g: Grant, now: int)
  {
    g.status == ACTIVE && g.validFrom.At? && g.validUntil.At? && g.validFrom.ms <= now && now < g.validUntil.ms
  }

  lemma LiveIs(g: Grant, now: int)
    ensures GrantIsLive(g, now) <==> Live(g, now)
  {
  }

  // ----- limits -----

  predicate CountsUses(k: string)
  {
    k == "maxPosts" || k == "maxMessages" || k == "maxDeployments"
  }

  /** A count limit with this name has been reached. */
  predicate Spent(limits: Limits, k: string, usageCount: nat)
  {
    k in limits && limits[k].Count? && Int(usageCount).AtLeast(limits[k].n)
  }

  /** And no count limit that comes before it has been. */
  predicate FirstSpent(limits: Limits, k: string, usageCount: nat)
  {
    && Spent(limits, k, usageCount)
    && (k != "maxPosts" ==> !Spent(limits, "maxPosts", usageCount))
    && (k == "maxDeployments" ==> !Spent(limits, "maxMessages", usageCount))
  }

  /** The early test refuses exactly when some limit is reached, and names the first that is. */
  lemma ExceededMeans(limits: Limits, usageCount: nat)
    ensures LimitExceeded(limits, usageCount).None? <==> forall k :: CountsUses(k) ==> !Spent(limits, k, usageCount)
    ensures LimitExceeded(limits, usageCount).Some? ==>
      exists k :: CountsUses(k) && FirstSpent(limits, k, usageCount)
        && LimitExceeded(limits, usageCount).value == k + "_exceeded"
  {
    forall k ensures Reached(limits, k, usageCount) <==> Spent(limits, k, usageCount) {
    }
    assert "maxPosts" + "_exceeded" == "maxPosts_exceeded";
    assert "maxMessages" + "_exceeded" == "maxMessages_exceeded";
    assert "maxDeployments" + "_exceeded" == "maxDeployments_exceeded";
    hide Reached, Spent;
    assert CountsUses("maxPosts") && CountsUses("maxMessages") && CountsUses("maxDeployments");
  }

  /** Every limit is a whole count of uses, and there are fewer. */
  ghost predicate HasBudget(limits: Limits, usageCount: nat)
  {
    forall k :: k in limits ==>
      CountsUses(k) && exists n: nat :: limits[k] == Count(Int(n)) && n <= MAX_SAFE && usageCount < n
  }

  predicate WholeLimit(l: Limit)
  {
    l.Count? && l.n.IsSafeInteger() && l.n.r >= 0.0
  }

  lemma WholeCount(l: Limit, usageCount: nat)
    ensures WholeLimit(l) && !Int(usageCount).AtLeast(l.n) <==>
      exists n: nat :: l == Count(Int(n)) && n <= MAX_SAFE && usageCount < n
  {
    if WholeLimit(l) && !Int(usageCount).AtLeast(l.n) {
      var n: nat := l.n.r.Floor;
      assert l == Count(Int(n)) && n <= MAX_SAFE && usageCount < n;
    }
  }

  lemma BudgetIs(limits: Limits, usageCount: nat)
    ensures CountLimits(limits) && LimitExceeded(limits, usageCount).None? <==> HasBudget(limits, usageCount)
  {
    ExceededMeans(limits, usageCount);
    forall k | k in limits
      ensures k in COUNT_KEYS <==> CountsUses(k)
      ensures WholeLimit(limits[k]) && !Spent(limits, k, usageCount) <==>
        exists n: nat :: limits[k] == Count(Int(n)) && n <= MAX_SAFE && usageCount < n
    {
      WholeCount(limits[k], usageCount);
    }
    hide LimitExceeded, CountsUses;
  }

  // ----- useToken -----

  /** The grant as it must be for a token with these claims to be used as expected. */
  ghost predicate MayUse(g: Grant, c: Claims, e: Expectation, now: int)
  {
    && Live(g, now)
    && g.grantVersion == c.grantVersion && g.ownerId == c.sub && ActorKey(g.actor) == c.actor && g.audience == c.aud
    && e.action in g.actions && e.resource in g.resources
    && (g.approvalMode == ALLOW || g.approvalMode == ALLOW_WITH_LIMITS)
    && (forall k :: k in g.conditions ==> !g.conditions[k])
    && (g.parentGrantId == None || g.parentGrantId == Some(""))
    && HasBudget(g.limits, g.usageCount)
  }

  /** `useToken` goes on from a copy of the grant exactly if it may be used. */
  lemma RefusalMeans(found: Option<Grant>, c: Claims, e: Expectation, now: int)
    ensures UseRefusal(found, c, e, now).None? <==> found.Some? && MayUse(found.value, c, e, now)
  {
    if found.Some? {
      LiveIs(found.value, now);
      BudgetIs(found.value.limits, found.value.usageCount);
    }
    hide GrantIsLive, Live, LimitExceeded, HasBudget, ActorKey;
  }

  /** A count limit that is no whole number, and a limit that counts no uses. */
  predicate BadCount(limits: Limits)
  {
    exists k :: k in limits && !WholeLimit(limits[k])
  }

  predicate ForeignLimit(limits: Limits)
  {
    exists k :: k in limits && !CountsUses(k)
  }

  predicate BoundTo(g: Grant, c: Claims, e: Expectation)
  {
    g.ownerId == c.sub && ActorKey(g.actor) == c.actor && g.audience == c.aud
    && e.action in g.actions && e.resource in g.resources
  }

  /** Where a grant fails first: every reason implies that nothing before it in this list applies. */
  ghost predicate Fault(r: Refusal, g: Grant, c: Claims, e: Expectation, now: int)
  {
    match r
    case Revoked => g.status == REVOKED
    case Replay => g.status == CONSUMED
    case GrantNotActive => !Live(g, now)
    case GrantVersionMismatch => g.grantVersion != c.grantVersion
    case GrantBindingMismatch => !BoundTo(g, c, e)
    case GrantNotApproved => g.approvalMode == DENY || g.approvalMode == ASK_OWNER
    case UnsupportedConditions => exists k :: k in g.conditions && g.conditions[k]
    case DelegationChainUnsupported => g.parentGrantId.Some? && g.parentGrantId != Some("")
    case UnsupportedLimits => ForeignLimit(g.limits)
    case InvalidLimits => BadCount(g.limits)
    case LimitReached(l) => exists k :: CountsUses(k) && FirstSpent(g.limits, k, g.usageCount) && l == k + "_exceeded"
  }

  function Rank(r: Refusal): nat
  {
    match r
    case Revoked => 0
    case Replay => 1
    case GrantNotActive => 2
    case GrantVersionMismatch => 3
    case GrantBindingMismatch => 4
    case GrantNotApproved => 5
    case UnsupportedConditions => 6
    case DelegationChainUnsupported => 7
    case UnsupportedLimits => 8
    case InvalidLimits => 9
    case LimitReached(_) => 10
  }

  /** The reason `useToken` gives is a fault of the grant, and the first there is; a grant that is gone is revoked. */
  lemma RefusalIsFirst(found: Option<Grant>, c: Claims, e: Expectation, now: int)
    ensures found == None ==> UseRefusal(found, c, e, now) == Some(Revoked)
    ensures found.Some? && UseRefusal(found, c, e, now).Some? ==>
      var r := UseRefusal(found, c, e, now).value;
      Fault(r, found.value, c, e, now) && forall q :: Rank(q) < Rank(r) ==> !Fault(q, found.value, c, e, now)
  {
    if found.Some? {
      LiveIs(found.value, now);
      ExceededMeans(found.value.limits, found.value.usageCount);
      LimitsSplit(found.value.limits);
    }
    hide GrantIsLive, Live, LimitExceeded, ActorKey, CountsUses, Spent, FirstSpent, WholeLimit;
  }

  lemma LimitsSplit(limits: Limits)
    ensures ForeignLimit(limits) <==> exists k :: k in limits && k !in COUNT_KEYS
    ensures !ForeignLimit(limits) ==> (BadCount(limits) <==> !CountLimits(limits))
  {
    assert forall k :: CountsUses(k) <==> k in COUNT_KEYS;
    hide CountsUses;
  }

  // ----- issueToken -----

  /** What the caller may narrow a token to. */
  ghost predicate MayIssue(g: Grant, ownerId: string, plan: IssuePlan, tokenTtl: Number, now: int)
  {
    && g.ownerId == ownerId && Live(g, now) && Seconds(g.validUntil.ms) > Seconds(now)
    && plan.actions != [] && (forall a :: a in plan.actions ==> a in g.actions)
    && plan.resources != [] && (forall r :: r in plan.resources ==> r in g.resources)
    && (plan.ttl.Some? ==> (exists n: nat :: n > 0 && plan.ttl == Some(Int(n))) && !plan.ttl.value.Greater(tokenTtl))
    && forall k :: CountsUses(k) ==> !Spent(g.limits, k, g.usageCount)
  }

  /** The scope and lifetime asked for; what is left out is the grant's. */
  function Wanted(g: Grant, narrow: Narrow): IssuePlan
  {
    IssuePlan(if narrow.actions.Some? then narrow.actions.value else g.actions,
              if narrow.resources.Some? then narrow.resources.value else g.resources, narrow.ttlSeconds)
  }

  lemma TtlIs(ttl: Option<Number>, tokenTtl: Number)
    ensures TtlAccepted(ttl, tokenTtl) <==>
      ttl.Some? ==> (exists n: nat :: n > 0 && ttl == Some(Int(n))) && !ttl.value.Greater(tokenTtl)
  {
    if TtlAccepted(ttl, tokenTtl) && ttl.Some? {
      assert ttl == Some(Int(ttl.value.r.Floor));
    }
  }

  /** `issueToken` plans exactly what the owner asked for, exactly when the grant allows it. */
  lemma PlanMeans(found: Option<Grant>, ownerId: string, narrow: Narrow, tokenTtl: Number, now: int, plan: IssuePlan)
    ensures PlanIssue(found, ownerId, narrow, tokenTtl, now) == Go(plan) <==>
      found.Some? && plan == Wanted(found.value, narrow) && MayIssue(found.value, ownerId, plan, tokenTtl, now)
  {
    TtlIs(narrow.ttlSeconds, tokenTtl);
    if found.Some? {
      LiveIs(found.value, now);
      ExceededMeans(found.value.limits, found.value.usageCount);
    }
    hide GrantIsLive, LimitExceeded, TtlAccepted, CountsUses, Spent, Seconds;
  }

  /** Why a token is not issued to its owner, as `Fault` is why one is not used. */
  ghost predicate IssueFault(r: IssueRefusal, g: Grant, ownerId: string, plan: IssuePlan, tokenTtl: Number, now: int)
  {
    match r
    case NotFound => g.ownerId != ownerId
    case GrantRevoked => g.status == REVOKED
    case NotActive => !Live(g, now)
    case EmptyScope => plan.actions == [] || plan.resources == []
    case TtlEscalation =>
      plan.ttl.Some? && ((forall n: nat :: n > 0 ==> plan.ttl != Some(Int(n))) || plan.ttl.value.Greater(tokenTtl))
    case GrantExpired => g.validUntil.At? && Seconds(g.validUntil.ms) <= Seconds(now)
    case ActionNotInGrant => exists a :: a in plan.actions && a !in g.actions
    case ResourceNotInGrant => exists a :: a in plan.resources && a !in g.resources
    case Exceeded(l) => exists k :: CountsUses(k) && FirstSpent(g.limits, k, g.usageCount) && l == k + "_exceeded"
  }

  function IssueRank(r: IssueRefusal): nat
  {
    match r
    case NotFound => 0
    case GrantRevoked => 1
    case NotActive => 2
    case EmptyScope => 3
    case TtlEscalation => 4
    case GrantExpired => 5
    case ActionNotInGrant => 6
    case ResourceNotInGrant => 7
    case Exceeded(_) => 8
  }

  /** And the reason `issueToken` gives is the first there is. */
  lemma IssueRefusalIsFirst(found: Option<Grant>, ownerId: string, narrow: Narrow, tokenTtl: Number, now: int)
    ensures found == None ==> PlanIssue(found, ownerId, narrow, tokenTtl, now) == Refused(NotFound)
    ensures found.Some? && PlanIssue(found, ownerId, narrow, tokenTtl, now).Refused? ==>
      var (r, plan) := (PlanIssue(found, ownerId, narrow, tokenTtl, now).reason, Wanted(found.value, narrow));
      IssueFault(r, found.value, ownerId, plan, tokenTtl, now)
      && forall q :: IssueRank(q) < IssueRank(r) ==> !IssueFault(q, found.value, ownerId, plan, tokenTtl, now)
  {
    TtlIs(narrow.ttlSeconds, tokenTtl);
    if found.Some? {
      LiveIs(found.value, now);
      ExceededMeans(found.value.limits, found.value.usageCount);
    }
    hide GrantIsLive, LimitExceeded, TtlAccepted, CountsUses, Spent, FirstSpent, Seconds;
  }

  // ----- the token -----

  /** The least of what is wanted, 300 seconds, and what is left of the grant. */
  predicate Lasts(lasts: int, wanted: Number, left: int)
  {
    lasts <= 300 && lasts <= left && !wanted.NaN? && !Int(lasts).Greater(wanted)
    && (lasts == 300 || lasts == left || wanted == Int(lasts))
  }

  function IssuedClaims(g: Grant, actions: seq<string>, resources: seq<string>, m: Minting, lasts: int): Claims
  {
    Claims(DIGI_AUTHORITY_ISSUER, g.ownerId, g.audience, ActorKey(g.actor), actions, resources, g.limits,
           g.approvalMode, g.id, g.grantVersion, g.oneTime, m.jti,
           Seconds(m.mintAt), Seconds(m.mintAt), Seconds(m.mintAt) + lasts,
           if m.ownerTrustId == Some("") then None else m.ownerTrustId)
  }

  lemma LeastIs(wanted: Number, left: int, lasts: int)
    requires Lasts(lasts, wanted, left)
    ensures Min(Min(wanted, Int(300)), Int(left)) == Int(lasts)
  {
  }

  function IssueInput(g: Grant, actions: seq<string>, resources: seq<string>, m: Minting, lasts: int): MintInput
  {
    MintInput(g.ownerId, g.audience, ActorKey(g.actor), actions, resources, g.limits, g.approvalMode, g.id,
              g.grantVersion, g.oneTime, m.jti, Int(lasts), m.mintAt, 0, m.ownerTrustId)
  }

  lemma IssueIsMint(
      key: Jwk, tokenTtl: Number, g: Grant, actions: seq<string>, resources: seq<string>, ttl: Option<Number>,
      m: Minting, lasts: int)
    requires g.validUntil.At?
    requires Lasts(lasts, if ttl.Some? then ttl.value else tokenTtl, Seconds(g.validUntil.ms) - Seconds(m.readAt))
    ensures IssueTokenFromGrant(key, tokenTtl, g, actions, resources, ttl, m)
         == MintAuthorityToken(key, IssueInput(g, actions, resources, m, lasts))
  {
    hide MintAuthorityToken, Min, Int, Seconds, ActorKey, Lasts;
    LeastIs(if ttl.Some? then ttl.value else tokenTtl, Seconds(g.validUntil.ms) - Seconds(m.readAt), lasts);
  }

  /** A token lasts as long as it is wanted to, but neither past 300 seconds nor past its grant. */
  lemma IssueMeans(
      key: Jwk, tokenTtl: Number, g: Grant, actions: seq<string>, resources: seq<string>, ttl: Option<Number>,
      m: Minting, lasts: int)
    requires g.validUntil.At?
    requires Lasts(lasts, if ttl.Some? then ttl.value else tokenTtl, Seconds(g.validUntil.ms) - Seconds(m.readAt))
    ensures var r := IssueTokenFromGrant(key, tokenTtl, g, actions, resources, ttl, m);
      var c := IssuedClaims(g, actions, resources, m, lasts);
      if lasts >= 1 && Wellformed(c) then r.Ok? && r.value.1 == c else r.Err?
  {
    IssueIsMint(key, tokenTtl, g, actions, resources, ttl, m, lasts);
    var input := IssueInput(g, actions, resources, m, lasts);
    MintMeans(key, input, lasts);
    assert MintedClaims(input, lasts) == IssuedClaims(g, actions, resources, m, lasts);
    hide *;
  }
}
