/** packages/digi-authority/src/policy.ts. */
module Policy {
  import opened JsValues
  import opened Results
  import opened AuthorityTypes

  // ----- the DDI resource grammar -----

  const FAMILIES: seq<string> :=
    ["identity", "communication", "data", "jobs", "distribution", "value", "intelligence"]

  predicate IsLetter(c: char)
  {
    'A' <= c <= 'Z' || 'a' <= c <= 'z'
  }

  predicate IsName(s: string)
  {
    s != [] && IsLetter(s[0]) && forall i :: 0 <= i < |s| ==> IsLetter(s[i]) || '0' <= s[i] <= '9' || s[i] == '_'
  }

  /** `DDI_PDI_CAPABILITY.test(action)`. */
  predicate IsCapability(action: string)
  {
    exists k :: 0 <= k < |FAMILIES| && FAMILIES[k] + "." <= action && IsName(action[|FAMILIES[k]| + 1..])
  }

  predicate EndsWith(s: string, suffix: string)
  {
    |suffix| <= |s| && s[|s| - |suffix|..] == suffix
  }

  /** `s.slice(from, to)` for bounds that are not negative. */
  function Slice(s: string, from: nat, to: nat): string
    requires to <= |s|
  {
    if from < to then s[from..to] else ""
  }

  const PREFIX := "ddi:pdi:"

  function DdiPdiCapabilityBinding(action: string, resource: string): bool
  {
    if !IsCapability(action) then false
    else
      var suffix := ":" + action;
      if !(PREFIX <= resource) || !EndsWith(resource, suffix) then false
      else
        var infrastructureId := Slice(resource, |PREFIX|, |resource| - |suffix|);
        |infrastructureId| > 0 && infrastructureId[0] != ':' && infrastructureId[|infrastructureId| - 1] != ':'
  }

  predicate IsInfrastructureId(id: string)
  {
    id != "" && id[0] != ':' && id[|id| - 1] != ':'
  }

  function DdiResource(id: string, action: string): string
  {
    PREFIX + id + ":" + action
  }

  /** The test accepts exactly what the printer writes, even where prefix and suffix could overlap. */
  lemma BindingIsGrammar(action: string, resource: string)
    ensures DdiPdiCapabilityBinding(action, resource) <==>
      IsCapability(action) && exists id :: IsInfrastructureId(id) && resource == DdiResource(id, action)
  {
    hide IsCapability;
    var suffix := ":" + action;
    if DdiPdiCapabilityBinding(action, resource) {
      var id := resource[|PREFIX|..|resource| - |suffix|];
      assert IsInfrastructureId(id);
      assert resource == resource[..|PREFIX|] + id + resource[|resource| - |suffix|..];
      assert resource == DdiResource(id, action);
    }
    if IsCapability(action) && exists id :: IsInfrastructureId(id) && resource == DdiResource(id, action) {
      var id :| IsInfrastructureId(id) && resource == DdiResource(id, action);
      assert resource == PREFIX + id + suffix;
      assert resource[|resource| - |suffix|..] == suffix;
      assert resource[|PREFIX|..|resource| - |suffix|] == id;
    }
  }

  predicate NoColon(s: string)
  {
    forall i :: 0 <= i < |s| ==> s[i] != ':'
  }

  lemma NoColonInFamily(k: nat)
    requires k < |FAMILIES|
    ensures NoColon(FAMILIES[k])
  {
    assert NoColon("identity") && NoColon("communication") && NoColon("data");
    assert NoColon("jobs") && NoColon("distribution") && NoColon("value") && NoColon("intelligence");
    hide NoColon;
  }

  /** A family, a dot and a name. */
  lemma NoColonAfter(head: string, action: string, i: nat)
    requires NoColon(head) && head + "." <= action && IsName(action[|head| + 1..]) && i < |action|
    ensures action[i] != ':'
  {
    if i < |head| {
      assert action[i] == head[i];
    } else if i > |head| {
      assert action[|head| + 1..][i - |head| - 1] == action[i];
    }
  }

  lemma NoColonInCapability(action: string, i: nat)
    requires IsCapability(action) && i < |action|
    ensures action[i] != ':'
  {
    hide NoColon, IsName;
    var k :| 0 <= k < |FAMILIES| && FAMILIES[k] + "." <= action && IsName(action[|FAMILIES[k]| + 1..]);
    NoColonInFamily(k);
    NoColonAfter(FAMILIES[k], action, i);
  }

  /** Of two capabilities after the last colon of one text, neither can be the longer one. */
  lemma SuffixNotLonger(head: string, a: string, r: string, b: string)
    requires IsCapability(b) && r == head + (":" + a) && |b| <= |r| && r[|r| - |b|..] == b
    ensures |b| <= |a|
  {
    hide IsCapability;
    if |a| < |b| {
      var i := |b| - |a| - 1;
      assert r[|head|] == ':' && b[i] == r[|head|];
      NoColonInCapability(b, i);
    }
  }

  /** One resource binds one identifier and one action, whatever colons the identifier holds. */
  lemma BindingIsUnique(a: string, b: string, x: string, y: string)
    requires IsCapability(a) && IsCapability(b) && DdiResource(x, a) == DdiResource(y, b)
    ensures a == b && x == y
  {
    hide IsCapability;
    var r := DdiResource(x, a);
    var p, q := PREFIX + x, PREFIX + y;
    assert r == p + (":" + a) && r == q + (":" + b);
    assert r[|r| - |a|..] == a && r[|r| - |b|..] == b;
    SuffixNotLonger(p, a, r, b);
    SuffixNotLonger(q, b, r, a);
    assert p == r[..|r| - |a| - 1] == q;
    assert x == p[|PREFIX|..] && y == q[|PREFIX|..];
  }

  // ----- policies -----

  datatype Rule = Rule(
    actions: seq<string>,
    resources: Option<seq<string>>,
    ddiBinding: bool,
    decision: ApprovalMode,
    limits: Limits,
    consequence: Option<Consequence>,
    requireStepUp: bool,
    oneTime: bool)

  datatype ActorPolicy = ActorPolicy(
    actorType: ActorType,
    actorId: string,
    audience: string,
    rules: seq<Rule>,
    defaultDecision: ApprovalMode)

  datatype PolicyMatch = PolicyMatch(
    decision: ApprovalMode,
    limits: Limits,
    consequence: Consequence,
    requireStepUp: bool,
    oneTime: bool)

  datatype Scope = Scope(actor: ActorRef, audience: string, action: string, resource: string)

  predicate Contains(s: string, t: string)
  {
    t <= s || (s != [] && Contains(s[1..], t))
  }

  function ConsequenceForAction(action: string): Consequence
  {
    if "payment." <= action
       || action in ["ownership.transfer", "security.change", "device.revoke", "authority.delegate"] then CRITICAL
    else if Contains(action, ".publish") || Contains(action, ".live.") then HIGH
    else if Contains(action, ".send") || Contains(action, ".create") || Contains(action, ".write") then MEDIUM
    else LOW
  }

  predicate RuleApplies(rule: Rule, s: Scope)
  {
    if rule.ddiBinding then DdiPdiCapabilityBinding(s.action, s.resource)
    else s.action in rule.actions && (rule.resources.Some? ==> s.resource in rule.resources.value)
  }

  function Plain(decision: ApprovalMode, s: Scope): PolicyMatch
  {
    PolicyMatch(decision, map[], ConsequenceForAction(s.action), false, false)
  }

  function FirstRule(rules: seq<Rule>, s: Scope): Option<Rule>
  {
    if rules == [] then None
    else if RuleApplies(rules[0], s) then Some(rules[0])
    else FirstRule(rules[1..], s)
  }

  function EvaluateActorPolicy(policy: ActorPolicy, s: Scope): PolicyMatch
  {
    if policy.actorType != s.actor.kind || (policy.actorId != "*" && policy.actorId != s.actor.id) then Plain(DENY, s)
    else if policy.audience != "*" && policy.audience != s.audience then Plain(DENY, s)
    else
      match FirstRule(policy.rules, s)
      case Some(rule) =>
        PolicyMatch(rule.decision, rule.limits,
                    if rule.consequence.Some? then rule.consequence.value else ConsequenceForAction(s.action),
                    rule.requireStepUp, rule.oneTime)
      case None => Plain(policy.defaultDecision, s)
  }

  function FirstPolicy(policies: seq<ActorPolicy>, kind: ActorType, id: string, audience: string): Option<ActorPolicy>
  {
    if policies == [] then None
    else if policies[0].actorType == kind && policies[0].actorId == id
            && (policies[0].audience == "*" || policies[0].audience == audience) then Some(policies[0])
    else FirstPolicy(policies[1..], kind, id, audience)
  }

  /** `findPolicy`: a policy for this very actor goes before one for every actor of its type. */
  function FindPolicy(policies: seq<ActorPolicy>, actor: ActorRef, audience: string): Option<ActorPolicy>
  {
    var own := FirstPolicy(policies, actor.kind, actor.id, audience);
    if own.Some? then own else FirstPolicy(policies, actor.kind, "*", audience)
  }

  /** What `check` decides from the policies alone. */
  function Decide(policies: seq<ActorPolicy>, s: Scope): PolicyMatch
  {
    match FindPolicy(policies, s.actor, s.audience)
    case Some(policy) => EvaluateActorPolicy(policy, s)
    case None => Plain(DENY, s)
  }

  // ----- limits -----

  predicate Reached(limits: Limits, key: string, usageCount: nat)
  {
    LimitAt(limits, key).Count? && Int(usageCount).AtLeast(LimitAt(limits, key).n)
  }

  function LimitExceeded(limits: Limits, usageCount: nat): Option<string>
  {
    if Reached(limits, "maxPosts", usageCount) then Some("maxPosts_exceeded")
    else if Reached(limits, "maxMessages", usageCount) then Some("maxMessages_exceeded")
    else if Reached(limits, "maxDeployments", usageCount) then Some("maxDeployments_exceeded")
    else None
  }

  // ----- delegation -----

  datatype Delegable = Delegable(
    ownerId: string,
    audience: string,
    actions: seq<string>,
    resources: seq<string>,
    validUntil: Date,
    limits: Limits)

  /** One turn of the first loop over the parent's limits. */
  predicate LimitKept(p: Limit, v: Limit)
  {
    match p
    case Count(m) => v.Count? && v.n.Fin? && v.n.r >= 0.0 && !v.n.Greater(m)
    case Text(_) => v == p
    case Undefined => true
  }

  function AssertDelegationSubset(parent: Delegable, child: Delegable): Result<()>
  {
    if child.ownerId != parent.ownerId then Err("owner_mismatch")
    else if child.audience != parent.audience then Err("audience_escalation")
    else if child.validUntil.Invalid? || Before(parent.validUntil, child.validUntil) then Err("expiry_escalation")
    else if exists a :: a in child.actions && a !in parent.actions then Err("action_escalation")
    else if exists r :: r in child.resources && r !in parent.resources then Err("resource_escalation")
    else if exists k :: k in parent.limits && !LimitKept(parent.limits[k], LimitAt(child.limits, k)) then
      Err("limit_escalation")
    else if exists k :: k in child.limits && child.limits[k].Count? && LimitAt(parent.limits, k).Count?
                        && child.limits[k].n.Greater(LimitAt(parent.limits, k).n) then Err("limit_escalation")
    else Ok(())
  }

  predicate Contained(parent: Delegable, child: Delegable)
  {
    AssertDelegationSubset(parent, child).Ok?
  }

  /** Every link of the chain passes the check with the one before it. */
  predicate Chain(links: seq<Delegable>)
  {
    forall i :: 0 <= i < |links| - 1 ==> Contained(links[i], links[i + 1])
  }

  lemma LimitKeptComposes(p: Limit, v: Limit, w: Limit)
    requires LimitKept(p, v) && LimitKept(v, w)
    ensures LimitKept(p, w)
  {
  }

  lemma ContainedComposes(root: Delegable, mid: Delegable, leaf: Delegable)
    requires Contained(root, mid) && Contained(mid, leaf)
    ensures Contained(root, leaf)
  {
    forall k | k in root.limits ensures LimitKept(root.limits[k], LimitAt(leaf.limits, k)) {
      if k in mid.limits {
        LimitKeptComposes(root.limits[k], mid.limits[k], LimitAt(leaf.limits, k));
      }
    }
    forall k | k in leaf.limits && leaf.limits[k].Count? && LimitAt(root.limits, k).Count?
      ensures !leaf.limits[k].n.Greater(LimitAt(root.limits, k).n)
    {
      assert LimitKept(root.limits[k], LimitAt(leaf.limits, k));
    }
  }

  /** Along a chain of any length the last link is contained in the first. */
  lemma {:induction false} ChainContained(links: seq<Delegable>)
    requires |links| >= 2 && Chain(links)
    ensures Contained(links[0], links[|links| - 1])
  {
    hide AssertDelegationSubset;
    var n := |links| - 1;
    assert Contained(links[n - 1], links[n]);
    if n > 1 {
      var init := links[..n];
      forall i | 0 <= i < |init| - 1
        ensures Contained(init[i], init[i + 1])
      {
        assert Contained(links[i], links[i + 1]);
      }
      ChainContained(init);
      ContainedComposes(links[0], links[n - 1], links[n]);
    }
  }

  /** A limit of the child that is a count no greater than the parent's, or the parent's own text. */
  predicate LimitWithin(limits: Limits, k: string, p: Limit)
  {
    p == Undefined
    || (k in limits && p.Text? && limits[k] == p)
    || (k in limits && p.Count? && limits[k].Count? && limits[k].n.Fin? && limits[k].n.r >= 0.0
        && !limits[k].n.Greater(p.n))
  }

  /** What the check means, without its order of questions. */
  lemma ContainedMeans(parent: Delegable, child: Delegable)
    ensures Contained(parent, child) <==>
      && child.ownerId == parent.ownerId && child.audience == parent.audience
      && child.validUntil.At? && (parent.validUntil.At? ==> child.validUntil.ms <= parent.validUntil.ms)
      && (forall a :: a in child.actions ==> a in parent.actions)
      && (forall r :: r in child.resources ==> r in parent.resources)
      && (forall k :: k in parent.limits ==> LimitWithin(child.limits, k, parent.limits[k]))
  {
    forall k | k in parent.limits
      ensures LimitWithin(child.limits, k, parent.limits[k]) <==>
        LimitKept(parent.limits[k], LimitAt(child.limits, k))
    {
    }
    hide LimitWithin;
    if forall k :: k in parent.limits ==> LimitKept(parent.limits[k], LimitAt(child.limits, k)) {
      forall k | k in child.limits && child.limits[k].Count? && LimitAt(parent.limits, k).Count?
        ensures !child.limits[k].n.Greater(LimitAt(parent.limits, k).n)
      {
        assert LimitKept(parent.limits[k], LimitAt(child.limits, k));
      }
    }
  }

  /** A usage the leaf's limits still permit, the root's permit too. */
  lemma UsageContained(root: Delegable, leaf: Delegable, usageCount: nat)
    requires Contained(root, leaf) && LimitExceeded(leaf.limits, usageCount).None?
    ensures LimitExceeded(root.limits, usageCount).None?
  {
    ReachedContained(root, leaf, "maxPosts", usageCount);
    ReachedContained(root, leaf, "maxMessages", usageCount);
    ReachedContained(root, leaf, "maxDeployments", usageCount);
  }

  lemma ReachedContained(root: Delegable, leaf: Delegable, key: string, usageCount: nat)
    requires Contained(root, leaf)
    ensures Reached(root.limits, key, usageCount) ==> Reached(leaf.limits, key, usageCount)
  {
    if Reached(root.limits, key, usageCount) {
      assert key in root.limits;
      assert LimitKept(root.limits[key], LimitAt(leaf.limits, key));
    }
  }
}
