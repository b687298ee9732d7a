/**
 What packages/digi-authority/src/policy.ts and `findPolicy` of service.ts decide, said by positions in the
 lists of policies and rules, and the policies the repository ships.
 */
module PolicyRulings {
  import opened JsValues
  import opened Results
  import opened AuthorityTypes
  import opened Policy

  // ----- which policy governs, and which of its rules is taken -----

  predicate OfAudience(p: ActorPolicy, s: Scope)
  {
    p.actorType == s.actor.kind && (p.audience == "*" || p.audience == s.audience)
  }

  /** A policy for this very actor. */
  predicate IsOwn(p: ActorPolicy, s: Scope)
  {
    OfAudience(p, s) && p.actorId == s.actor.id
  }

  /** A policy for every actor of its type. */
  predicate IsWild(p: ActorPolicy, s: Scope)
  {
    OfAudience(p, s) && p.actorId == "*"
  }

  /** The first of its own policies, and the first wildcard only if there is none of its own. */
  predicate Governs(ps: seq<ActorPolicy>, i: nat, s: Scope)
  {
    i < |ps| &&
    if IsOwn(ps[i], s) then forall j :: 0 <= j < i ==> !IsOwn(ps[j], s)
    else
      IsWild(ps[i], s) && (forall j :: 0 <= j < |ps| ==> !IsOwn(ps[j], s))
      && forall j :: 0 <= j < i ==> !IsWild(ps[j], s)
  }

  /** The resource is the printed name of this action at some infrastructure. */
  ghost predicate IsBound(s: Scope)
  {
    IsCapability(s.action) && exists id :: IsInfrastructureId(id) && s.resource == DdiResource(id, s.action)
  }

  ghost predicate RuleCovers(rule: Rule, s: Scope)
  {
    if rule.ddiBinding then IsBound(s)
    else s.action in rule.actions && (rule.resources == None || s.resource in rule.resources.value)
  }

  /** The first rule that covers the scope. */
  ghost predicate Taken(rules: seq<Rule>, k: nat, s: Scope)
  {
    k < |rules| && RuleCovers(rules[k], s) && forall j :: 0 <= j < k ==> !RuleCovers(rules[j], s)
  }

  ghost predicate ByRule(ps: seq<ActorPolicy>, i: nat, k: nat, s: Scope, m: PolicyMatch)
  {
    i < |ps| && k < |ps[i].rules| && Governs(ps, i, s) && Taken(ps[i].rules, k, s) &&
    var rule := ps[i].rules[k];
    m.decision == rule.decision && m.limits == rule.limits
    && m.requireStepUp == rule.requireStepUp && m.oneTime == rule.oneTime
    && m.consequence == if rule.consequence.Some? then rule.consequence.value else ConsequenceForAction(s.action)
  }

  predicate Bare(m: PolicyMatch, s: Scope)
  {
    m.limits == map[] && !m.requireStepUp && !m.oneTime && m.consequence == ConsequenceForAction(s.action)
  }

  ghost predicate ByDefault(ps: seq<ActorPolicy>, i: nat, s: Scope, m: PolicyMatch)
  {
    i < |ps| && Governs(ps, i, s) && (forall k :: 0 <= k < |ps[i].rules| ==> !RuleCovers(ps[i].rules[k], s))
    && m.decision == ps[i].defaultDecision && Bare(m, s)
  }

  /** No policy speaks of the actor and the audience. */
  predicate Ungoverned(ps: seq<ActorPolicy>, s: Scope)
  {
    forall i :: 0 <= i < |ps| ==> !IsOwn(ps[i], s) && !IsWild(ps[i], s)
  }

  ghost predicate Ruled(ps: seq<ActorPolicy>, s: Scope, m: PolicyMatch)
  {
    (exists i: nat, k: nat :: ByRule(ps, i, k, s, m)) || (exists i: nat :: ByDefault(ps, i, s, m))
    || (Ungoverned(ps, s) && m.decision == DENY && Bare(m, s))
  }

  // ----- the code finds them -----

  lemma CoversIsApplies(rule: Rule, s: Scope)
    ensures RuleCovers(rule, s) <==> RuleApplies(rule, s)
  {
    BindingIsGrammar(s.action, s.resource);
    hide IsCapability, DdiPdiCapabilityBinding;
  }

  lemma TakenLater(rules: seq<Rule>, k: nat, s: Scope)
    requires rules != [] && !RuleCovers(rules[0], s) && Taken(rules[1..], k, s)
    ensures Taken(rules, k + 1, s) && rules[k + 1] == rules[1..][k]
  {
    hide RuleCovers;
    forall j | 0 <= j < k + 1 ensures !RuleCovers(rules[j], s) {
      if j > 0 { assert rules[1..][j - 1] == rules[j]; }
    }
  }

  lemma {:induction false} FirstRuleIs(rules: seq<Rule>, s: Scope)
    ensures match FirstRule(rules, s)
      case Some(rule) => exists k: nat :: Taken(rules, k, s) && rules[k] == rule
      case None => forall k :: 0 <= k < |rules| ==> !RuleCovers(rules[k], s)
  {
    hide RuleCovers, RuleApplies;
    if rules != [] {
      CoversIsApplies(rules[0], s);
      if RuleApplies(rules[0], s) {
        assert Taken(rules, 0, s);
      } else {
        FirstRuleIs(rules[1..], s);
        if FirstRule(rules, s).Some? {
          var k: nat :| Taken(rules[1..], k, s) && rules[1..][k] == FirstRule(rules, s).value;
          TakenLater(rules, k, s);
        } else {
          forall k | 0 <= k < |rules| ensures !RuleCovers(rules[k], s) {
            if k > 0 { assert rules[1..][k - 1] == rules[k]; }
          }
        }
      }
    }
  }

  predicate Named(p: ActorPolicy, kind: ActorType, id: string, audience: string)
  {
    p.actorType == kind && p.actorId == id && (p.audience == "*" || p.audience == audience)
  }

  /** The first policy of that name. */
  predicate FirstNamed(ps: seq<ActorPolicy>, i: nat, kind: ActorType, id: string, audience: string)
  {
    i < |ps| && Named(ps[i], kind, id, audience) && forall j :: 0 <= j < i ==> !Named(ps[j], kind, id, audience)
  }

  lemma NamedLater(ps: seq<ActorPolicy>, i: nat, kind: ActorType, id: string, audience: string)
    requires ps != [] && !Named(ps[0], kind, id, audience) && FirstNamed(ps[1..], i, kind, id, audience)
    ensures FirstNamed(ps, i + 1, kind, id, audience) && ps[i + 1] == ps[1..][i]
  {
    hide Named;
    forall j | 0 <= j < i + 1 ensures !Named(ps[j], kind, id, audience) {
      if j > 0 { assert ps[1..][j - 1] == ps[j]; }
    }
  }

  lemma {:induction false} FirstPolicyIs(ps: seq<ActorPolicy>, kind: ActorType, id: string, audience: string)
    ensures match FirstPolicy(ps, kind, id, audience)
      case Some(p) => exists i: nat :: i < |ps| && FirstNamed(ps, i, kind, id, audience) && ps[i] == p
      case None => forall i :: 0 <= i < |ps| ==> !Named(ps[i], kind, id, audience)
  {
    if ps != [] && !Named(ps[0], kind, id, audience) {
      FirstPolicyIs(ps[1..], kind, id, audience);
      if FirstPolicy(ps, kind, id, audience).Some? {
        var i: nat :| FirstNamed(ps[1..], i, kind, id, audience)
                      && ps[1..][i] == FirstPolicy(ps, kind, id, audience).value;
        NamedLater(ps, i, kind, id, audience);
      } else {
        forall j | 0 <= j < |ps| ensures !Named(ps[j], kind, id, audience) {
          if j > 0 { assert ps[1..][j - 1] == ps[j]; }
        }
      }
    } else if ps != [] {
      assert FirstNamed(ps, 0, kind, id, audience);
    }
  }

  lemma NamedIs(p: ActorPolicy, s: Scope)
    ensures Named(p, s.actor.kind, s.actor.id, s.audience) <==> IsOwn(p, s)
    ensures Named(p, s.actor.kind, "*", s.audience) <==> IsWild(p, s)
  {
  }

  lemma OwnGoverns(ps: seq<ActorPolicy>, i: nat, s: Scope)
    requires FirstNamed(ps, i, s.actor.kind, s.actor.id, s.audience)
    ensures Governs(ps, i, s)
  {
    forall j | 0 <= j < |ps| ensures Named(ps[j], s.actor.kind, s.actor.id, s.audience) <==> IsOwn(ps[j], s) {
      NamedIs(ps[j], s);
    }
    hide Named, IsOwn, IsWild;
  }

  lemma WildGoverns(ps: seq<ActorPolicy>, i: nat, s: Scope)
    requires FirstNamed(ps, i, s.actor.kind, "*", s.audience)
    requires forall j :: 0 <= j < |ps| ==> !Named(ps[j], s.actor.kind, s.actor.id, s.audience)
    ensures Governs(ps, i, s)
  {
    forall j | 0 <= j < |ps|
      ensures Named(ps[j], s.actor.kind, "*", s.audience) <==> IsWild(ps[j], s)
      ensures !IsOwn(ps[j], s)
    {
      NamedIs(ps[j], s);
    }
    hide Named, IsOwn, IsWild;
  }

  lemma PolicyFound(ps: seq<ActorPolicy>, s: Scope)
    ensures match FindPolicy(ps, s.actor, s.audience)
      case Some(p) => exists i: nat :: i < |ps| && Governs(ps, i, s) && ps[i] == p
      case None => Ungoverned(ps, s)
  {
    FirstPolicyIs(ps, s.actor.kind, s.actor.id, s.audience);
    FirstPolicyIs(ps, s.actor.kind, "*", s.audience);
    hide FirstPolicy, Named, IsOwn, IsWild, Governs, FirstNamed;
    if FirstPolicy(ps, s.actor.kind, s.actor.id, s.audience).Some? {
      var i: nat :| i < |ps| && FirstNamed(ps, i, s.actor.kind, s.actor.id, s.audience)
                    && ps[i] == FirstPolicy(ps, s.actor.kind, s.actor.id, s.audience).value;
      OwnGoverns(ps, i, s);
    } else if FirstPolicy(ps, s.actor.kind, "*", s.audience).Some? {
      var i: nat :| i < |ps| && FirstNamed(ps, i, s.actor.kind, "*", s.audience)
                    && ps[i] == FirstPolicy(ps, s.actor.kind, "*", s.audience).value;
      WildGoverns(ps, i, s);
    } else {
      forall j | 0 <= j < |ps| ensures !IsOwn(ps[j], s) && !IsWild(ps[j], s) { NamedIs(ps[j], s); }
    }
  }

  lemma GoverningActor(ps: seq<ActorPolicy>, i: nat, s: Scope)
    requires Governs(ps, i, s)
    ensures OfAudience(ps[i], s) && (ps[i].actorId == s.actor.id || ps[i].actorId == "*")
  {
  }

  /** A policy that concerns the actor and the audience decides by its rules. */
  lemma Evaluates(p: ActorPolicy, s: Scope)
    requires OfAudience(p, s) && (p.actorId == s.actor.id || p.actorId == "*")
    ensures EvaluateActorPolicy(p, s) == match FirstRule(p.rules, s)
      case Some(rule) =>
        PolicyMatch(rule.decision, rule.limits,
                    if rule.consequence.Some? then rule.consequence.value else ConsequenceForAction(s.action),
                    rule.requireStepUp, rule.oneTime)
      case None => PolicyMatch(p.defaultDecision, map[], ConsequenceForAction(s.action), false, false)
  {
    hide FirstRule, ConsequenceForAction;
  }

  lemma EvaluatedIs(ps: seq<ActorPolicy>, i: nat, s: Scope)
    requires Governs(ps, i, s)
    ensures var m := EvaluateActorPolicy(ps[i], s);
      (exists k: nat :: ByRule(ps, i, k, s, m)) || ByDefault(ps, i, s, m)
  {
    GoverningActor(ps, i, s);
    Evaluates(ps[i], s);
    FirstRuleIs(ps[i].rules, s);
    hide Governs, RuleCovers, FirstRule, ConsequenceForAction, EvaluateActorPolicy, OfAudience, Taken;
    var m := EvaluateActorPolicy(ps[i], s);
    if FirstRule(ps[i].rules, s).Some? {
      var k: nat :| Taken(ps[i].rules, k, s) && ps[i].rules[k] == FirstRule(ps[i].rules, s).value;
      assert ByRule(ps, i, k, s, m);
    }
  }

  lemma DecideIsRuled(ps: seq<ActorPolicy>, s: Scope)
    ensures Ruled(ps, s, Decide(ps, s))
  {
    PolicyFound(ps, s);
    hide FindPolicy, ByRule, ByDefault, Governs, ConsequenceForAction, EvaluateActorPolicy;
    if FindPolicy(ps, s.actor, s.audience).Some? {
      assert exists i: nat :: i < |ps| && Governs(ps, i, s) && ps[i] == FindPolicy(ps, s.actor, s.audience).value;
      var i: nat :| i < |ps| && Governs(ps, i, s) && ps[i] == FindPolicy(ps, s.actor, s.audience).value;
      EvaluatedIs(ps, i, s);
    }
  }

  lemma GoverningIsOne(ps: seq<ActorPolicy>, i: nat, j: nat, s: Scope)
    requires Governs(ps, i, s) && Governs(ps, j, s)
    ensures i == j
  {
  }

  lemma TakenIsOne(rules: seq<Rule>, k: nat, l: nat, s: Scope)
    requires Taken(rules, k, s) && Taken(rules, l, s)
    ensures k == l
  {
  }

  /** One ruling at most. */
  lemma RulingIsOne(ps: seq<ActorPolicy>, s: Scope, m: PolicyMatch, n: PolicyMatch)
    requires Ruled(ps, s, m) && Ruled(ps, s, n)
    ensures m == n
  {
    hide Governs, Taken, RuleCovers, Ungoverned, ConsequenceForAction;
    GovernedOrNot(ps, s);
    if i: nat, k: nat :| ByRule(ps, i, k, s, m) {
      if j: nat, l: nat :| ByRule(ps, j, l, s, n) {
        GoverningIsOne(ps, i, j, s);
        TakenIsOne(ps[i].rules, k, l, s);
      } else if j: nat :| ByDefault(ps, j, s, n) {
        GoverningIsOne(ps, i, j, s);
        TakenCovers(ps[i].rules, k, s);
      }
    } else if i: nat :| ByDefault(ps, i, s, m) {
      if j: nat, l: nat :| ByRule(ps, j, l, s, n) {
        GoverningIsOne(ps, i, j, s);
        TakenCovers(ps[j].rules, l, s);
      } else if j: nat :| ByDefault(ps, j, s, n) {
        GoverningIsOne(ps, i, j, s);
      }
    }
  }

  lemma TakenCovers(rules: seq<Rule>, k: nat, s: Scope)
    requires Taken(rules, k, s)
    ensures k < |rules| && RuleCovers(rules[k], s)
  {
  }

  lemma GovernedOrNot(ps: seq<ActorPolicy>, s: Scope)
    ensures Ungoverned(ps, s) ==> forall i: nat :: !Governs(ps, i, s)
  {
  }

  /** `findPolicy` and `evaluateActorPolicy` give the ruling, and no other match is one. */
  lemma DecideMeans(ps: seq<ActorPolicy>, s: Scope, m: PolicyMatch)
    ensures m == Decide(ps, s) <==> Ruled(ps, s, m)
  {
    DecideIsRuled(ps, s);
    hide Ruled, Decide;
    if Ruled(ps, s, m) { RulingIsOne(ps, s, m, Decide(ps, s)); }
  }

  // ----- consequences -----

  ghost predicate Occurs(t: string, s: string)
  {
    exists i :: 0 <= i <= |s| && t <= s[i..]
  }

  lemma {:induction false} ContainsMeans(s: string, t: string)
    ensures Contains(s, t) <==> Occurs(t, s)
  {
    if t <= s {
      assert s[0..] == s;
    } else if s != [] {
      ContainsMeans(s[1..], t);
      if Occurs(t, s[1..]) {
        var i :| 0 <= i <= |s[1..]| && t <= s[1..][i..];
        assert s[1..][i..] == s[i + 1..];
      }
      if Occurs(t, s) {
        var i :| 0 <= i <= |s| && t <= s[i..];
        assert s[0..] == s;
        assert s[1..][i - 1..] == s[i..];
      }
    } else {
      assert forall i :: 0 <= i <= |s| ==> s[i..] == s;
    }
  }

  predicate IsCritical(action: string)
  {
    "payment." <= action || action == "ownership.transfer" || action == "security.change"
    || action == "device.revoke" || action == "authority.delegate"
  }

  lemma ConsequenceMeans(action: string)
    ensures ConsequenceForAction(action) == CRITICAL <==> IsCritical(action)
    ensures ConsequenceForAction(action) == HIGH <==>
      !IsCritical(action) && (Occurs(".publish", action) || Occurs(".live.", action))
    ensures ConsequenceForAction(action) == MEDIUM <==>
      !IsCritical(action) && !Occurs(".publish", action) && !Occurs(".live.", action)
      && (Occurs(".send", action) || Occurs(".create", action) || Occurs(".write", action))
  {
    ContainsMeans(action, ".publish");
    ContainsMeans(action, ".live.");
    ContainsMeans(action, ".send");
    ContainsMeans(action, ".create");
    ContainsMeans(action, ".write");
    hide Contains, Occurs;
  }

  // ----- the policies the service ships with -----

  const DDI_PDI_APPLICATION_POLICY := ActorPolicy(App, "*", "ddi",
    [Rule([], None, true, ASK_OWNER, map[], Some(LOW), false, false)], DENY)

  function Listed(actions: seq<string>, decision: ApprovalMode, limits: Limits, consequence: Consequence): Rule
  {
    Rule(actions, None, false, decision, limits, Some(consequence), false, false)
  }

  const DIGITAL_TWIN_POLICY := ActorPolicy(DigitalTwin, "mrfundzman", "*", [
    Listed(["tv.program.create", "radio.program.create"], ALLOW, map[], MEDIUM),
    Listed(["tv.program.publish", "radio.program.publish"], ALLOW_WITH_LIMITS, map["maxPosts" := Count(Int(1))], HIGH),
    Listed(["tv.live.start", "radio.live.start"], ASK_OWNER, map[], HIGH),
    Listed(["message.send"], ALLOW_WITH_LIMITS, map["maxMessages" := Count(Int(10))], MEDIUM),
    Listed(["message.broadcast"], ASK_OWNER, map[], HIGH),
    Rule(["payment.approve"], None, false, ASK_OWNER, map[], Some(CRITICAL), true, true),
    Listed(["authority.delegate", "ownership.transfer", "security.change"], DENY, map[], CRITICAL)], DENY)

  function DigiAuthorityPolicies(production: bool): seq<ActorPolicy>
  {
    if production then [DDI_PDI_APPLICATION_POLICY] else [DDI_PDI_APPLICATION_POLICY, DIGITAL_TWIN_POLICY]
  }

  /** An application, the audience `ddi`, and a resource bound to its action. */
  ghost predicate InProtocol(s: Scope)
  {
    s.actor.kind == App && s.audience == "ddi" && IsBound(s)
  }

  /** In production the owner is asked for exactly the protocol's scopes, and everything else is denied. */
  lemma ProductionRules(s: Scope, m: PolicyMatch)
    requires Ruled(DigiAuthorityPolicies(true), s, m)
    ensures m.decision == if InProtocol(s) then ASK_OWNER else DENY
    ensures m.limits == map[] && !m.requireStepUp && !m.oneTime && (InProtocol(s) ==> m.consequence == LOW)
  {
    hide IsBound, ConsequenceForAction;
    var ps := DigiAuthorityPolicies(true);
    assert Governs(ps, 0, s) <==> s.actor.kind == App && s.audience == "ddi";
    assert RuleCovers(ps[0].rules[0], s) <==> IsBound(s);
    hide DigiAuthorityPolicies, RuleCovers;
  }
}
