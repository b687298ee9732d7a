/** packages/shared/src/authority-claims.ts: the claims record and the wire predicate both sides share. */
module Claims {
  import opened JsValues
  import opened Results
  import opened AuthorityTypes

  datatype Value =
    | Undef | Null | Str(s: string) | Num(n: Number) | Bool(b: bool)
    | Arr(items: seq<Value>) | Obj(fields: map<string, Value>)

  /** A claims object: the names the predicate allows as fields, every other name in `others`. */
  datatype Payload = Payload(
    iss: Value, sub: Value, aud: Value, actor: Value, actions: Value, resources: Value, limits: Value,
    approval: Value, grantId: Value, grantVersion: Value, oneTime: Value, jti: Value,
    iat: Value, nbf: Value, exp: Value, ownerTrustId: Value, others: map<string, Value>)

  datatype Claims = Claims(
    iss: string, sub: string, aud: string, actor: string, actions: seq<string>, resources: seq<string>, limits: Limits,
    approval: ApprovalMode, grantId: string, grantVersion: int, oneTime: bool, jti: string,
    iat: int, nbf: int, exp: int, ownerTrustId: Option<string>)

  /** What `trim` removes and `\s` matches. */
  predicate IsSpace(c: char)
  {
    var n := c as int;
    9 <= n <= 13 || n == 32 || n == 0xa0 || n == 0x1680 || 0x2000 <= n <= 0x200a || n == 0x2028 || n == 0x2029
    || n == 0x202f || n == 0x205f || n == 0x3000 || n == 0xfeff
  }

  /** `v.length > 0 && v.trim() === v`. */
  predicate IsTrimmed(s: string)
  {
    s != "" && !IsSpace(s[0]) && !IsSpace(s[|s| - 1])
  }

  predicate IsText(v: Value)
  {
    v.Str? && IsTrimmed(v.s)
  }

  predicate IsScope(v: Value)
  {
    v.Arr? && v.items != [] && (forall i :: 0 <= i < |v.items| ==> IsText(v.items[i]))
    && forall i, j :: 0 <= i < j < |v.items| ==> v.items[i] != v.items[j]
  }

  predicate ActorAfter(s: string, prefix: string)
  {
    prefix <= s && |s| > |prefix| && forall i :: |prefix| <= i < |s| ==> !IsSpace(s[i])
  }

  /** `/^(human|app|service|digital_twin|device|business):\S+$/`. */
  predicate IsActorText(s: string)
  {
    ActorAfter(s, "human:") || ActorAfter(s, "app:") || ActorAfter(s, "service:")
    || ActorAfter(s, "digital_twin:") || ActorAfter(s, "device:") || ActorAfter(s, "business:")
  }

  predicate IsWhole(v: Value)
  {
    v.Num? && v.n.IsSafeInteger()
  }

  predicate IsLimitValue(v: Value)
  {
    v.Str? || (v.Num? && v.n.Fin? && v.n.r >= 0.0)
  }

  predicate IsAuthorityClaimsShape(p: Payload)
  {
    && p.others == map[]
    && IsText(p.iss) && IsText(p.sub) && IsText(p.aud) && IsText(p.actor) && IsText(p.grantId) && IsText(p.jti)
    && IsActorText(p.actor.s)
    && IsScope(p.actions) && IsScope(p.resources)
    && (p.approval == Str("ALLOW") || p.approval == Str("ALLOW_WITH_LIMITS"))
    && p.oneTime.Bool? && p.grantVersion.Num? && p.grantVersion.n.Fin?
    && p.grantVersion.n.r == p.grantVersion.n.r.Floor as real && p.grantVersion.n.r >= 1.0
    && IsWhole(p.iat) && IsWhole(p.nbf) && IsWhole(p.exp)
    && p.exp.n.r > p.iat.n.r && p.nbf.n.r <= p.exp.n.r && p.exp.n.r - p.iat.n.r <= 300.0
    && (p.ownerTrustId != Undef ==> IsText(p.ownerTrustId))
    && p.limits.Obj? && (forall k :: k in p.limits.fields ==> IsLimitValue(p.limits.fields[k]))
  }

  // ----- claims as a payload and back -----

  function ModeText(m: ApprovalMode): string
  {
    match m
    case ALLOW => "ALLOW"
    case DENY => "DENY"
    case ASK_OWNER => "ASK_OWNER"
    case ALLOW_WITH_LIMITS => "ALLOW_WITH_LIMITS"
  }

  function LimitValue(l: Limit): Value
  {
    match l
    case Count(n) => Num(n)
    case Text(s) => Str(s)
    case Undefined => Undef
  }

  function Strings(ss: seq<string>): (v: seq<Value>)
    ensures |v| == |ss| && forall i :: 0 <= i < |ss| ==> v[i] == Str(ss[i])
  {
    seq(|ss|, i requires 0 <= i < |ss| => Str(ss[i]))
  }

  function ToPayload(c: Claims): Payload
  {
    Payload(Str(c.iss), Str(c.sub), Str(c.aud), Str(c.actor), Arr(Strings(c.actions)), Arr(Strings(c.resources)),
            Obj(map k | k in c.limits :: LimitValue(c.limits[k])),
            Str(ModeText(c.approval)), Str(c.grantId), Num(Int(c.grantVersion)), Bool(c.oneTime), Str(c.jti),
            Num(Int(c.iat)), Num(Int(c.nbf)), Num(Int(c.exp)),
            if c.ownerTrustId.Some? then Str(c.ownerTrustId.value) else Undef, map[])
  }

  function Texts(items: seq<Value>): (ss: seq<string>)
    requires forall i :: 0 <= i < |items| ==> items[i].Str?
    ensures |ss| == |items| && forall i :: 0 <= i < |items| ==> ss[i] == items[i].s
  {
    seq(|items|, i requires 0 <= i < |items| => items[i].s)
  }

  /** The claims both verifiers build from a payload of the right shape. */
  function FromPayload(p: Payload): Claims
    requires IsAuthorityClaimsShape(p)
  {
    Claims(DIGI_AUTHORITY_ISSUER, p.sub.s, p.aud.s, p.actor.s, Texts(p.actions.items), Texts(p.resources.items),
           map k | k in p.limits.fields ::
             if p.limits.fields[k].Num? then Count(p.limits.fields[k].n) else Limit.Text(p.limits.fields[k].s),
           if p.approval == Str("ALLOW") then ALLOW else ALLOW_WITH_LIMITS,
           p.grantId.s, p.grantVersion.n.r.Floor, p.oneTime.b, p.jti.s,
           p.iat.n.r.Floor, p.nbf.n.r.Floor, p.exp.n.r.Floor,
           if p.ownerTrustId == Undef then None else Some(p.ownerTrustId.s))
  }

  /** Claims of the right shape survive the wire. */
  lemma PayloadKeepsClaims(c: Claims)
    requires IsAuthorityClaimsShape(ToPayload(c)) && c.iss == DIGI_AUTHORITY_ISSUER
    ensures FromPayload(ToPayload(c)) == c
    ensures c.approval == ALLOW || c.approval == ALLOW_WITH_LIMITS
    ensures c.iat < c.exp <= c.iat + 300 && c.nbf <= c.exp && c.grantVersion >= 1
  {
    var p := ToPayload(c);
    var d := FromPayload(p);
    assert d.limits.Keys == c.limits.Keys;
    forall k | k in c.limits ensures d.limits[k] == c.limits[k] { assert IsLimitValue(p.limits.fields[k]); }
    assert d.limits == c.limits;
    assert d.actions == c.actions && d.resources == c.resources;
    assert c.approval == ALLOW || c.approval == ALLOW_WITH_LIMITS by {
      assert ModeText(c.approval) == "ALLOW" || ModeText(c.approval) == "ALLOW_WITH_LIMITS";
      assert "DENY"[0] != "ALLOW"[0] && |"ASK_OWNER"| != |"ALLOW"|;
    }
  }
}
