/**
 Which tokens the two verifiers of packages/digi-authority/src/tokens.ts and
 packages/authority-verifier/src/index.ts accept, said of keys, signatures, claims and the clock.
 */
module TokenAcceptance {
  import opened JsValues
  import opened Results
  import opened AuthorityTypes
  import opened Claims
  import opened Tokens

  // ----- the claims a token may carry -----

  predicate Trimmed(ss: seq<string>)
  {
    ss != [] && (forall i :: 0 <= i < |ss| ==> IsTrimmed(ss[i])) && forall i, j :: 0 <= i < j < |ss| ==> ss[i] != ss[j]
  }

  predicate SafeSeconds(n: int)
  {
    -MAX_SAFE <= n <= MAX_SAFE
  }

  /** An actor of one of the six types, with an id that has no blank in it. */
  ghost predicate NamesActor(s: string)
  {
    exists kind, id :: s == ActorKey(ActorRef(kind, id)) && id != "" && forall i :: 0 <= i < |id| ==> !IsSpace(id[i])
  }

  predicate Usable(l: Limit)
  {
    l.Text? || (l.Count? && l.n.Fin? && l.n.r >= 0.0)
  }

  ghost predicate Wellformed(c: Claims)
  {
    && IsTrimmed(c.iss) && IsTrimmed(c.sub) && IsTrimmed(c.aud) && IsTrimmed(c.actor) && NamesActor(c.actor)
    && Trimmed(c.actions) && Trimmed(c.resources) && IsTrimmed(c.grantId) && IsTrimmed(c.jti)
    && (c.approval == ALLOW || c.approval == ALLOW_WITH_LIMITS) && c.grantVersion >= 1
    && SafeSeconds(c.iat) && SafeSeconds(c.nbf) && SafeSeconds(c.exp)
    && c.iat < c.exp <= c.iat + 300 && c.nbf <= c.exp
    && (c.ownerTrustId.Some? ==> IsTrimmed(c.ownerTrustId.value))
    && forall k :: k in c.limits ==> Usable(c.limits[k])
  }

  lemma ActorTextIs(s: string)
    ensures IsActorText(s) <==> NamesActor(s)
  {
    KindsAreSix(s);
    hide IsActorText, ActorAfter, TypeName, NamesActor;
    if kind :| ActorAfter(s, TypeName(kind) + ":") { NamesOfKind(s, kind); }
    if NamesActor(s) {
      var kind := KindNamed(s);
      assert ActorAfter(s, TypeName(kind) + ":");
    }
  }

  lemma KindsAreSix(s: string)
    ensures IsActorText(s) <==> exists kind :: ActorAfter(s, TypeName(kind) + ":")
  {
    Prefixes();
    hide ActorAfter, TypeName;
    if kind :| ActorAfter(s, TypeName(kind) + ":") {
      match kind
      case Human =>
      case App =>
      case Service =>
      case DigitalTwin =>
      case Device =>
      case Business =>
    }
  }

  lemma NamesOfKind(s: string, kind: ActorType)
    requires ActorAfter(s, TypeName(kind) + ":")
    ensures NamesActor(s)
  {
    ActorAfterIs(s, kind);
    hide ActorAfter, TypeName, IsSpace;
  }

  lemma KindNamed(s: string) returns (kind: ActorType)
    requires NamesActor(s)
    ensures ActorAfter(s, TypeName(kind) + ":")
  {
    hide ActorAfter, TypeName, IsSpace;
    var k, id :| s == ActorKey(ActorRef(k, id)) && id != "" && forall i :: 0 <= i < |id| ==> !IsSpace(id[i]);
    ActorAfterIs(s, k);
    kind := k;
  }

  lemma Prefixes()
    ensures TypeName(Human) + ":" == "human:" && TypeName(App) + ":" == "app:" && TypeName(Service) + ":" == "service:"
    ensures TypeName(DigitalTwin) + ":" == "digital_twin:" && TypeName(Device) + ":" == "device:"
    ensures TypeName(Business) + ":" == "business:"
  {
  }

  lemma ActorAfterIs(s: string, kind: ActorType)
    ensures ActorAfter(s, TypeName(kind) + ":") <==>
      exists id :: s == ActorKey(ActorRef(kind, id)) && id != "" && forall i :: 0 <= i < |id| ==> !IsSpace(id[i])
  {
    hide TypeName, IsSpace;
    var prefix := TypeName(kind) + ":";
    if ActorAfter(s, prefix) {
      var id := s[|prefix|..];
      assert s == prefix + id;
      assert forall i :: 0 <= i < |id| ==> id[i] == s[|prefix| + i];
    }
    if id :| s == ActorKey(ActorRef(kind, id)) && id != "" && forall i :: 0 <= i < |id| ==> !IsSpace(id[i]) {
      assert s == prefix + id;
    }
  }

  lemma ScopeIs(ss: seq<string>)
    ensures IsScope(Arr(Strings(ss))) <==> Trimmed(ss)
  {
    hide IsTrimmed;
    var v := Strings(ss);
    assert forall i :: 0 <= i < |ss| ==> (IsText(v[i]) <==> IsTrimmed(ss[i]));
    assert forall i, j :: 0 <= i < j < |ss| ==> (v[i] != v[j] <==> ss[i] != ss[j]);
  }

  lemma LimitsAre(limits: Limits)
    ensures var fields := map k | k in limits :: LimitValue(limits[k]);
      (forall k :: k in fields ==> IsLimitValue(fields[k])) <==> forall k :: k in limits ==> Usable(limits[k])
  {
    forall k | k in limits ensures IsLimitValue(LimitValue(limits[k])) <==> Usable(limits[k]) {
    }
    var fields := map k | k in limits :: LimitValue(limits[k]);
    assert forall k :: k in limits ==> fields[k] == LimitValue(limits[k]);
    hide IsLimitValue, LimitValue, Usable;
  }

  lemma ApprovalIs(m: ApprovalMode)
    ensures Str(ModeText(m)) == Str("ALLOW") || Str(ModeText(m)) == Str("ALLOW_WITH_LIMITS") <==>
      m == ALLOW || m == ALLOW_WITH_LIMITS
  {
    assert "DENY"[0] != "ALLOW"[0] && |"ASK_OWNER"| != |"ALLOW"| && |"ALLOW_WITH_LIMITS"| != |"ASK_OWNER"|;
    assert |"ALLOW_WITH_LIMITS"| != |"DENY"|;
  }

  /** The wire predicate says of claims just this. */
  lemma ShapeMeans(c: Claims)
    ensures IsAuthorityClaimsShape(ToPayload(c)) <==> Wellformed(c)
  {
    ActorTextIs(c.actor);
    ScopeIs(c.actions);
    ScopeIs(c.resources);
    LimitsAre(c.limits);
    ApprovalIs(c.approval);
    hide IsActorText, NamesActor, IsScope, Trimmed, ModeText, IsLimitValue, LimitValue, Usable, IsTrimmed, Strings;
  }

  /** A payload of that shape, from this issuer, is that of its claims. */
  lemma PayloadIsClaims(p: Payload)
    requires IsAuthorityClaimsShape(p) && p.iss == Str(DIGI_AUTHORITY_ISSUER)
    ensures p == ToPayload(FromPayload(p))
  {
    var c := FromPayload(p);
    var q := ToPayload(c);
    forall i | 0 <= i < |p.actions.items| ensures p.actions.items[i].Str? {
      assert IsText(p.actions.items[i]);
    }
    forall i | 0 <= i < |p.resources.items| ensures p.resources.items[i].Str? {
      assert IsText(p.resources.items[i]);
    }
    assert q.actions.items == p.actions.items && q.resources.items == p.resources.items;
    forall k | k in p.limits.fields ensures q.limits.fields[k] == p.limits.fields[k] {
      assert IsLimitValue(p.limits.fields[k]);
    }
    assert q.limits.fields.Keys == p.limits.fields.Keys;
    assert q.limits.fields == p.limits.fields;
    hide IsActorText, IsScope, IsTrimmed;
  }

  // ----- what is minted -----

  /** The claims of a token that lasts `lasts` seconds. */
  function MintedClaims(input: MintInput, lasts: int): Claims
  {
    var iat := Seconds(input.nowMs);
    Claims(DIGI_AUTHORITY_ISSUER, input.ownerId, input.audience, input.actor, input.actions, input.resources,
           input.limits, input.approval, input.grantId, input.grantVersion, input.oneTime, input.jti,
           iat, iat - input.clockSkewSeconds, iat + lasts,
           if input.ownerTrustId == Some("") then None else input.ownerTrustId)
  }

  /** Minting succeeds exactly for 1 to 300 whole seconds and well-formed claims, and signs those. */
  lemma MintMeans(key: Jwk, input: MintInput, lasts: int)
    requires input.ttlSeconds == Int(lasts)
    ensures var c := MintedClaims(input, lasts); var r := MintAuthorityToken(key, input);
      if 1 <= lasts <= 300 && Wellformed(c) then
        var header := Header("EdDSA", key.kid);
        r == Ok((Wire("", Compact(Jwt(header, ToPayload(c), SignedBy(key.key, header, ToPayload(c)))), ""), c))
      else r.Err?
  {
    ShapeMeans(MintedClaims(input, lasts));
    hide IsAuthorityClaimsShape, Wellformed, ToPayload, Seconds;
  }

  lemma MintNeedsSeconds(key: Jwk, input: MintInput)
    requires forall n: int :: input.ttlSeconds != Int(n)
    ensures MintAuthorityToken(key, input).Err?
  {
    hide IsAuthorityClaimsShape, ToPayload, Seconds;
    if input.ttlSeconds.Fin? { assert input.ttlSeconds != Int(input.ttlSeconds.r.Floor); }
  }

  // ----- what is accepted -----

  /** The first of the keys with this name has signed header and payload. */
  predicate Genuine(jwt: Jwt, jwks: seq<Jwk>)
  {
    exists k :: 0 <= k < |jwks| && jwks[k].kid == jwt.header.kid
      && (forall j :: 0 <= j < k ==> jwks[j].kid != jwt.header.kid)
      && jwt.signature == SignedBy(jwks[k].key, jwt.header, jwt.payload)
  }

  /** A signed token of well-formed claims, from the issuer, for the audience if one is named, within its time. */
  ghost predicate Accepted(jwt: Jwt, c: Claims, jwks: seq<Jwk>, audience: string, nowMs: int, tolerance: int)
  {
    && jwt.header.alg == "EdDSA" && Genuine(jwt, jwks)
    && jwt.payload == ToPayload(c) && c.iss == DIGI_AUTHORITY_ISSUER && Wellformed(c)
    && (audience != "" ==> c.aud == audience)
    && c.iat <= Seconds(nowMs) && c.nbf <= Seconds(nowMs) + tolerance && Seconds(nowMs) < c.exp + tolerance
  }

  lemma {:induction false} FirstJwk(jwks: seq<Jwk>, kid: string)
    ensures match FindJwk(jwks, kid)
      case Some(jwk) => exists k :: 0 <= k < |jwks| && jwks[k] == jwk && jwk.kid == kid
                                 && forall j :: 0 <= j < k ==> jwks[j].kid != kid
      case None => forall k :: 0 <= k < |jwks| ==> jwks[k].kid != kid
  {
    if jwks != [] && jwks[0].kid != kid {
      FirstJwk(jwks[1..], kid);
      if FindJwk(jwks, kid).Some? {
        var k :| 0 <= k < |jwks[1..]| && jwks[1..][k] == FindJwk(jwks, kid).value && jwks[1..][k].kid == kid
                 && forall j :: 0 <= j < k ==> jwks[1..][j].kid != kid;
        assert jwks[k + 1] == jwks[1..][k];
        forall j | 0 <= j < k + 1 ensures jwks[j].kid != kid {
          if j > 0 { assert jwks[1..][j - 1] == jwks[j]; }
        }
      } else {
        forall k | 0 <= k < |jwks| ensures jwks[k].kid != kid {
          if k > 0 { assert jwks[1..][k - 1] == jwks[k]; }
        }
      }
    } else if jwks != [] {
      assert jwks[0] == FindJwk(jwks, kid).value;
    }
  }

  lemma GenuineIs(jwt: Jwt, jwks: seq<Jwk>)
    ensures Genuine(jwt, jwks) <==>
      FindJwk(jwks, jwt.header.kid).Some?
      && jwt.signature == SignedBy(FindJwk(jwks, jwt.header.kid).value.key, jwt.header, jwt.payload)
  {
    FirstJwk(jwks, jwt.header.kid);
    hide FindJwk;
  }

  /** What is left to check of a payload once the signature is. */
  lemma ClaimsChecked(jwt: Jwt, key: Jwk, c: Claims, audience: string, nowMs: int, tolerance: int)
    requires jwt.payload == ToPayload(c) && Wellformed(c)
    ensures JwtVerify(jwt, key, audience, nowMs, tolerance) && ReadPayload(jwt.payload, nowMs).Ok? <==>
      jwt.signature == SignedBy(key.key, jwt.header, jwt.payload) && c.iss == DIGI_AUTHORITY_ISSUER
      && (audience != "" ==> c.aud == audience)
      && c.iat <= Seconds(nowMs) && c.nbf <= Seconds(nowMs) + tolerance && Seconds(nowMs) < c.exp + tolerance
    ensures ReadPayload(jwt.payload, nowMs).Ok? && c.iss == DIGI_AUTHORITY_ISSUER ==>
      ReadPayload(jwt.payload, nowMs) == Ok(c)
  {
    ShapeMeans(c);
    WholeSeconds(c.iat, Seconds(nowMs));
    WholeSeconds(c.nbf, Seconds(nowMs) + tolerance);
    WholeSeconds(c.exp, Seconds(nowMs) - tolerance);
    if c.iss == DIGI_AUTHORITY_ISSUER { PayloadKeepsClaims(c); }
    hide IsAuthorityClaimsShape, Wellformed, FromPayload, Seconds;
  }

  /** Signature and claims together, as both verifiers check them. */
  lemma AcceptedIs(jwt: Jwt, jwks: seq<Jwk>, audience: string, nowMs: int, tolerance: int, c: Claims)
    ensures Accepted(jwt, c, jwks, audience, nowMs, tolerance) <==>
      jwt.header.alg == "EdDSA" && FindJwk(jwks, jwt.header.kid).Some?
      && JwtVerify(jwt, FindJwk(jwks, jwt.header.kid).value, audience, nowMs, tolerance)
      && ReadPayload(jwt.payload, nowMs) == Ok(c)
  {
    GenuineIs(jwt, jwks);
    hide Genuine, FindJwk, Wellformed, Seconds;
    var found := FindJwk(jwks, jwt.header.kid);
    if found.Some? {
      if ReadPayload(jwt.payload, nowMs) == Ok(c) && jwt.payload.iss == Str(DIGI_AUTHORITY_ISSUER) {
        PayloadIsClaims(jwt.payload);
        ShapeMeans(c);
      }
      hide IsAuthorityClaimsShape, FromPayload;
      if jwt.payload == ToPayload(c) && Wellformed(c) {
        ClaimsChecked(jwt, found.value, c, audience, nowMs, tolerance);
      }
      hide ReadPayload;
    }
  }

  /** No part of well-formed claims that the verifiers look for is empty. */
  lemma NothingEmpty(c: Claims)
    requires Wellformed(c)
    ensures c.sub != "" && c.actor != "" && c.jti != "" && c.grantId != ""
  {
    hide NamesActor, Trimmed;
  }

  /** The service accepts a token exactly if it is legible, accepted, and names what was expected of it. */
  lemma ServiceAccepts(
      skips: string -> bool, w: Wire, e: Expectation, jwks: seq<Jwk>, nowMs: int, tolerance: int, d: Claims)
    ensures VerifyAuthorityToken(skips, w, e, jwks, nowMs, tolerance) == Ok(d) <==>
      w.body.Compact? && w.lead == "" && (w.trail == "" || skips(w.trail))
      && (exists c :: Accepted(w.body.jwt, c, jwks, e.audience, nowMs, tolerance) && d == c.(ownerTrustId := None))
      && (e.actor != "" ==> d.actor == e.actor)
      && (e.action != "" ==> e.action in d.actions) && (e.resource != "" ==> e.resource in d.resources)
  {
    if w.body.Compact? {
      var jwt := w.body.jwt;
      forall c ensures Accepted(jwt, c, jwks, e.audience, nowMs, tolerance) <==>
        jwt.header.alg == "EdDSA" && FindJwk(jwks, jwt.header.kid).Some?
        && JwtVerify(jwt, FindJwk(jwks, jwt.header.kid).value, e.audience, nowMs, tolerance)
        && ReadPayload(jwt.payload, nowMs) == Ok(c)
      {
        AcceptedIs(jwt, jwks, e.audience, nowMs, tolerance, c);
      }
      forall c | Accepted(jwt, c, jwks, e.audience, nowMs, tolerance)
        ensures c.sub != "" && c.actor != "" && c.jti != "" && c.grantId != ""
      {
        AcceptedClaims(jwt, c, jwks, e.audience, nowMs, tolerance);
      }
      hide Accepted, FindJwk, JwtVerify, ReadPayload;
    }
  }

  lemma AcceptedClaims(jwt: Jwt, c: Claims, jwks: seq<Jwk>, audience: string, nowMs: int, tolerance: int)
    requires Accepted(jwt, c, jwks, audience, nowMs, tolerance)
    ensures Wellformed(c) && c.sub != "" && c.actor != "" && c.jti != "" && c.grantId != ""
  {
    NothingEmpty(c);
    hide Wellformed, Genuine, ToPayload;
  }

  /** A consumer accepts a token, however it is padded, exactly if it is accepted and says what was expected. */
  lemma ConsumerAccepts(
      w: Wire, e: Expectation, ownerId: Option<string>, jwks: seq<Jwk>, nowMs: int, tolerance: int, c: Claims)
    ensures VerifyAuthority(w, e, ownerId, jwks, nowMs, tolerance) == Ok(c) <==>
      w.body.Compact? && Accepted(w.body.jwt, c, jwks, e.audience, nowMs, tolerance)
      && (ownerId.Some? && ownerId.value != "" ==> c.sub == ownerId.value)
      && c.actor == e.actor && e.action in c.actions && e.resource in c.resources
  {
    if w.body.Compact? {
      AcceptedIs(w.body.jwt, jwks, e.audience, nowMs, tolerance, c);
      if Accepted(w.body.jwt, c, jwks, e.audience, nowMs, tolerance) {
        AcceptedClaims(w.body.jwt, c, jwks, e.audience, nowMs, tolerance);
      }
      assert FindJwk(jwks, w.body.jwt.header.kid).Some? ==> jwks != [];
      hide Accepted, FindJwk, JwtVerify, ReadPayload;
    }
  }

  /** Of an accepted token the service names the first expectation that is not met: actor, action, resource. */
  lemma ServiceNamesMismatch(
      skips: string -> bool, w: Wire, e: Expectation, jwks: seq<Jwk>, nowMs: int, tolerance: int, c: Claims)
    requires w.body.Compact? && w.lead == "" && (w.trail == "" || skips(w.trail))
    requires Accepted(w.body.jwt, c, jwks, e.audience, nowMs, tolerance)
    ensures var r := VerifyAuthorityToken(skips, w, e, jwks, nowMs, tolerance);
      if e.actor != "" && c.actor != e.actor then r == Err("wrong_actor")
      else if e.action != "" && e.action !in c.actions then r == Err("wrong_action")
      else if e.resource != "" && e.resource !in c.resources then r == Err("wrong_resource")
      else r == Ok(c.(ownerTrustId := None))
  {
    AcceptedIs(w.body.jwt, jwks, e.audience, nowMs, tolerance, c);
    AcceptedClaims(w.body.jwt, c, jwks, e.audience, nowMs, tolerance);
    hide Accepted, FindJwk, JwtVerify, ReadPayload;
  }

  /** A consumer looks at the owner first. */
  lemma ConsumerNamesMismatch(
      w: Wire, e: Expectation, ownerId: Option<string>, jwks: seq<Jwk>, nowMs: int, tolerance: int, c: Claims)
    requires w.body.Compact? && Accepted(w.body.jwt, c, jwks, e.audience, nowMs, tolerance)
    ensures var r := VerifyAuthority(w, e, ownerId, jwks, nowMs, tolerance);
      if ownerId.Some? && ownerId.value != "" && c.sub != ownerId.value then r == Err("wrong_owner")
      else if c.actor != e.actor then r == Err("wrong_actor")
      else if e.action !in c.actions then r == Err("wrong_action")
      else if e.resource !in c.resources then r == Err("wrong_resource")
      else r == Ok(c)
  {
    AcceptedIs(w.body.jwt, jwks, e.audience, nowMs, tolerance, c);
    AcceptedClaims(w.body.jwt, c, jwks, e.audience, nowMs, tolerance);
    hide Accepted, FindJwk, JwtVerify, ReadPayload;
  }

  /** Actors are told apart by what a token says of them. */
  lemma ActorKeyIsOwn(a: ActorRef, b: ActorRef)
    ensures ActorKey(a) == ActorKey(b) <==> a == b
  {
    if ActorKey(a) == ActorKey(b) {
      NoColon(a.kind);
      NoColon(b.kind);
      NamesDiffer(a.kind, b.kind);
      hide TypeName;
      NotShorter(TypeName(a.kind), a.id, TypeName(b.kind), b.id);
      NotShorter(TypeName(b.kind), b.id, TypeName(a.kind), a.id);
      var i := |TypeName(a.kind)|;
      assert TypeName(a.kind) == ActorKey(a)[..i] && TypeName(b.kind) == ActorKey(b)[..i];
      assert a.id == ActorKey(a)[i + 1..] && b.id == ActorKey(b)[i + 1..];
    }
  }

  lemma NoColon(t: ActorType)
    ensures ':' !in TypeName(t)
  {
  }

  lemma NotShorter(s: string, x: string, t: string, y: string)
    requires s + ":" + x == t + ":" + y && ':' !in t
    ensures |s| >= |t|
  {
    var u := s + ":" + x;
    assert u[|s|] == ':';
    forall k | 0 <= k < |t| ensures u[k] != ':' { assert u[k] == t[k]; }
  }

  lemma NamesDiffer(a: ActorType, b: ActorType)
    ensures TypeName(a) == TypeName(b) <==> a == b
  {
    assert TypeName(Human)[0] == 'h' && TypeName(App)[0] == 'a' && TypeName(Service)[0] == 's';
    assert TypeName(DigitalTwin)[1] == 'i' && TypeName(Device)[1] == 'e' && TypeName(Business)[0] == 'b';
    assert TypeName(DigitalTwin)[0] == 'd' && TypeName(Device)[0] == 'd';
  }
}
