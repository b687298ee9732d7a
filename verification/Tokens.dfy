/**
 packages/digi-authority/src/tokens.ts and packages/authority-verifier/src/index.ts: minting, the
 service's verifier and the consumers' verifier.  Signatures are ideal: the only text that verifies
 under a key is the one that key signed.
 */
module Tokens {
  import opened JsValues
  import opened Results
  import opened AuthorityTypes
  import opened Claims

  datatype Header = Header(alg: string, kid: string)

  datatype Signature = Unsigned | SignedBy(key: nat, header: Header, payload: Payload)

  datatype Jwt = Jwt(header: Header, payload: Payload, signature: Signature)

  datatype Jwk = Jwk(kid: string, key: nat)

  datatype Body = Empty | Garbage | Compact(jwt: Jwt)

  type Blank = s: string | forall i :: 0 <= i < |s| ==> IsSpace(s[i])

  /** A token as text: whitespace around nothing, around text with no readable header, or around a JWT. */
  datatype Wire = Wire(lead: Blank, body: Body, trail: Blank)

  /** A token as a call was given it, and when it was verified. */
  datatype Shown = Shown(w: Wire, at: int)

  /**
   Whether `jwtVerify` reads the token through the whitespace around it.  What stands before the header
   is part of the text that is signed; what stands after the signature is left to its base64url
   decoding, and `skips` is the whitespace which that passes over.
   */
  predicate Legible(skips: string -> bool, w: Wire)
  {
    w.lead == "" && (w.trail == "" || skips(w.trail))
  }

  // ----- minting -----

  datatype MintInput = MintInput(
    ownerId: string, audience: string, actor: string, actions: seq<string>, resources: seq<string>, limits: Limits,
    approval: ApprovalMode, grantId: string, grantVersion: int, oneTime: bool, jti: string,
    ttlSeconds: Number, nowMs: int, clockSkewSeconds: int, ownerTrustId: Option<string>)

  function MintAuthorityToken(key: Jwk, input: MintInput): Result<(Wire, Claims)>
  {
    var ttl := input.ttlSeconds;
    if !ttl.Fin? || ttl.r != ttl.r.Floor as real || ttl.r <= 0.0 || ttl.r > TOKEN_TTL_SECONDS as real then
      Err("invalid_authority_ttl")
    else
      var iat := Seconds(input.nowMs);
      var claims := Claims(
        DIGI_AUTHORITY_ISSUER, input.ownerId, input.audience, input.actor, input.actions, input.resources, input.limits,
        input.approval, input.grantId, input.grantVersion, input.oneTime, input.jti,
        iat, iat - input.clockSkewSeconds, iat + ttl.r.Floor,
        if input.ownerTrustId == Some("") then None else input.ownerTrustId);
      var payload := ToPayload(claims);
      if !IsAuthorityClaimsShape(payload) then Err("invalid_authority_claims")
      else
        var header := Header("EdDSA", key.kid);
        Ok((Wire("", Compact(Jwt(header, payload, SignedBy(key.key, header, payload))), ""), claims))
  }

  // ----- what jose's jwtVerify accepts -----

  function FindJwk(jwks: seq<Jwk>, kid: string): Option<Jwk>
  {
    if jwks == [] then None else if jwks[0].kid == kid then Some(jwks[0]) else FindJwk(jwks[1..], kid)
  }

  predicate NamesAudience(aud: Value, audience: string)
  {
    aud == Str(audience) || (aud.Arr? && Str(audience) in aud.items)
  }

  /** Sections 4.1.1 to 4.1.7 of RFC 7519 with the options both verifiers pass; an empty audience is not checked. */
  predicate JwtVerify(jwt: Jwt, key: Jwk, audience: string, nowMs: int, tolerance: int)
  {
    var p := jwt.payload;
    && jwt.signature == SignedBy(key.key, jwt.header, p)
    && Undef !in [p.iss, p.sub, p.aud, p.iat, p.nbf, p.exp, p.jti]
    && p.iss == Str(DIGI_AUTHORITY_ISSUER)
    && (audience != "" ==> NamesAudience(p.aud, audience))
    && p.iat.Num? && p.nbf.Num? && p.exp.Num?
    && !p.nbf.n.Greater(Int(Seconds(nowMs) + tolerance))
    && p.exp.n.Greater(Int(Seconds(nowMs) - tolerance))
  }

  datatype Expectation = Expectation(audience: string, actor: string, action: string, resource: string)

  /** The claims part the two verifiers have in common. */
  function ReadPayload(p: Payload, nowMs: int): Result<Claims>
  {
    if !IsAuthorityClaimsShape(p) then Err("malformed")
    else if p.iat.n.Greater(Int(Seconds(nowMs))) then Err("not_yet_valid")
    else Ok(FromPayload(p))
  }

  // ----- verifyAuthorityToken -----

  /** An expectation left empty is not checked; the result never carries the owner's TrustID. */
  function VerifyAuthorityToken(
    skips: string -> bool, w: Wire, e: Expectation, jwks: seq<Jwk>, nowMs: int, tolerance: int): Result<Claims>
  {
    if !w.body.Compact? then Err("invalid_token")
    else
      var jwt := w.body.jwt;
      if jwt.header.alg != "EdDSA" then Err("bad_alg")
      else
        match FindJwk(jwks, jwt.header.kid)
        case None => Err("unknown_kid")
        case Some(jwk) =>
          if !Legible(skips, w) || !JwtVerify(jwt, jwk, e.audience, nowMs, tolerance) then Err("invalid_token")
          else
            match ReadPayload(jwt.payload, nowMs)
            case Err(reason) => Err(reason)
            case Ok(c) =>
              var claims := c.(ownerTrustId := None);
              if claims.sub == "" || claims.actor == "" || claims.jti == "" || claims.grantId == "" then
                Err("malformed")
              else if e.actor != "" && claims.actor != e.actor then Err("wrong_actor")
              else if e.action != "" && e.action !in claims.actions then Err("wrong_action")
              else if e.resource != "" && e.resource !in claims.resources then Err("wrong_resource")
              else Ok(claims)
  }

  // ----- verifyAuthority -----

  /** The consumers' verifier trims the text first and compares every expectation as it stands. */
  function VerifyAuthority(
      w: Wire, e: Expectation, ownerId: Option<string>, jwks: seq<Jwk>, nowMs: int, tolerance: int): Result<Claims>
  {
    if w.body.Empty? then Err("missing_token")
    else if w.body.Garbage? then Err("malformed_token")
    else
      var jwt := w.body.jwt;
      if jwt.header.alg != "EdDSA" then Err("bad_alg")
      else if jwks == [] then Err("no_jwks")
      else
        match FindJwk(jwks, jwt.header.kid)
        case None => Err("unknown_kid")
        case Some(jwk) =>
          if !JwtVerify(jwt, jwk, e.audience, nowMs, tolerance) then Err("invalid_token")
          else
            match ReadPayload(jwt.payload, nowMs)
            case Err(reason) => Err(reason)
            case Ok(claims) =>
              if claims.sub == "" || claims.actor == "" || claims.jti == "" || claims.grantId == "" then
                Err("malformed")
              else if ownerId.Some? && ownerId.value != "" && claims.sub != ownerId.value then Err("wrong_owner")
              else if claims.actor != e.actor then Err("wrong_actor")
              else if e.action !in claims.actions then Err("wrong_action")
              else if e.resource !in claims.resources then Err("wrong_resource")
              else Ok(claims)
  }

  /** The claims a token carries, but for the TrustID: the same for whoever reads them. */
  predicate Carries(w: Wire, c: Claims)
  {
    w.body.Compact? && IsAuthorityClaimsShape(w.body.jwt.payload) && SameClaims(FromPayload(w.body.jwt.payload), c)
  }

  predicate SameClaims(c: Claims, d: Claims)
  {
    c.(ownerTrustId := None) == d.(ownerTrustId := None)
  }

  /** What the caller expected and did not leave empty is what the claims say. */
  lemma VerifiedMatches(
    skips: string -> bool, w: Wire, e: Expectation, jwks: seq<Jwk>, nowMs: int, tolerance: int)
    requires VerifyAuthorityToken(skips, w, e, jwks, nowMs, tolerance).Ok?
    ensures var c := VerifyAuthorityToken(skips, w, e, jwks, nowMs, tolerance).value;
      && (e.audience != "" ==> c.aud == e.audience) && (e.actor != "" ==> c.actor == e.actor)
      && (e.action != "" ==> e.action in c.actions) && (e.resource != "" ==> e.resource in c.resources)
      && Carries(w, c)
  {
    hide IsText, IsScope, IsActorText, IsWhole, Texts;
    var p := w.body.jwt.payload;
    assert IsText(p.aud) ==> p.aud.Str? by { IsTextString(p.aud); }
  }

  lemma IsTextString(v: Value)
    ensures IsText(v) ==> v.Str?
  {
  }

  predicate Says(c: Claims, e: Expectation)
  {
    (e.audience != "" ==> c.aud == e.audience) && c.actor == e.actor && e.action in c.actions
    && e.resource in c.resources
  }

  /** What a consumer has verified: the expectations as they stand, and the owner if one was named. */
  lemma ConsumerMatches(
    w: Wire, e: Expectation, ownerId: Option<string>, jwks: seq<Jwk>, nowMs: int, tolerance: int)
    requires VerifyAuthority(w, e, ownerId, jwks, nowMs, tolerance).Ok?
    ensures var c := VerifyAuthority(w, e, ownerId, jwks, nowMs, tolerance).value;
      Says(c, e) && Carries(w, c) && (ownerId.Some? && ownerId.value != "" ==> c.sub == ownerId.value)
  {
    hide IsText, IsScope, IsActorText, IsWhole, Texts;
    var p := w.body.jwt.payload;
    assert IsText(p.aud) ==> p.aud.Str? by { IsTextString(p.aud); }
  }

  predicate Definite(e: Expectation)
  {
    e.audience != "" && e.actor != "" && e.action != "" && e.resource != ""
  }

  /**
   With the same keys and definite expectations the service accepts exactly the tokens the consumers
   accept that came with nothing before them and only skipped blanks after them, and reads the same
   claims but for the TrustID.
   */
  lemma VerifiersAgree(
    skips: string -> bool, w: Wire, e: Expectation, jwks: seq<Jwk>, nowMs: int, tolerance: int)
    requires Definite(e)
    ensures VerifyAuthorityToken(skips, w, e, jwks, nowMs, tolerance).Ok?
       <==> VerifyAuthority(w, e, None, jwks, nowMs, tolerance).Ok? && Legible(skips, w)
    ensures VerifyAuthorityToken(skips, w, e, jwks, nowMs, tolerance).Ok? ==>
      VerifyAuthorityToken(skips, w, e, jwks, nowMs, tolerance).value
        == VerifyAuthority(w, e, None, jwks, nowMs, tolerance).value.(ownerTrustId := None)
  {
    hide IsAuthorityClaimsShape, JwtVerify, FromPayload;
  }

  // ----- mint and verify undo each other -----

  predicate Meets(c: Claims, e: Expectation)
  {
    c.aud == e.audience && c.actor == e.actor && e.action in c.actions && e.resource in c.resources
  }

  /** The moments at which a token with these claims counts, for a clock tolerance. */
  predicate InForce(c: Claims, nowMs: int, tolerance: int)
  {
    c.iat <= Seconds(nowMs) && c.nbf <= Seconds(nowMs) + tolerance && Seconds(nowMs) < c.exp + tolerance
  }

  lemma WholeSeconds(a: int, b: int)
    ensures Int(a).Greater(Int(b)) <==> a > b
  {
  }

  lemma MintedVerifies(
    skips: string -> bool, key: Jwk, input: MintInput, jwks: seq<Jwk>, e: Expectation, nowMs: int, tolerance: int)
    requires MintAuthorityToken(key, input).Ok? && FindJwk(jwks, key.kid) == Some(key) && Definite(e)
    ensures var (w, c) := MintAuthorityToken(key, input).value;
      VerifyAuthorityToken(skips, w, e, jwks, nowMs, tolerance).Ok? <==> InForce(c, nowMs, tolerance) && Meets(c, e)
    ensures var (w, c) := MintAuthorityToken(key, input).value;
      InForce(c, nowMs, tolerance) && Meets(c, e) ==>
        VerifyAuthorityToken(skips, w, e, jwks, nowMs, tolerance) == Ok(c.(ownerTrustId := None))
        && VerifyAuthority(w, e, None, jwks, nowMs, tolerance) == Ok(c)
  {
    var (w, c) := MintAuthorityToken(key, input).value;
    PayloadKeepsClaims(c);
    var p := w.body.jwt.payload;
    hide FromPayload;
    WholeSeconds(c.iat, Seconds(nowMs));
    WholeSeconds(c.nbf, Seconds(nowMs) + tolerance);
    WholeSeconds(c.exp, Seconds(nowMs) - tolerance);
    assert IsText(p.sub) && IsText(p.actor) && IsText(p.jti) && IsText(p.grantId);
    assert JwtVerify(w.body.jwt, key, e.audience, nowMs, tolerance) <==>
      c.aud == e.audience && c.nbf <= Seconds(nowMs) + tolerance && Seconds(nowMs) < c.exp + tolerance;
    assert jwks != [];
    hide IsAuthorityClaimsShape, JwtVerify, ToPayload, MintAuthorityToken;
  }

  /** No skew and no tolerance: accepted exactly for the seconds from `iat` up to and without `exp`. */
  lemma MintedWindow(
    skips: string -> bool, key: Jwk, input: MintInput, jwks: seq<Jwk>, e: Expectation, nowMs: int)
    requires MintAuthorityToken(key, input).Ok? && FindJwk(jwks, key.kid) == Some(key) && Definite(e)
    requires input.clockSkewSeconds == 0
    ensures var (w, c) := MintAuthorityToken(key, input).value;
      VerifyAuthorityToken(skips, w, e, jwks, nowMs, 0).Ok? <==> c.iat <= Seconds(nowMs) < c.exp && Meets(c, e)
  {
    MintedVerifies(skips, key, input, jwks, e, nowMs, 0);
    hide VerifyAuthorityToken, IsAuthorityClaimsShape, ToPayload;
  }

  /**
   Whitespace is what separates the two verifiers on a token in force: consumers accept it through any,
   the service only through what its signature decoding skips, and never through whitespace in front.
   */
  lemma PaddedTokenDisagrees(
    skips: string -> bool, key: Jwk, input: MintInput, e: Expectation, nowMs: int, lead: Blank, trail: Blank)
    requires MintAuthorityToken(key, input).Ok? && Definite(e)
    requires var c := MintAuthorityToken(key, input).value.1; InForce(c, nowMs, 0) && Meets(c, e)
    ensures var padded := MintAuthorityToken(key, input).value.0.(lead := lead, trail := trail);
      VerifyAuthority(padded, e, None, [key], nowMs, 0).Ok?
      && (VerifyAuthorityToken(skips, padded, e, [key], nowMs, 0).Ok? <==> lead == "" && (trail == "" || skips(trail)))
  {
    MintedVerifies(skips, key, input, [key], e, nowMs, 0);
    hide IsAuthorityClaimsShape, JwtVerify, ToPayload, FromPayload;
    var w := MintAuthorityToken(key, input).value.0;
    var padded := w.(lead := lead, trail := trail);
    assert VerifyAuthority(padded, e, None, [key], nowMs, 0) == VerifyAuthority(w, e, None, [key], nowMs, 0);
    VerifiersAgree(skips, padded, e, [key], nowMs, 0);
  }
}
