/** Parsing of compact JWS tokens (section 7.1 of RFC 7515) and the decision of the sidecar's
    `/auth-verify`. HMAC-SHA-256 and JSON decoding stay uninterpreted. */
module EdgeJwt {
  import opened Wrappers
  import opened Strings
  import opened Base64Url

  datatype Claims = Claims(sub: string, scope: string, exp: int, jti: string)

  /** What the decision relies on. `mac` maps a secret and a text to the MAC of the text. */
  datatype Library = Library(lower: char -> char, space: char -> bool,
                             mac: (string, string) -> seq<Byte>,
                             algorithm: seq<Byte> -> Option<string>, isHs256: string -> bool,
                             claims: seq<Byte> -> Option<Claims>)

  datatype Verdict = MethodNotAllowed | Unavailable | Unauthorized | Accepted(userId: string, scope: string)

  datatype Parsed = Parsed(header: seq<Byte>, payload: seq<Byte>, signature: seq<Byte>)

  function ParseJwt(token: string): Option<Parsed> {
    var parts := Split(token, '.');
    if |parts| != 3 then None
    else match (Decode(parts[0]), Decode(parts[1]), Decode(parts[2]))
      case (Some(h), Some(p), Some(s)) => Some(Parsed(h, p, s))
      case _ => None
  }

  /** The text whose MAC the handler computes. */
  function MacInput(token: string): string
    requires |Split(token, '.')| == 3
  {
    var parts := Split(token, '.');
    parts[0] + "." + parts[1]
  }

  /** The token in an Authorization header, with or without the "Bearer " prefix. */
  function BearerToken(lib: Library, header: string): string {
    var auth := Trim(header, lib.space);
    if |auth| >= 7 && Map(auth[..7], lib.lower) == "bearer " then Trim(auth[7..], lib.space) else auth
  }

  function Verify(lib: Library, secret: string, getOrHead: bool, header: string, now: int): Verdict {
    if !getOrHead then MethodNotAllowed
    else if secret == "" then Unavailable
    else if Trim(header, lib.space) == "" then Unauthorized
    else
      var token := BearerToken(lib, header);
      match ParseJwt(token)
      case None => Unauthorized
      case Some(parsed) =>
        var alg := lib.algorithm(parsed.header);
        if alg.None? || !lib.isHs256(alg.value) then Unauthorized
        else if lib.mac(secret, MacInput(token)) != parsed.signature then Unauthorized
        else match lib.claims(parsed.payload)
          case None => Unauthorized
          case Some(c) =>
            if c.sub == "" || c.jti == "" then Unauthorized
            else if c.exp != 0 && now > c.exp then Unauthorized
            else Accepted(c.sub, if c.scope == "" then "service" else c.scope)
  }

  /** The compact serialisation of three byte strings. */
  function Compact(parsed: Parsed): string {
    SigningInput(parsed) + "." + Encode(parsed.signature)
  }

  /** The JWS signing input of section 5.2 of RFC 7515. */
  function SigningInput(parsed: Parsed): string {
    Encode(parsed.header) + "." + Encode(parsed.payload)
  }

  lemma JoinThree(a: string, b: string, c: string)
    ensures Join([a, b, c], '.') == a + "." + b + "." + c
  {
    assert [a, b, c][1..] == [b, c] && [b, c][1..] == [c];
    assert Join([c], '.') == c;
    assert Join([b, c], '.') == b + "." + c;
  }

  lemma CompactParts(parsed: Parsed)
    ensures Split(Compact(parsed), '.') == [Encode(parsed.header), Encode(parsed.payload), Encode(parsed.signature)]
  {
    var parts := [Encode(parsed.header), Encode(parsed.payload), Encode(parsed.signature)];
    DecodeEncode(parsed.header);
    DecodeEncode(parsed.payload);
    DecodeEncode(parsed.signature);
    assert Value('.').None?;
    SplitJoin(parts, '.');
    JoinThree(parts[0], parts[1], parts[2]);
  }

  /** `parseJWT` undoes the compact serialisation of any three byte strings. */
  lemma ParseCompact(parsed: Parsed)
    ensures ParseJwt(Compact(parsed)) == Some(parsed)
    ensures |Split(Compact(parsed), '.')| == 3 && MacInput(Compact(parsed)) == SigningInput(parsed)
  {
    CompactParts(parsed);
    DecodeEncode(parsed.header);
    DecodeEncode(parsed.payload);
    DecodeEncode(parsed.signature);
  }

  /** For every token that parses, the text given to the MAC is exactly the token's text before
      its last dot, and the signature is what the text after it decodes to. */
  lemma MacCoversAllButSignature(token: string) returns (dot: nat)
    requires ParseJwt(token).Some?
    ensures dot < |token| && token[dot] == '.' && '.' !in token[dot + 1..]
    ensures MacInput(token) == token[..dot]
    ensures Decode(token[dot + 1..]) == Some(ParseJwt(token).value.signature)
  {
    var parts := Split(token, '.');
    JoinSplit(token, '.');
    SplitFree(token, '.');
    assert parts == [parts[0], parts[1], parts[2]];
    JoinThree(parts[0], parts[1], parts[2]);
    assert token == MacInput(token) + "." + parts[2];
    dot := |MacInput(token)|;
    assert token[dot + 1..] == parts[2];
  }

  /** The token is three dot-free texts h, p, s: a header naming HS256, the claims of user `sub`
      not yet expired, and the MAC of "h.p" under the secret. */
  ghost predicate Genuine(lib: Library, secret: string, token: string, now: int, verdict: Verdict, h: string,
                          p: string, s: string) {
    && token == h + "." + p + "." + s && Free([h, p, s], '.')
    && Decode(h).Some? && Decode(p).Some?
    && Decode(s) == Some(lib.mac(secret, h + "." + p))
    && (exists alg :: lib.algorithm(Decode(h).value) == Some(alg) && lib.isHs256(alg))
    && var claims := lib.claims(Decode(p).value);
       && claims.Some? && claims.value.sub != "" && claims.value.jti != ""
       && (claims.value.exp == 0 || now <= claims.value.exp)
       && verdict == Accepted(claims.value.sub, if claims.value.scope == "" then "service" else claims.value.scope)
  }

  /** The handler accepts a request, and answers this user and scope, exactly when a secret is
      configured and the request carries a genuine token for them. */
  lemma AcceptedExactly(lib: Library, secret: string, getOrHead: bool, header: string, now: int, verdict: Verdict)
    requires verdict.Accepted?
    ensures Verify(lib, secret, getOrHead, header, now) == verdict
            <==> getOrHead && secret != "" && Trim(header, lib.space) != ""
                 && exists h, p, s :: Genuine(lib, secret, BearerToken(lib, header), now, verdict, h, p, s)
  {
    var token := BearerToken(lib, header);
    if Verify(lib, secret, getOrHead, header, now) == verdict {
      var parts := Split(token, '.');
      JoinSplit(token, '.');
      SplitFree(token, '.');
      assert parts == [parts[0], parts[1], parts[2]];
      JoinThree(parts[0], parts[1], parts[2]);
      assert Genuine(lib, secret, token, now, verdict, parts[0], parts[1], parts[2]);
    }
    if h, p, s :| Genuine(lib, secret, token, now, verdict, h, p, s) {
      JoinThree(h, p, s);
      SplitJoin([h, p, s], '.');
    }
  }

  /** What a request that is not accepted is answered. */
  lemma RefusedExactly(lib: Library, secret: string, getOrHead: bool, header: string, now: int)
    ensures var verdict := Verify(lib, secret, getOrHead, header, now);
            && (verdict.MethodNotAllowed? <==> !getOrHead)
            && (verdict.Unavailable? <==> getOrHead && secret == "")
            && (verdict.Unauthorized? <==>
                getOrHead && secret != ""
                && !(Trim(header, lib.space) != ""
                     && exists accepted, h, p, s ::
                          Genuine(lib, secret, BearerToken(lib, header), now, accepted, h, p, s)))
  {
    var verdict := Verify(lib, secret, getOrHead, header, now);
    if verdict.Accepted? {
      AcceptedExactly(lib, secret, getOrHead, header, now, verdict);
    }
    if accepted, h, p, s :| Genuine(lib, secret, BearerToken(lib, header), now, accepted, h, p, s) {
      AcceptedExactly(lib, secret, getOrHead, header, now, accepted);
    }
  }

  /** The characters of a compact token: the base64url alphabet and the dot. */
  predicate TokenChar(c: char) {
    Value(c).Some? || c == '.'
  }

  /** White space and letter case as far as they concern tokens. */
  ghost predicate Sane(lib: Library) {
    forall c :: TokenChar(c) ==> !lib.space(c) && lib.lower(c) != ' '
  }

  /** Nothing, or "Bearer " in some letter case. */
  ghost predicate IsPrefix(lib: Library, prefix: string) {
    prefix == "" || (|prefix| == 7 && Map(prefix, lib.lower) == "bearer " && !lib.space(prefix[0]))
  }

  ghost predicate Blank(lib: Library, text: string) {
    forall c :: c in text ==> lib.space(c)
  }

  /** An Authorization header: the token, bare or after the prefix and any white space, with any white
      space around it. */
  ghost predicate Carries(lib: Library, header: string, token: string, before: string, prefix: string,
                          between: string, after: string) {
    && header == before + (prefix + between + token) + after && IsPrefix(lib, prefix)
    && Blank(lib, before) && Blank(lib, between) && Blank(lib, after) && (prefix == "" ==> between == "")
  }

  /** The token is recovered from the header, with or without the prefix. */
  lemma BearerRoundTrip(lib: Library, header: string, token: string, before: string, prefix: string, between: string,
                        after: string)
    requires Sane(lib) && Carries(lib, header, token, before, prefix, between, after)
    requires token != "" && forall c :: c in token ==> TokenChar(c)
    ensures Trim(header, lib.space) == prefix + between + token
    ensures BearerToken(lib, header) == token
  {
    var inner, last := prefix + between + token, token[|token| - 1];
    assert TokenChar(token[0]) && TokenChar(last);
    assert inner[|inner| - 1] == last && inner[0] == if prefix == "" then token[0] else prefix[0];
    TrimRemoves(before, inner, after, lib.space);
    if prefix == "" {
      assert inner == token;
      if |token| >= 7 {
        assert TokenChar(token[6]) && Map(token[..7], lib.lower)[6] == lib.lower(token[6]) != ' ' == "bearer "[6];
      }
    } else {
      assert inner[..7] == prefix && inner[7..] == between + token + "";
      TrimRemoves(between, token, "", lib.space);
    }
  }

  lemma CompactChars(parsed: Parsed)
    ensures Compact(parsed) != "" && forall c :: c in Compact(parsed) ==> TokenChar(c)
  {
    DecodeEncode(parsed.header);
    DecodeEncode(parsed.payload);
    DecodeEncode(parsed.signature);
  }

  /** An issuer that shares the secret is accepted: a token whose header names HS256, whose
      payload carries a subject and an ID and has not expired, and whose signature is the MAC of
      the signing input, sent bare or after "Bearer " in any letter case. */
  lemma IssuedTokenAccepted(lib: Library, secret: string, header: string, parsed: Parsed, claims: Claims, now: int,
                            before: string, prefix: string, between: string, after: string)
    requires Sane(lib) && Carries(lib, header, Compact(parsed), before, prefix, between, after)
    requires secret != "" && lib.mac(secret, SigningInput(parsed)) == parsed.signature
    requires lib.algorithm(parsed.header).Some? && lib.isHs256(lib.algorithm(parsed.header).value)
    requires lib.claims(parsed.payload) == Some(claims) && claims.sub != "" && claims.jti != ""
    requires claims.exp == 0 || now <= claims.exp
    ensures Verify(lib, secret, true, header, now)
            == Accepted(claims.sub, if claims.scope == "" then "service" else claims.scope)
  {
    ParseCompact(parsed);
    CompactChars(parsed);
    BearerRoundTrip(lib, header, Compact(parsed), before, prefix, between, after);
  }
}
