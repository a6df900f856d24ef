/** The simplified JSON Web Token of the service: three base64url segments joined by '.'
    (the compact serialization of section 3.1 of RFC 7519), with the '=' padding stripped
    when a token is issued and restored before a segment is decoded (Appendix C of RFC 7515,
    section 5 of RFC 4648). Only the payload segment and the clock decide verification.

    Base64url, JSON, HMAC-SHA256 and the ISO-8601 date parser are not modelled: they are the
    fields of a `Primitives` value, and the one property the round trip needs from them, that
    decoding inverts encoding, is the predicate `Sound`. Instants are integers counting
    microseconds, the resolution of Python's `datetime`. */
module Jwt {
  import opened Wrappers
  import opened Text
  import opened Credentials

  type Byte = b: int | 0 <= b < 256

  const MicrosPerHour: int := 3_600_000_000

  /** The payload dictionary `create_jwt_token` serializes. */
  datatype Payload = Payload(user: string, roles: seq<string>, exp: int, iat: int)

  /** What `verify_jwt_token` reads back from a decoded payload. A field is `None` when its
      key is absent; `exp` is also `None` when its value cannot be turned into a datetime. */
  datatype Claims = Claims(user: Option<string>, roles: Option<seq<string>>, exp: Option<int>)

  datatype Primitives = Primitives(
    /** `base64.urlsafe_b64encode(data).decode()` */
    b64encode: seq<Byte> -> string,
    /** `base64.urlsafe_b64decode(text)`; `None` when it raises */
    b64decode: string -> Option<seq<Byte>>,
    /** `json.dumps({'alg': 'HS256', 'typ': 'JWT'}).encode()` */
    headerJson: seq<Byte>,
    /** `json.dumps(payload).encode()` */
    payloadJson: Payload -> seq<Byte>,
    /** `json.loads` followed by reading `exp` as a datetime; `None` when either raises */
    parseClaims: seq<Byte> -> Option<Claims>,
    /** `hmac.new(secret.encode(), message.encode(), hashlib.sha256).digest()` */
    hmacSha256: (string, string) -> seq<Byte>)

  predicate IsBase64UrlChar(c: char) {
    'A' <= c <= 'Z' || 'a' <= c <= 'z' || '0' <= c <= '9' || c == '-' || c == '_'
  }

  /** The shape of every `urlsafe_b64encode` output: a multiple of four characters, made of
      the URL-safe alphabet followed by at most two '='. */
  predicate PaddedBase64Url(e: string) {
    var body := StripTrailing(e, '=');
    |e| % 4 == 0 && |e| - |body| <= 2 &&
    forall i :: 0 <= i < |body| ==> IsBase64UrlChar(body[i])
  }

  /** The codecs behave as the standard library's do: encoder output is padded base64url,
      and decoding gives back what was encoded. */
  ghost predicate Sound(p: Primitives) {
    (forall data :: PaddedBase64Url(p.b64encode(data))) &&
    (forall data :: p.b64decode(p.b64encode(data)) == Some(data)) &&
    (forall pl :: p.parseClaims(p.payloadJson(pl)) == Some(Claims(Some(pl.user), Some(pl.roles), Some(pl.exp))))
  }

  /** `base64.urlsafe_b64encode(data).decode().rstrip('=')` */
  function Segment(p: Primitives, data: seq<Byte>): string {
    StripTrailing(p.b64encode(data), '=')
  }

  /** The payload issued at instant `now` for `hours` of validity. */
  function NewPayload(user: string, roles: Option<seq<string>>, now: int, hours: int): Payload {
    Payload(user, RolesOrDefault(roles), now + hours * MicrosPerHour, now)
  }

  /** `create_jwt_token(user, roles)` at instant `now`, with `JWT_EXPIRATION_HOURS == hours`
      and `JWT_SECRET == secret`. With sound codecs the token has exactly three
      '.'-separated segments, none containing '=', and its middle segment is the stripped
      encoding of the payload issued at `now`. */
  function CreateToken(p: Primitives, secret: string, hours: int, user: string,
                       roles: Option<seq<string>>, now: int): (r: string)
    ensures Sound(p) ==>
      var parts := SplitOn(r, '.');
      |parts| == 3 &&
      (forall i :: 0 <= i < 3 ==> '=' !in parts[i] && '.' !in parts[i]) &&
      parts[1] == Segment(p, p.payloadJson(NewPayload(user, roles, now, hours)))
  {
    var header := Segment(p, p.headerJson);
    var payload := Segment(p, p.payloadJson(NewPayload(user, roles, now, hours)));
    var signature := Segment(p, p.hmacSha256(secret, header + "." + payload));
    var parts := [header, payload, signature];
    assert Sound(p) ==>
             SplitOn(header + "." + payload + "." + signature, '.') == parts &&
             forall i :: 0 <= i < 3 ==> '=' !in parts[i] && '.' !in parts[i] by {
      if Sound(p) {
        JoinedSegments(p, p.headerJson, p.payloadJson(NewPayload(user, roles, now, hours)),
                       p.hmacSha256(secret, header + "." + payload));
      }
    }
    header + "." + payload + "." + signature
  }

  /** The padding step of `verify_jwt_token`: `4 - len % 4` copies of '=' unless that is 4. */
  function Repad(s: string): (r: string)
    ensures |r| % 4 == 0 && |s| <= |r| < |s| + 4
    ensures r[..|s|] == s && forall i :: |s| <= i < |r| ==> r[i] == '='
  {
    var padding := 4 - |s| % 4;
    if padding != 4 then s + Repeat('=', padding) else s
  }

  /** `verify_jwt_token(token)` at instant `now`. Every failure, including an exception
      inside the decoders, is `None`: a token without exactly three segments, a payload
      segment that does not decode, or decoded bytes that do not parse. */
  function VerifyToken(p: Primitives, token: string, now: int): (r: Option<AuthInfo>)
    ensures |SplitOn(token, '.')| != 3 ==> r == None
    ensures |SplitOn(token, '.')| == 3 && p.b64decode(Repad(SplitOn(token, '.')[1])).None? ==> r == None
    ensures (|SplitOn(token, '.')| == 3 && p.b64decode(Repad(SplitOn(token, '.')[1])).Some? &&
             p.parseClaims(p.b64decode(Repad(SplitOn(token, '.')[1])).value).None?) ==> r == None
    ensures r.Some? ==> r.value.authenticated
  {
    if token == [] then None
    else
      var parts := SplitOn(token, '.');
      if |parts| != 3 then None
      else
        match p.b64decode(Repad(parts[1]))
        case None => None
        case Some(bytes) =>
          match p.parseClaims(bytes)
          case None => None
          case Some(claims) =>
            if claims.exp.None? || now > claims.exp.value then None
            else Some(AuthInfo(claims.user, claims.roles.GetOr(["user"]), true))
  }

  // ---------------------------------------------------------------------------------------
  // Properties
  // ---------------------------------------------------------------------------------------

  lemma StrippedSegmentChars(p: Primitives, data: seq<Byte>)
    requires Sound(p)
    ensures '.' !in Segment(p, data) && '=' !in Segment(p, data)
  {
    assert PaddedBase64Url(p.b64encode(data));
    var s := Segment(p, data);
    forall i | 0 <= i < |s| ensures s[i] != '.' && s[i] != '=' {
      assert IsBase64UrlChar(s[i]);
    }
  }

  /** Re-padding a stripped encoder output restores it exactly. */
  lemma {:induction false} RepadRestoresPadding(e: string)
    requires PaddedBase64Url(e)
    ensures Repad(StripTrailing(e, '=')) == e
  {
    var body := StripTrailing(e, '=');
    StripTrailingRestores(e, '=');
    var k := |e| - |body|;
    assert |body| % 4 == (4 - k) % 4;
    if k == 0 {
      assert e == body;
    } else {
      assert Repad(body) == body + Repeat('=', k);
    }
  }

  /** Three stripped segments joined by '.' split back into exactly those segments. */
  lemma JoinedSegments(p: Primitives, a: seq<Byte>, b: seq<Byte>, c: seq<Byte>)
    requires Sound(p)
    ensures var parts := [Segment(p, a), Segment(p, b), Segment(p, c)];
      SplitOn(parts[0] + "." + parts[1] + "." + parts[2], '.') == parts &&
      forall i :: 0 <= i < 3 ==> '=' !in parts[i] && '.' !in parts[i]
  {
    var parts := [Segment(p, a), Segment(p, b), Segment(p, c)];
    StrippedSegmentChars(p, a);
    StrippedSegmentChars(p, b);
    StrippedSegmentChars(p, c);
    assert JoinWith(parts, ".") == parts[0] + "." + parts[1] + "." + parts[2] by {
      assert JoinWith(parts[1..], ".") == parts[1] + "." + parts[2];
    }
    SplitJoin(parts, '.');
  }

  /** Round trip: a token issued at `issued` verifies, at any instant up to and including its
      expiry, to the user and roles it was issued for; after the expiry it verifies to `None`. */
  lemma {:induction false} VerifyCreatedToken(p: Primitives, secret: string, hours: int, user: string,
                                              roles: Option<seq<string>>, issued: int, now: int)
    requires Sound(p)
    ensures VerifyToken(p, CreateToken(p, secret, hours, user, roles, issued), now) ==
      if now <= issued + hours * MicrosPerHour
      then Some(AuthInfo(Some(user), RolesOrDefault(roles), true))
      else None
  {
    var token := CreateToken(p, secret, hours, user, roles, issued);
    var pl := NewPayload(user, roles, issued, hours);
    var parts := SplitOn(token, '.');
    assert PaddedBase64Url(p.b64encode(p.payloadJson(pl)));
    RepadRestoresPadding(p.b64encode(p.payloadJson(pl)));
    assert Repad(parts[1]) == p.b64encode(p.payloadJson(pl));
    assert p.b64decode(Repad(parts[1])) == Some(p.payloadJson(pl));
    assert p.parseClaims(p.payloadJson(pl)) == Some(Claims(Some(pl.user), Some(pl.roles), Some(pl.exp)));
  }

  /** Verification looks at nothing but the payload segment and the clock: the header and
      signature segments are never examined. */
  lemma OnlyPayloadAndClockMatter(p: Primitives, t1: string, t2: string, now: int)
    requires |SplitOn(t1, '.')| == 3 && |SplitOn(t2, '.')| == 3
    requires SplitOn(t1, '.')[1] == SplitOn(t2, '.')[1]
    ensures VerifyToken(p, t1, now) == VerifyToken(p, t2, now)
  {
  }

  /** Once the payload segment of a three-segment token decodes and parses, the token is
      accepted exactly when the claims carry an expiry and the clock is not past it (the
      expiry instant itself is still accepted); an accepted token yields the claimed user and
      the claimed roles, `["user"]` when the payload has none. */
  lemma RefusedIffExpired(p: Primitives, token: string, now: int, bytes: seq<Byte>, claims: Claims)
    requires |SplitOn(token, '.')| == 3
    requires p.b64decode(Repad(SplitOn(token, '.')[1])) == Some(bytes)
    requires p.parseClaims(bytes) == Some(claims)
    ensures VerifyToken(p, token, now).Some? <==> claims.exp.Some? && now <= claims.exp.value
    ensures VerifyToken(p, token, now).Some? ==>
      VerifyToken(p, token, now).value ==
        AuthInfo(claims.user, if claims.roles.Some? then claims.roles.value else ["user"], true)
  {
  }
}
