/**
 * The request signer `ChainlinkAuth` (src/auth.ts). Its two fields are written only
 * by the constructor, so a signer is a value and every operation a function of the
 * credentials and the request. `Date.now()` is the parameter `now`; SHA-256
 * (FIPS 180-4) and HMAC-SHA256 (RFC 2104) are uninterpreted functions returning hex
 * strings, held in a `Crypto` value.
 */
module Auth {
  import opened Optional
  import opened Strings

  /** `new ChainlinkAuth({apiKey, apiSecret})`. */
  datatype ChainlinkAuth = ChainlinkAuth(apiKey: string, apiSecret: string)

  /** The characters `digest('hex')` writes: lower-case hexadecimal digits. */
  predicate IsHex(s: string) {
    forall i :: 0 <= i < |s| ==> s[i] in "0123456789abcdef"
  }

  type HexDigest = s: string | IsHex(s) witness ""

  /** The hex digests: `createHash('sha256')` and `createHmac('sha256', key)`. */
  datatype Crypto = Crypto(sha256Hex: string -> HexDigest, hmacSha256Hex: (string, string) -> HexDigest)

  const AuthorizationHeader: string := "Authorization"
  const TimestampHeader: string := "X-Authorization-Timestamp"
  const SignatureHeader: string := "X-Authorization-Signature-SHA256"

  /** `hashBody`: the SHA-256 hex digest of the body, which depends on nothing else. */
  function HashBody(crypto: Crypto, body: string): (digest: HexDigest)
    ensures digest == crypto.sha256Hex(body)
  {
    crypto.sha256Hex(body)
  }

  /** `createSignature`: the HMAC-SHA256 hex digest of the string, keyed by the API secret alone. */
  function CreateSignature(auth: ChainlinkAuth, crypto: Crypto, stringToSign: string): (signature: HexDigest)
    ensures signature == crypto.hmacSha256Hex(auth.apiSecret, stringToSign)
  {
    crypto.hmacSha256Hex(auth.apiSecret, stringToSign)
  }

  /** The five space-separated fields of a string to sign. */
  predicate SpaceFree(httpMethod: string, path: string, bodyHash: string, apiKey: string) {
    ' ' !in httpMethod && ' ' !in path && ' ' !in bodyHash && ' ' !in apiKey
  }

  /**
   * The canonical string `${method} ${path} ${bodyHash} ${apiKey} ${timestamp}`.
   * Its last space-separated field is always the decimal timestamp, and when the
   * other four fields contain no space, splitting at spaces recovers all five.
   */
  function StringToSign(httpMethod: string, path: string, bodyHash: string, apiKey: string, timestamp: nat): (s: string)
    ensures Split(s, ' ')[|Split(s, ' ')| - 1] == Decimal(timestamp)
    ensures SpaceFree(httpMethod, path, bodyHash, apiKey) ==>
      Split(s, ' ') == [httpMethod, path, bodyHash, apiKey, Decimal(timestamp)]
  {
    var s := httpMethod + " " + path + " " + bodyHash + " " + apiKey + " " + Decimal(timestamp);
    StringToSignFields(httpMethod, path, bodyHash, apiKey, timestamp);
    s
  }

  lemma StringToSignFields(httpMethod: string, path: string, bodyHash: string, apiKey: string, timestamp: nat)
    ensures var s := httpMethod + " " + path + " " + bodyHash + " " + apiKey + " " + Decimal(timestamp);
            && Split(s, ' ')[|Split(s, ' ')| - 1] == Decimal(timestamp)
            && (SpaceFree(httpMethod, path, bodyHash, apiKey) ==>
                 Split(s, ' ') == [httpMethod, path, bodyHash, apiKey, Decimal(timestamp)])
  {
    var d := Decimal(timestamp);
    SpaceFreeDecimal(timestamp);
    SplitNoSeparator(d, ' ');
    SplitAtSeparator(httpMethod + " " + path + " " + bodyHash + " " + apiKey, d, ' ');
    if SpaceFree(httpMethod, path, bodyHash, apiKey) {
      SplitNoSeparator(httpMethod, ' ');
      SplitNoSeparator(path, ' ');
      SplitNoSeparator(bodyHash, ' ');
      SplitNoSeparator(apiKey, ' ');
      SplitAtSeparator(httpMethod + " " + path + " " + bodyHash, apiKey, ' ');
      SplitAtSeparator(httpMethod + " " + path, bodyHash, ' ');
      SplitAtSeparator(httpMethod, path, ' ');
    }
  }

  lemma SpaceFreeDecimal(n: nat)
    ensures ' ' !in Decimal(n)
  {
  }

  /**
   * `generateAuthHeaders(method, path, body = '')`: exactly the three headers, the
   * identity header carrying the API key, the timestamp header the decimal `now`, and
   * the signature the HMAC under the secret of the canonical string for the same `now`.
   */
  function GenerateAuthHeaders(auth: ChainlinkAuth, crypto: Crypto, httpMethod: string, path: string,
                               body: Option<string>, now: nat): (h: map<string, string>)
    ensures h.Keys == {AuthorizationHeader, TimestampHeader, SignatureHeader} && |h| == 3
    ensures h[AuthorizationHeader] == auth.apiKey
    ensures h[TimestampHeader] == Decimal(now)
    ensures h[SignatureHeader] ==
      crypto.hmacSha256Hex(auth.apiSecret,
        StringToSign(httpMethod, path, crypto.sha256Hex(body.GetOr("")), auth.apiKey, now))
  {
    var timestamp := now;
    var bodyHash := HashBody(crypto, body.GetOr(""));
    var stringToSign := StringToSign(httpMethod, path, bodyHash, auth.apiKey, timestamp);
    var signature := CreateSignature(auth, crypto, stringToSign);
    map[AuthorizationHeader := auth.apiKey,
        TimestampHeader := Decimal(timestamp),
        SignatureHeader := signature]
  }

  /**
   * `generateWebSocketAuthHeaders(path)`: the source spells the canonical string out
   * with the method `GET` and the digest of the empty body.
   */
  function GenerateWebSocketAuthHeaders(auth: ChainlinkAuth, crypto: Crypto, path: string, now: nat): (h: map<string, string>)
    ensures h.Keys == {AuthorizationHeader, TimestampHeader, SignatureHeader} && |h| == 3
    ensures h[AuthorizationHeader] == auth.apiKey && h[TimestampHeader] == Decimal(now)
  {
    var timestamp := now;
    var bodyHash := HashBody(crypto, "");
    var stringToSign := "GET " + path + " " + bodyHash + " " + auth.apiKey + " " + Decimal(timestamp);
    var signature := CreateSignature(auth, crypto, stringToSign);
    map[AuthorizationHeader := auth.apiKey,
        TimestampHeader := Decimal(timestamp),
        SignatureHeader := signature]
  }

  /** The WebSocket handshake headers are the generic ones for `GET` with an empty body. */
  lemma WebSocketIsGetWithEmptyBody(auth: ChainlinkAuth, crypto: Crypto, path: string, now: nat)
    ensures GenerateWebSocketAuthHeaders(auth, crypto, path, now)
         == GenerateAuthHeaders(auth, crypto, "GET", path, Some(""), now)
  {
    var h := crypto.sha256Hex("");
    var d := Decimal(now);
    assert "GET " + path + " " + h + " " + auth.apiKey + " " + d
        == StringToSign("GET", path, h, auth.apiKey, now);
  }

  /** Leaving `body` out signs the same headers as passing the empty string. */
  lemma OmittedBodyIsEmpty(auth: ChainlinkAuth, crypto: Crypto, httpMethod: string, path: string, now: nat)
    ensures GenerateAuthHeaders(auth, crypto, httpMethod, path, None, now)
         == GenerateAuthHeaders(auth, crypto, httpMethod, path, Some(""), now)
  {
  }

  /**
   * The timestamp header and the timestamp signed agree: the header reads back as
   * `now`, and it is exactly the last field of the string that was signed.
   */
  lemma {:induction false} TimestampConsistent(auth: ChainlinkAuth, crypto: Crypto, httpMethod: string, path: string,
                                               body: Option<string>, now: nat)
    ensures var h := GenerateAuthHeaders(auth, crypto, httpMethod, path, body, now);
            var fields := Split(StringToSign(httpMethod, path, crypto.sha256Hex(body.GetOr("")), auth.apiKey, now), ' ');
            AllDigits(h[TimestampHeader]) && DigitsValue(h[TimestampHeader]) == now &&
            fields[|fields| - 1] == h[TimestampHeader]
  {
    DecimalRoundTrip(now);
  }

  /** The hash and the keyed hash are collision-free (assumed of the real primitives). */
  ghost predicate CollisionFree(crypto: Crypto, secret: string) {
    (forall x, y :: crypto.sha256Hex(x) == crypto.sha256Hex(y) ==> x == y) &&
    (forall x, y :: crypto.hmacSha256Hex(secret, x) == crypto.hmacSha256Hex(secret, y) ==> x == y)
  }

  /**
   * With a space-free method and path and a hex digest, the fields of a string to
   * sign are those three, then the key's own space-separated pieces, then the
   * timestamp, whatever spaces the key holds.
   */
  lemma {:induction false} StringToSignPieces(httpMethod: string, path: string, bodyHash: HexDigest, apiKey: string, timestamp: nat)
    requires ' ' !in httpMethod && ' ' !in path
    ensures Split(StringToSign(httpMethod, path, bodyHash, apiKey, timestamp), ' ')
         == [httpMethod, path, bodyHash] + Split(apiKey, ' ') + [Decimal(timestamp)]
  {
    var d := Decimal(timestamp);
    SpaceFreeDecimal(timestamp);
    SplitNoSeparator(d, ' ');
    SplitNoSeparator(httpMethod, ' ');
    SplitNoSeparator(path, ' ');
    SplitNoSeparator(bodyHash, ' ');
    SplitAtSeparator(httpMethod + " " + path + " " + bodyHash + " " + apiKey, d, ' ');
    SplitAtSeparator(httpMethod + " " + path + " " + bodyHash, apiKey, ' ');
    SplitAtSeparator(httpMethod + " " + path, bodyHash, ' ');
    SplitAtSeparator(httpMethod, path, ' ');
  }

  /**
   * For collision-free primitives, a signature binds the method, path, body and
   * timestamp when the method and path contain no space: equal signatures under one
   * signer come from equal requests. The API key may contain spaces, since both
   * signed strings carry the same one.
   */
  lemma SignatureBindsRequest(auth: ChainlinkAuth, crypto: Crypto,
                              m1: string, p1: string, b1: string, t1: nat,
                              m2: string, p2: string, b2: string, t2: nat)
    requires CollisionFree(crypto, auth.apiSecret)
    requires ' ' !in m1 && ' ' !in p1 && ' ' !in m2 && ' ' !in p2
    requires GenerateAuthHeaders(auth, crypto, m1, p1, Some(b1), t1)[SignatureHeader]
          == GenerateAuthHeaders(auth, crypto, m2, p2, Some(b2), t2)[SignatureHeader]
    ensures m1 == m2 && p1 == p2 && b1 == b2 && t1 == t2
  {
    var h1, h2 := crypto.sha256Hex(b1), crypto.sha256Hex(b2);
    var s1 := StringToSign(m1, p1, h1, auth.apiKey, t1);
    var s2 := StringToSign(m2, p2, h2, auth.apiKey, t2);
    assert s1 == s2;
    StringToSignPieces(m1, p1, h1, auth.apiKey, t1);
    StringToSignPieces(m2, p2, h2, auth.apiKey, t2);
    var f := Split(s1, ' ');
    assert f[0] == m1 && f[0] == m2;
    assert f[1] == p1 && f[1] == p2;
    assert f[2] == h1 && f[2] == h2;
    assert f[|f| - 1] == Decimal(t1) && f[|f| - 1] == Decimal(t2);
    DecimalInjective(t1, t2);
  }

  /**
   * Without the space-free hypothesis the template does not bind the request: a
   * method ending in ` x` and a path starting with `x ` can trade that word, and the
   * two requests get the same headers, signature included.
   */
  lemma SpaceInMethodOrPathIsAmbiguous(auth: ChainlinkAuth, crypto: Crypto, path: string, now: nat)
    ensures GenerateAuthHeaders(auth, crypto, "GET x", path, Some(""), now)
         == GenerateAuthHeaders(auth, crypto, "GET", "x " + path, Some(""), now)
  {
    var h := crypto.sha256Hex("");
    assert StringToSign("GET x", path, h, auth.apiKey, now)
        == StringToSign("GET", "x " + path, h, auth.apiKey, now);
  }
}
