/**
 * Authentication helpers without third-party libraries: password hashes stored as
 * `pbkdf2$<iterations>$<salt>$<key>` and signed, expiring tokens shaped like a JWT
 * (`<header>.<body>.<signature>`, each segment unpadded URL-safe Base64, the signature an
 * HMAC-SHA256 of the first two segments). The hash functions, UTF-8 and JSON are the
 * standard library's; the model takes them as a bundle of functions.
 */
module Security {
  import opened Wrappers
  import opened Text
  import opened Values
  import opened Base64Url

  /**
   * What the module calls but does not define: `str.encode("utf-8")`, `bytes.decode("utf-8")`
   * (`None` where it raises), `json.dumps` with compact separators (the flag is
   * `ensure_ascii`), `json.loads` (`None` where it raises), HMAC-SHA256 (key, message) and
   * PBKDF2-HMAC-SHA256 (password, salt, iterations).
   */
  datatype Crypto = Crypto(
    utf8: string -> seq<Byte>,
    fromUtf8: seq<Byte> -> Option<string>,
    dumps: (Json, bool) -> string,
    loads: string -> Option<Json>,
    hmacSha256: (seq<Byte>, seq<Byte>) -> seq<Byte>,
    pbkdf2: (seq<Byte>, seq<Byte>, nat) -> seq<Byte>)

  /** What tokens rely on: UTF-8 decoding undoes encoding, and loading undoes dumping of any value Python can hold. */
  ghost predicate Sound(c: Crypto)
  {
    (forall s {:trigger c.utf8(s)} :: c.fromUtf8(c.utf8(s)) == Some(s)) &&
    (forall j, ascii {:trigger c.dumps(j, ascii)} :: WellFormed(j) ==> c.loads(c.dumps(j, ascii)) == Some(j))
  }

  const SCHEME := "pbkdf2"
  const DEFAULT_ITERATIONS := 120000
  const SALT_BYTES := 16
  /** The largest iteration count `hashlib.pbkdf2_hmac` accepts (a C `int`). */
  const INT_MAX := 2147483647

  // ---------------- passwords ----------------

  /**
   * `hashlib.pbkdf2_hmac("sha256", password.encode("utf-8"), salt, iterations)`: raises
   * `ValueError` for fewer than one iteration and `OverflowError` beyond a C `int`.
   */
  function Pbkdf2(c: Crypto, password: string, salt: seq<Byte>, iterations: int): (r: Outcome<seq<Byte>>)
    ensures r.Returned? <==> 1 <= iterations <= INT_MAX
    ensures r.Returned? ==> r.value == c.pbkdf2(c.utf8(password), salt, iterations)
  {
    if iterations < 1 then Raised("iteration value must be greater than 0.")
    else if iterations > INT_MAX then Raised("iteration value is too great.")
    else Returned(c.pbkdf2(c.utf8(password), salt, iterations))
  }

  /** The stored form: the scheme, the iteration count in decimal, the salt and the key, `$`-separated. */
  function HashString(iterations: int, salt: seq<Byte>, key: seq<Byte>): string
  {
    SCHEME + "$" + IntToString(iterations) + "$" + Encode(salt) + "$" + Encode(key)
  }

  /**
   * `hash_password`: derive a key from the password and a fresh 16-byte salt (the salt that
   * `secrets.token_bytes(16)` draws is a parameter) and format it for storage. An iteration
   * count outside what PBKDF2 accepts raises.
   */
  function HashPassword(c: Crypto, password: string, salt: seq<Byte>, iterations: int): (r: Outcome<string>)
    requires |salt| == SALT_BYTES
    ensures r.Returned? <==> 1 <= iterations <= INT_MAX
    ensures r.Returned? ==>
      r.value == HashString(iterations, salt, c.pbkdf2(c.utf8(password), salt, iterations))
  {
    match Pbkdf2(c, password, salt, iterations)
    case Raised(e) => Raised(e)
    case Returned(key) => Returned(HashString(iterations, salt, key))
  }

  /** The stored form splits back, at its first three `$`, into its four fields. */
  lemma HashStringFields(iterations: int, salt: seq<Byte>, key: seq<Byte>)
    ensures SplitN(HashString(iterations, salt, key), '$', 3)
      == [SCHEME, IntToString(iterations), Encode(salt), Encode(key)]
  {
    EncodeIsUnpadded(salt);
    EncodeIsUnpadded(key);
    var it := IntToString(iterations);
    assert HashString(iterations, salt, key) == SCHEME + ['$'] + it + ['$'] + Encode(salt) + ['$'] + Encode(key);
    SplitFour(SCHEME, it, Encode(salt), Encode(key), '$');
  }

  /**
   * `verify_password`: split the stored form at its first three `$`, check the scheme, read
   * the iteration count, decode salt and key, derive a key from the candidate and compare.
   * Every failure along the way (too few fields, a bad number or Base64, PBKDF2 raising)
   * makes it `false`.
   */
  function VerifyPassword(c: Crypto, password: string, stored: string): (ok: bool)
    ensures ok ==> var fields := SplitN(stored, '$', 3);
      |fields| == 4 && fields[0] == SCHEME &&
      ParseInt(fields[1]).Some? && 1 <= ParseInt(fields[1]).value <= INT_MAX &&
      Decode(fields[2]).Some? && Decode(fields[3]).Some? &&
      c.pbkdf2(c.utf8(password), Decode(fields[2]).value, ParseInt(fields[1]).value) == Decode(fields[3]).value
  {
    var fields := SplitN(stored, '$', 3);
    if |fields| != 4 || fields[0] != SCHEME then false
    else
      match (ParseInt(fields[1]), Decode(fields[2]), Decode(fields[3]))
      case (Some(iterations), Some(salt), Some(expected)) =>
        (match Pbkdf2(c, password, salt, iterations)
         case Raised(_) => false
         case Returned(key) => key == expected)
      case _ => false
  }

  /** Verifying against a stored form whose four fields read back as these values. */
  lemma VerifyReadFields(c: Crypto, password: string, stored: string, iterations: int, salt: seq<Byte>, key: seq<Byte>)
    requires 1 <= iterations <= INT_MAX
    requires var fields := SplitN(stored, '$', 3);
      |fields| == 4 && fields[0] == SCHEME && ParseInt(fields[1]) == Some(iterations) &&
      Decode(fields[2]) == Some(salt) && Decode(fields[3]) == Some(key)
    ensures VerifyPassword(c, password, stored) <==> c.pbkdf2(c.utf8(password), salt, iterations) == key
  {
  }

  /** Verifying against a stored form made of these fields. */
  lemma VerifyFields(c: Crypto, password: string, iterations: int, salt: seq<Byte>, key: seq<Byte>)
    requires 1 <= iterations <= INT_MAX
    ensures VerifyPassword(c, password, HashString(iterations, salt, key))
      <==> c.pbkdf2(c.utf8(password), salt, iterations) == key
  {
    HashStringFields(iterations, salt, key);
    ParseIntRoundTrip(iterations);
    RoundTrip(salt);
    RoundTrip(key);
    VerifyReadFields(c, password, HashString(iterations, salt, key), iterations, salt, key);
  }

  /**
   * A hash made by `hash_password` accepts exactly the passwords whose derived key (same
   * salt, same iteration count) equals the original's: in particular the original password.
   */
  lemma HashThenVerify(c: Crypto, password: string, candidate: string, salt: seq<Byte>, iterations: int)
    requires |salt| == SALT_BYTES && HashPassword(c, password, salt, iterations).Returned?
    ensures var stored := HashPassword(c, password, salt, iterations).value;
      var key := c.pbkdf2(c.utf8(password), salt, iterations);
      VerifyPassword(c, candidate, stored) <==> c.pbkdf2(c.utf8(candidate), salt, iterations) == key
    ensures VerifyPassword(c, password, HashPassword(c, password, salt, iterations).value)
  {
    var key := c.pbkdf2(c.utf8(password), salt, iterations);
    VerifyFields(c, candidate, iterations, salt, key);
    VerifyFields(c, password, iterations, salt, key);
  }

  // ---------------- tokens ----------------

  /** The fixed token header `{"alg": "HS256", "typ": "ATHIR"}`. */
  const HEADER: Json := JObj([("alg", JStr("HS256")), ("typ", JStr("ATHIR"))])

  /**
   * The token body: a copy of the payload with `iat` set to the issue time unless the payload
   * has one, and `exp` set to the issue time plus the lifetime.
   */
  function TokenBody(payload: Fields, ttl: int, now: int): (body: Fields)
    ensures Get(body, "exp") == Some(JNum(now + ttl))
    ensures Get(body, "iat") == if "iat" in Keys(payload) then Get(payload, "iat") else Some(JNum(now))
    ensures forall k :: k != "iat" && k != "exp" ==> Get(body, k) == Get(payload, k)
  {
    Put(SetDefault(payload, "iat", JNum(now)), "exp", JNum(now + ttl))
  }

  /** The body made from a Python dict is a Python dict. */
  lemma TokenBodyWellFormed(payload: Fields, ttl: int, now: int)
    requires WellFormed(JObj(payload))
    ensures WellFormed(JObj(TokenBody(payload, ttl, now)))
  {
    var withIat := SetDefault(payload, "iat", JNum(now));
    if "iat" !in Keys(payload) {
      PutWellFormed(payload, "iat", JNum(now));
    }
    PutWellFormed(withIat, "exp", JNum(now + ttl));
  }

  /** The expiry `verify_token` reads from a token body is the issue time plus the lifetime. */
  lemma TokenExpiry(payload: Fields, ttl: int, now: int)
    ensures GetOr(TokenBody(payload, ttl, now), "exp", JNum(0)) == JNum(now + ttl)
  {
  }

  /** `_b64url_encode` of the UTF-8 of a JSON text. */
  function EncodeJson(c: Crypto, j: Json, ascii: bool): string
  {
    Encode(c.utf8(c.dumps(j, ascii)))
  }

  /** The HMAC-SHA256, keyed with the secret, of `<header>.<body>`. */
  function Signature(c: Crypto, secret: string, header: string, body: string): seq<Byte>
  {
    c.hmacSha256(c.utf8(secret), c.utf8(header + "." + body))
  }

  /**
   * `create_token`: the header and the body as compact JSON (the header ASCII-escaped, the
   * body not), each Base64-encoded, then the encoded signature over the two. The clock
   * reading is the parameter `now`.
   */
  function CreateToken(c: Crypto, payload: Fields, secret: string, ttl: int, now: int): (token: string)
  {
    var h := EncodeJson(c, HEADER, true);
    var b := EncodeJson(c, JObj(TokenBody(payload, ttl, now)), false);
    h + "." + b + "." + Encode(Signature(c, secret, h, b))
  }

  /** Python's `int(x)` of a JSON value; `None` where it raises. */
  function IntOf(j: Json): (r: Option<int>)
    ensures j.JNum? ==> r == Some(j.n)
    ensures j.JStr? ==> r == ParseInt(j.s)
    ensures j.JNull? || j.JList? || j.JObj? ==> r.None?
  {
    match j
    case JNum(n) => Some(n)
    case JBool(b) => Some(if b then 1 else 0)
    case JStr(s) => ParseInt(s)
    case _ => None
  }

  /**
   * `verify_token`: split at the first two `.`, check the signature, then decode and load the
   * body and check that `exp` (0 when absent) is not before the clock reading `now`. Any
   * failure (too few segments, bad Base64, UTF-8 or JSON, a body that is not a dict, an `exp`
   * that `int` refuses) gives `None`. Only a correctly signed, unexpired token yields its body.
   */
  function VerifyToken(c: Crypto, token: string, secret: string, now: int): (r: Option<Fields>)
    ensures r.Some? ==> var parts := SplitN(token, '.', 2);
      |parts| == 3 && Decode(parts[2]) == Some(Signature(c, secret, parts[0], parts[1])) &&
      BodyOf(c, parts[1]) == Some(r.value)
    ensures r.Some? ==> IntOf(GetOr(r.value, "exp", JNum(0))).Some? && IntOf(GetOr(r.value, "exp", JNum(0))).value >= now
    ensures var parts := SplitN(token, '.', 2);
      |parts| == 3 && BodyOf(c, parts[1]).None? ==> r.None?
    ensures var parts := SplitN(token, '.', 2);
      (|parts| == 3 && Decode(parts[2]) == Some(Signature(c, secret, parts[0], parts[1])) && BodyOf(c, parts[1]).Some? &&
       IntOf(GetOr(BodyOf(c, parts[1]).value, "exp", JNum(0))).Some? &&
       IntOf(GetOr(BodyOf(c, parts[1]).value, "exp", JNum(0))).value >= now) ==> r == BodyOf(c, parts[1])
  {
    var parts := SplitN(token, '.', 2);
    if |parts| != 3 then None
    else if Decode(parts[2]) != Some(Signature(c, secret, parts[0], parts[1])) then None
    else
      match BodyOf(c, parts[1])
      case None => None
      case Some(body) =>
        match IntOf(GetOr(body, "exp", JNum(0)))
        case Some(exp) => if exp < now then None else Some(body)
        case None => None
  }

  /**
   * `json.loads(_b64url_decode(segment).decode("utf-8"))` when it gives a dict; `None` when a
   * step raises or the value is not a dict.
   */
  function BodyOf(c: Crypto, segment: string): (r: Option<Fields>)
    ensures r.Some? ==> Decode(segment).Some? && c.fromUtf8(Decode(segment).value).Some? &&
                        c.loads(c.fromUtf8(Decode(segment).value).value) == Some(JObj(r.value))
  {
    match Decode(segment)
    case None => None
    case Some(bytes) =>
      match c.fromUtf8(bytes)
      case None => None
      case Some(text) =>
        match c.loads(text)
        case Some(JObj(body)) => Some(body)
        case _ => None
  }

  /** A token is three segments, none of which holds a `.`. */
  lemma TokenSegments(c: Crypto, payload: Fields, secret: string, ttl: int, now: int)
    ensures var h := EncodeJson(c, HEADER, true);
      var b := EncodeJson(c, JObj(TokenBody(payload, ttl, now)), false);
      SplitN(CreateToken(c, payload, secret, ttl, now), '.', 2)
        == [h, b, Encode(Signature(c, secret, h, b))]
  {
    var h := EncodeJson(c, HEADER, true);
    var b := EncodeJson(c, JObj(TokenBody(payload, ttl, now)), false);
    var s := Encode(Signature(c, secret, h, b));
    EncodeIsUnpadded(c.utf8(c.dumps(HEADER, true)));
    EncodeIsUnpadded(c.utf8(c.dumps(JObj(TokenBody(payload, ttl, now)), false)));
    EncodeIsUnpadded(Signature(c, secret, h, b));
    assert CreateToken(c, payload, secret, ttl, now) == h + ['.'] + b + ['.'] + s;
    SplitThree(h, b, s, '.');
  }

  /** Verifying a token whose segments read back as a correct signature and a token body. */
  lemma VerifyReadToken(c: Crypto, token: string, secret: string, later: int,
                         h: string, b: string, s: string, bytes: seq<Byte>, text: string,
                         payload: Fields, ttl: int, now: int)
    requires SplitN(token, '.', 2) == [h, b, s] && Decode(s) == Some(Signature(c, secret, h, b))
    requires Decode(b) == Some(bytes) && c.fromUtf8(bytes) == Some(text)
    requires c.loads(text) == Some(JObj(TokenBody(payload, ttl, now)))
    ensures VerifyToken(c, token, secret, later)
      == if now + ttl < later then None else Some(TokenBody(payload, ttl, now))
  {
    TokenExpiry(payload, ttl, now);
  }

  /** The segments of a fresh token decode back to the signature and the UTF-8 of the body's JSON text. */
  lemma TokenDecodes(c: Crypto, payload: Fields, secret: string, ttl: int, now: int)
    ensures var h := EncodeJson(c, HEADER, true);
      var text := c.dumps(JObj(TokenBody(payload, ttl, now)), false);
      var b := EncodeJson(c, JObj(TokenBody(payload, ttl, now)), false);
      var sig := Signature(c, secret, h, b);
      SplitN(CreateToken(c, payload, secret, ttl, now), '.', 2) == [h, b, Encode(sig)] &&
      Decode(Encode(sig)) == Some(sig) && Decode(b) == Some(c.utf8(text))
  {
    var h := EncodeJson(c, HEADER, true);
    var text := c.dumps(JObj(TokenBody(payload, ttl, now)), false);
    var b := EncodeJson(c, JObj(TokenBody(payload, ttl, now)), false);
    TokenSegments(c, payload, secret, ttl, now);
    RoundTrip(Signature(c, secret, h, b));
    RoundTrip(c.utf8(text));
  }

  /**
   * A token verifies, with the secret it was signed with, to its body exactly while the clock
   * has not passed `exp`; after that it is refused.
   */
  lemma CreateThenVerify(c: Crypto, payload: Fields, secret: string, ttl: int, now: int, later: int)
    requires Sound(c) && WellFormed(JObj(payload))
    ensures later <= now + ttl ==>
      VerifyToken(c, CreateToken(c, payload, secret, ttl, now), secret, later) == Some(TokenBody(payload, ttl, now))
    ensures later > now + ttl ==>
      VerifyToken(c, CreateToken(c, payload, secret, ttl, now), secret, later) == None
  {
    var body := TokenBody(payload, ttl, now);
    var h := EncodeJson(c, HEADER, true);
    var text := c.dumps(JObj(body), false);
    var b := EncodeJson(c, JObj(body), false);
    var sig := Signature(c, secret, h, b);
    var token := CreateToken(c, payload, secret, ttl, now);
    TokenDecodes(c, payload, secret, ttl, now);
    TokenBodyWellFormed(payload, ttl, now);
    assert c.fromUtf8(c.utf8(text)) == Some(text);
    assert c.loads(text) == Some(JObj(body));
    VerifyReadToken(c, token, secret, later, h, b, Encode(sig), c.utf8(text), text, payload, ttl, now);
  }

  /**
   * Checked with another secret, a token is accepted only if the two secrets give the same
   * HMAC of its first two segments.
   */
  lemma OtherSecretRefused(c: Crypto, payload: Fields, secret: string, other: string, ttl: int, now: int, later: int)
    ensures var h := EncodeJson(c, HEADER, true);
      var b := EncodeJson(c, JObj(TokenBody(payload, ttl, now)), false);
      VerifyToken(c, CreateToken(c, payload, secret, ttl, now), other, later).Some? ==>
        Signature(c, other, h, b) == Signature(c, secret, h, b)
  {
    TokenDecodes(c, payload, secret, ttl, now);
  }
}
