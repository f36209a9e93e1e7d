/**
  Signed compact tokens (JWS with HMAC-SHA256, section 3 of RFC 7515, carrying
  a JWT claims set, section 4 of RFC 7519) as the jjwt library builds and
  parses them. The signature is not computed: a token records the claims and
  the secret it was signed with, and parsing with a secret checks equality.
  The claims are kept in the form parsing returns them: JSON turns a String[]
  into a list, and "exp"/"iat" are whole seconds (NumericDate).
*/
module JwtTokens {
  import opened Wrappers
  import opened Failures
  import opened JavaText

  /** A custom claim after the JSON round trip. */
  datatype ClaimValue = Text(s: string) | TextList(items: seq<string>) | OtherValue

  /** The registered claims the code reads, and the custom ones. */
  datatype Claims = Claims(subject: Option<string>, issuer: Option<string>,
                           issuedAt: int, expiration: int, custom: map<string, ClaimValue>)

  /** A token string: one that was signed with `key`, or any other text. */
  datatype Token = Signed(claims: Claims, key: string) | Garbage(text: string)

  /** What parseClaimsJws does. */
  datatype Parsed =
    | Valid(claims: Claims)   // signature and expiry checked
    | Expired                 // ExpiredJwtException
    | Invalid(reason: string) // another JwtException: bad signature, malformed text
    | Blank                   // IllegalArgumentException: null, empty or whitespace text

  /** A Date written as a NumericDate and read back: the milliseconds are
      divided by 1000 with Java's truncation toward zero and multiplied back. */
  function NumericDate(ms: int): (r: int)
    ensures r % 1000 == 0
    ensures ms >= 0 ==> 0 <= r <= ms < r + 1000
    ensures ms < 0 ==> r - 1000 < ms <= r <= 0
  {
    if ms >= 0 then
      WholeThousands(ms);
      ms / 1000 * 1000
    else
      WholeThousands(0 - ms);
      0 - (0 - ms) / 1000 * 1000
  }

  /** A non-negative n rounded down to whole thousands lies within 1000 below n. */
  lemma WholeThousands(n: nat)
    ensures (n / 1000 * 1000) % 1000 == 0
    ensures n / 1000 * 1000 <= n < n / 1000 * 1000 + 1000
  {
    var q := n / 1000;
    assert n == q * 1000 + n % 1000;
    assert q * 1000 == 1000 * q;
  }

  /** The text check jjwt makes before anything else (Assert.hasText). */
  predicate HasTokenText(token: Option<Token>) {
    token.Some? && (token.value.Garbage? ==> !IsBlank(token.value.text))
  }

  /** Jwts.parserBuilder().setSigningKey(key).build().parseClaimsJws(token)
      at instant `now` (ms): the token must be signed with this key, and is
      expired once `now` is after its expiration. */
  function Parse(key: string, token: Option<Token>, now: int): (r: Parsed)
    ensures r.Blank? <==> !HasTokenText(token)
    ensures r.Valid? <==> token.Some? && token.value.Signed? && token.value.key == key
                          && now <= token.value.claims.expiration
    ensures r.Valid? ==> r.claims == token.value.claims
  {
    if !HasTokenText(token) then Blank
    else match token.value
      case Garbage(_) => Invalid("malformed token")
      case Signed(claims, k) =>
        if k != key then Invalid("signature mismatch")
        else if now > claims.expiration then Expired
        else Valid(claims)
  }

  /** isTokenExpired(Claims): expiration.before(now). */
  predicate IsExpired(claims: Claims, now: int) {
    claims.expiration < now
  }

  /** With one reading of the clock, a token that parses is not expired. */
  lemma ParsedIsNotExpired(key: string, token: Option<Token>, now: int)
    requires Parse(key, token, now).Valid?
    ensures !IsExpired(Parse(key, token, now).claims, now)
  {
  }

  /** JwtMap.put: a null value removes the claim. */
  function Put(m: map<string, ClaimValue>, name: string, value: Option<ClaimValue>): (r: map<string, ClaimValue>)
    ensures value.Some? ==> name in r && r[name] == value.value
    ensures value.None? ==> name !in r
    ensures forall k :: k != name ==> (k in r <==> k in m) && (k in m ==> r[k] == m[k])
  {
    if value.Some? then m[name := value.value] else m - {name}
  }

  function TextOf(s: Option<string>): Option<ClaimValue> {
    if s.Some? then Some(Text(s.value)) else None
  }

  /** A String[] claim as it reads back: a list of the same strings. */
  function ListOf(items: Option<seq<string>>): Option<ClaimValue> {
    if items.Some? then Some(TextList(items.value)) else None
  }

  /** claims.get(name). */
  function Claim(c: Claims, name: string): Option<ClaimValue> {
    if name in c.custom then Some(c.custom[name]) else None
  }

  const ClaimType := "type"
  const ClaimJti := "jti"
  const ClaimRoles := "roles"
  const ClaimEmail := "email"
  const ClaimUsername := "username"
  const TokenTypeAccess := "access"
  const TokenTypeRefresh := "refresh"

  /** The custom claims both token builders put. */
  const ClaimNames: set<string> := {ClaimType, ClaimJti, ClaimRoles, ClaimEmail, ClaimUsername}

  /** `c` is what parsing gives back for a token built with these claims,
      subject `email`, this issuer, issued at `now` and expiring `lifetime`
      ms later; `jti` is None when no "jti" claim was put. */
  ghost predicate IssuedWith(c: Claims, email: Option<string>, username: Option<string>,
                             roles: Option<seq<string>>, tokenType: string, jti: Option<string>,
                             issuer: string, now: int, lifetime: int)
  {
    && c.subject == email
    && c.issuer == Some(issuer)
    && c.issuedAt == NumericDate(now)
    && c.expiration == NumericDate(now + lifetime)
    && Claim(c, ClaimType) == Some(Text(tokenType))
    && Claim(c, ClaimEmail) == TextOf(email)
    && Claim(c, ClaimUsername) == TextOf(username)
    && Claim(c, ClaimRoles) == ListOf(roles)
    && Claim(c, ClaimJti) == TextOf(jti)
    && c.custom.Keys <= ClaimNames
  }

  /** "refresh".equals(claims.get("type")). */
  predicate IsRefresh(c: Claims) {
    Claim(c, ClaimType) == Some(Text(TokenTypeRefresh))
  }

  /** A token lives for its whole lifetime, less the milliseconds the
      NumericDate drops: one of at least a second is valid when issued. */
  lemma IssuedLivesUntilExpiry(now: nat, lifetime: int)
    requires lifetime >= 1000
    ensures now < NumericDate(now + lifetime) <= now + lifetime
  {
  }
}
