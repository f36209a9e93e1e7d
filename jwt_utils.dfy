/**
  The older token helper (JwtUtils). It builds the same claims as
  JwtServiceImpl, but derives the key from the secret on every call, checks
  only the key length at start-up, lets a blank token's exception escape
  from validation, and accepts any non-null jti on a refresh token.
*/
module JwtUtilsOps {
  import opened Wrappers
  import opened Failures
  import opened JavaText
  import opened JwtTokens
  import opened UuidText
  import JwtServiceOps

  /** The defaults of my-configuration.jwt.access-expiration and refresh-expiration (ms). */
  const DefaultAccessExpiration: int := 3_600_000
  const DefaultRefreshExpiration: int := 2_592_000_000

  const WeakSecretMessage := "JWT secret key must be at least 256 bits (32 bytes)"

  /** validateKeyStrength: the secret must be at least 32 UTF-8 bytes; nothing else is checked. */
  function ValidateKeyStrength(secretKey: string): (r: Option<Failure>)
    ensures r.None? <==> Utf8Length(secretKey) >= 32
    ensures r.Some? ==> r.value == IllegalArgument(WeakSecretMessage)
  {
    if Utf8Length(secretKey) < 32 then Some(IllegalArgument(WeakSecretMessage)) else None
  }

  class JwtUtils {
    const secretKey: string
    const issuer: string
    const accessExpiration: int
    const refreshExpiration: int

    /** The injected values; an absent lifetime property takes its default. */
    constructor(secretKey: string, issuer: string, accessExpiration: Option<int>, refreshExpiration: Option<int>)
      ensures this.secretKey == secretKey && this.issuer == issuer
      ensures this.accessExpiration == (if accessExpiration.Some? then accessExpiration.value else DefaultAccessExpiration)
      ensures this.refreshExpiration == (if refreshExpiration.Some? then refreshExpiration.value else DefaultRefreshExpiration)
    {
      this.secretKey := secretKey;
      this.issuer := issuer;
      this.accessExpiration := if accessExpiration.Some? then accessExpiration.value else DefaultAccessExpiration;
      this.refreshExpiration := if refreshExpiration.Some? then refreshExpiration.value else DefaultRefreshExpiration;
    }

    /** buildToken: Keys.hmacShaKeyFor refuses a secret under 32 bytes, then
        the claims are signed with subject, issuer, issue and expiry times. */
    method BuildToken(claims: map<string, ClaimValue>, subject: Option<string>, lifetime: int, now: nat)
      returns (r: Result<Token, Failure>)
      ensures r.Err? <==> Utf8Length(secretKey) < 32
      ensures r.Err? ==> r.error == WeakKey
      ensures r.Ok? ==> r.value == Signed(Claims(subject, Some(issuer), NumericDate(now),
                                                 NumericDate(now + lifetime), claims), secretKey)
    {
      if Utf8Length(secretKey) < 32 {
        return Err(WeakKey);
      }
      r := Ok(Signed(Claims(subject, Some(issuer), NumericDate(now), NumericDate(now + lifetime), claims), secretKey));
    }

    /** generateAccessToken: email, username, roles and type "access"; no jti. */
    method GenerateAccessToken(email: Option<string>, username: Option<string>,
                               roles: Option<seq<string>>, now: nat)
      returns (r: Result<Token, Failure>)
      ensures r.Err? <==> Utf8Length(secretKey) < 32
      ensures r.Ok? ==> r.value.Signed? && r.value.key == secretKey
                        && IssuedWith(r.value.claims, email, username, roles, TokenTypeAccess, None,
                                      issuer, now, accessExpiration)
    {
      var claims: map<string, ClaimValue> := map[];
      claims := Put(claims, ClaimEmail, TextOf(email));
      claims := Put(claims, ClaimUsername, TextOf(username));
      claims := Put(claims, ClaimRoles, ListOf(roles));
      claims := Put(claims, ClaimType, Some(Text(TokenTypeAccess)));
      r := BuildToken(claims, email, accessExpiration, now);
    }

    /** generateRefreshToken: as for access, with type "refresh" and jti = the drawn UUID. */
    method GenerateRefreshToken(email: Option<string>, username: Option<string>,
                                roles: Option<seq<string>>, uuid: Uuid, now: nat)
      returns (r: Result<Token, Failure>)
      ensures r.Err? <==> Utf8Length(secretKey) < 32
      ensures r.Ok? ==> r.value.Signed? && r.value.key == secretKey
                        && IssuedWith(r.value.claims, email, username, roles, TokenTypeRefresh, Some(uuid),
                                      issuer, now, refreshExpiration)
    {
      var claims: map<string, ClaimValue> := map[];
      claims := Put(claims, ClaimEmail, TextOf(email));
      claims := Put(claims, ClaimUsername, TextOf(username));
      claims := Put(claims, ClaimRoles, ListOf(roles));
      claims := Put(claims, ClaimType, Some(Text(TokenTypeRefresh)));
      claims := Put(claims, ClaimJti, Some(Text(uuid)));
      r := BuildToken(claims, email, refreshExpiration, now);
    }
  }

  /** parseToken: the key is derived first (WeakKeyException for a short
      secret), then jjwt's exceptions pass through unchanged. */
  function ParseToken(secretKey: string, token: Option<Token>, now: int): (r: Result<Claims, Failure>)
    ensures r.Ok? <==> Utf8Length(secretKey) >= 32 && Parse(secretKey, token, now).Valid?
    ensures r.Ok? ==> r.value == token.value.claims
    ensures r == Err(WeakKey) <==> Utf8Length(secretKey) < 32
    ensures r.Err? && !r.error.IsJwtException() <==> Utf8Length(secretKey) >= 32 && !HasTokenText(token)
  {
    if Utf8Length(secretKey) < 32 then Err(WeakKey)
    else match Parse(secretKey, token, now)
      case Valid(claims) => Ok(claims)
      case Expired => Err(ExpiredJwt)
      case Invalid(reason) => Err(Jwt(reason))
      case Blank => Err(IllegalArgument(JwtServiceOps.BlankTokenMessage))
  }

  /** validateToken: parse, unexpired and issuer match; a JwtException gives
      false, but a blank token's IllegalArgumentException escapes. */
  function ValidateToken(secretKey: string, issuer: string, token: Option<Token>, now: int): (r: Result<bool, Failure>)
    ensures r == Ok(true) <==> Utf8Length(secretKey) >= 32 && token.Some? && token.value.Signed?
                               && token.value.key == secretKey && now <= token.value.claims.expiration
                               && token.value.claims.issuer == Some(issuer)
    ensures r.Err? <==> Utf8Length(secretKey) >= 32 && !HasTokenText(token)
  {
    match ParseToken(secretKey, token, now)
    case Ok(claims) => Ok(!IsExpired(claims, now) && Some(issuer) == claims.issuer)
    case Err(e) => if e.IsJwtException() then Ok(false) else Err(e)
  }

  /** validateRefreshToken: a valid token whose type is "refresh" and which
      has any jti at all. */
  function ValidateRefreshToken(secretKey: string, issuer: string, token: Option<Token>, now: int)
    : (r: Result<bool, Failure>)
    ensures r == Ok(true) <==> ValidateToken(secretKey, issuer, token, now) == Ok(true)
                               && IsRefresh(token.value.claims) && Claim(token.value.claims, ClaimJti).Some?
    ensures r.Err? <==> ValidateToken(secretKey, issuer, token, now).Err?
  {
    match ValidateToken(secretKey, issuer, token, now)
    case Err(e) => Err(e)
    case Ok(valid) =>
      if !valid then Ok(false)
      else match ParseToken(secretKey, token, now)
        case Ok(claims) => Ok(IsRefresh(claims) && Claim(claims, ClaimJti).Some?)
        case Err(e) => if e.IsJwtException() then Ok(false) else Err(e)
  }

  /** getTokenId: the jti of a refresh token, possibly absent; a non-refresh
      token is an IllegalArgumentException, a non-string jti a ClassCastException. */
  function GetTokenId(secretKey: string, token: Option<Token>, now: int): (r: Result<Option<string>, Failure>)
    ensures ParseToken(secretKey, token, now).Err? ==> r == Err(ParseToken(secretKey, token, now).error)
    ensures ParseToken(secretKey, token, now).Ok? && !IsRefresh(token.value.claims) ==>
              r == Err(IllegalArgument("Token is not a refresh token"))
    ensures r.Ok? ==> IsRefresh(token.value.claims)
                      && Claim(token.value.claims, ClaimJti) == TextOf(r.value)
  {
    match ParseToken(secretKey, token, now)
    case Err(e) => Err(e)
    case Ok(claims) =>
      if !IsRefresh(claims) then Err(IllegalArgument("Token is not a refresh token"))
      else match Claim(claims, ClaimJti)
        case None => Ok(None)
        case Some(Text(s)) => Ok(Some(s))
        case Some(_) => Err(ClassCast)
  }

  /** getRolesFromToken: the elements of a list claim, and no roles for a
      missing or differently shaped claim; the shape never throws. */
  function GetRoles(secretKey: string, token: Option<Token>, now: int): (r: Result<seq<string>, Failure>)
    ensures r.Ok? <==> ParseToken(secretKey, token, now).Ok?
    ensures r.Ok? ==> var roles := Claim(token.value.claims, ClaimRoles);
                      r.value == (if roles.Some? && roles.value.TextList? then roles.value.items else [])
  {
    match ParseToken(secretKey, token, now)
    case Err(e) => Err(e)
    case Ok(claims) =>
      match Claim(claims, ClaimRoles)
      case Some(TextList(items)) => Ok(items)
      case _ => Ok([])
  }

  /** Every configuration JwtServiceImpl accepts passes validateKeyStrength. */
  lemma KeyStrengthWeakerThanConfiguration(config: JwtServiceOps.JwtConfig)
    requires JwtServiceOps.ValidateConfiguration(config).None?
    ensures ValidateKeyStrength(config.secretKey.value).None?
  {
  }

  /** ...but not the other way round: a blank issuer and non-positive
      lifetimes pass validateKeyStrength. */
  lemma KeyStrengthIgnoresIssuerAndLifetimes()
    ensures var secret := "0123456789abcdef0123456789abcdef";
            ValidateKeyStrength(secret).None?
            && JwtServiceOps.ValidateConfiguration(JwtServiceOps.JwtConfig(Some(secret), Some(""), 0, -1)).Some?
  {
    var secret := "0123456789abcdef0123456789abcdef";
    assert |secret| == 32;
    assert !HasText(Some(""));
  }

  /** With a strong secret and a token that has text, the two validators agree. */
  lemma ValidateAgreesWithService(secretKey: string, issuer: string, token: Option<Token>, now: int)
    requires Utf8Length(secretKey) >= 32 && HasTokenText(token)
    ensures ValidateToken(secretKey, issuer, token, now)
            == Ok(JwtServiceOps.ValidateToken(secretKey, issuer, token, now))
  {
  }

  /** A blank token: JwtServiceImpl answers false, JwtUtils throws. */
  lemma BlankTokenEscapes(secretKey: string, issuer: string, now: int)
    requires Utf8Length(secretKey) >= 32
    ensures !JwtServiceOps.ValidateToken(secretKey, issuer, Some(Garbage(" ")), now)
    ensures ValidateToken(secretKey, issuer, Some(Garbage(" ")), now).Err?
  {
    assert IsWhitespace(' ');
    assert IsBlank(" ");
  }

  /** The refresh checks agree whenever the jti is absent or a non-blank string. */
  lemma RefreshAgreesWithServiceOnPlainJti(secretKey: string, issuer: string, token: Option<Token>, now: int)
    requires Utf8Length(secretKey) >= 32 && HasTokenText(token)
    requires token.value.Signed?
    requires var jti := Claim(token.value.claims, ClaimJti);
             jti.None? || (jti.value.Text? && !IsBlank(jti.value.s))
    ensures ValidateRefreshToken(secretKey, issuer, token, now)
            == Ok(JwtServiceOps.ValidateRefreshToken(secretKey, issuer, token, now))
  {
    ValidateAgreesWithService(secretKey, issuer, token, now);
  }

  /** An empty jti passes JwtUtils' refresh check but not JwtServiceImpl's. */
  lemma EmptyJtiDrift(secretKey: string)
    requires Utf8Length(secretKey) >= 32
    ensures var c := Claims(None, Some("tessa"), 0, 1000,
                            map[ClaimType := Text(TokenTypeRefresh), ClaimJti := Text("")]);
            ValidateRefreshToken(secretKey, "tessa", Some(Signed(c, secretKey)), 0) == Ok(true)
            && !JwtServiceOps.ValidateRefreshToken(secretKey, "tessa", Some(Signed(c, secretKey)), 0)
  {
    var c := Claims(None, Some("tessa"), 0, 1000,
                    map[ClaimType := Text(TokenTypeRefresh), ClaimJti := Text("")]);
    assert Claim(c, ClaimJti) == Some(Text(""));
    assert IsRefresh(c);
  }

  /** JwtUtils does not check lifetimes: with a negative one, a token is
      already expired at its own issue time. */
  lemma NegativeLifetimeBornExpired(c: Claims, email: Option<string>, username: Option<string>,
                                    roles: Option<seq<string>>, tokenType: string, jti: Option<string>,
                                    secretKey: string, issuer: string, now: nat, lifetime: int)
    requires IssuedWith(c, email, username, roles, tokenType, jti, issuer, now, lifetime)
    requires lifetime < 0 && now + lifetime >= 0
    ensures ValidateToken(secretKey, issuer, Some(Signed(c, secretKey)), now) != Ok(true)
  {
  }

  /** The roles put into a token are the roles read back. */
  lemma RolesRoundTrip(c: Claims, email: Option<string>, username: Option<string>,
                       roles: Option<seq<string>>, tokenType: string, jti: Option<string>,
                       secretKey: string, issuer: string, issuedAt: int, lifetime: int, now: int)
    requires IssuedWith(c, email, username, roles, tokenType, jti, issuer, issuedAt, lifetime)
    requires Utf8Length(secretKey) >= 32 && now <= c.expiration
    ensures GetRoles(secretKey, Some(Signed(c, secretKey)), now)
            == Ok(if roles.Some? then roles.value else [])
  {
    assert Claim(c, ClaimRoles) == ListOf(roles);
  }
}
