/**
  The access/refresh token service (JwtServiceImpl). Initialisation checks
  the configuration and keeps the signing key; generation fills a claims map
  and signs it; everything else parses a token with that key at instant
  `now` (ms) and reads its claims. The parse-side operations read only the
  signing key and the configured issuer, so they are functions of those two.
*/
module JwtServiceOps {
  import opened Wrappers
  import opened Failures
  import opened JavaText
  import opened JwtTokens
  import opened UuidText

  /** The jwt section of the application configuration. */
  datatype JwtConfig = JwtConfig(secretKey: Option<string>, issuer: Option<string>,
                                 accessExpiration: int, refreshExpiration: int)

  const BlankTokenMessage := "JWT String argument cannot be null or empty."

  /** validateConfiguration: the first failing check, in the order the
      secret, its length, the issuer and the two lifetimes are checked. */
  function ValidateConfiguration(config: JwtConfig): (r: Option<Failure>)
    ensures r.None? <==> HasText(config.secretKey) && Utf8Length(config.secretKey.value) >= 32
                         && HasText(config.issuer)
                         && config.accessExpiration > 0 && config.refreshExpiration > 0
    ensures !HasText(config.secretKey) ==> r == Some(IllegalState("JWT签名密钥（secretKey）未配置"))
    ensures HasText(config.secretKey) && Utf8Length(config.secretKey.value) < 32 ==>
              r == Some(IllegalArgument("JWT密钥必须为256位（32字节）或更长，当前长度："
                                        + IntString(Utf8Length(config.secretKey.value)) + "字节"))
    ensures r.Some? ==> r.value.IllegalState? || r.value.IllegalArgument?
  {
    if !HasText(config.secretKey) then Some(IllegalState("JWT签名密钥（secretKey）未配置"))
    else
      var keyLength := Utf8Length(config.secretKey.value);
      if keyLength < 32 then
        Some(IllegalArgument("JWT密钥必须为256位（32字节）或更长，当前长度：" + IntString(keyLength) + "字节"))
      else if !HasText(config.issuer) then Some(IllegalState("JWT颁发者（issuer）未配置"))
      else if config.accessExpiration <= 0 then
        Some(IllegalArgument("访问令牌有效期（accessExpiration）必须为正数"))
      else if config.refreshExpiration <= 0 then
        Some(IllegalArgument("刷新令牌有效期（refreshExpiration）必须为正数"))
      else None
  }

  class JwtService {
    const config: JwtConfig
    var signingKey: Option<string>

    /** Initialised: the configuration passed its checks and the key is the secret. */
    predicate Ready()
      reads this
    {
      ValidateConfiguration(config).None? && signingKey == config.secretKey
    }

    constructor(config: JwtConfig)
      ensures this.config == config && signingKey.None?
    {
      this.config := config;
      signingKey := None;
    }

    /** init(): on a failed check the exception escapes and no key is set. */
    method Init() returns (r: Option<Failure>)
      modifies this
      ensures r == ValidateConfiguration(config)
      ensures r.None? ==> Ready()
      ensures r.Some? ==> signingKey == old(signingKey)
    {
      r := ValidateConfiguration(config);
      if r.None? {
        signingKey := config.secretKey;
      }
    }

    /** buildToken: `uuid` is the draw of UUID.randomUUID(), made only for a refresh token. */
    method BuildToken(email: Option<string>, username: Option<string>, roles: Option<seq<string>>,
                      tokenType: string, lifetime: int, uuid: Option<Uuid>, now: nat)
      returns (token: Token)
      requires Ready()
      requires tokenType == TokenTypeRefresh ==> uuid.Some?
      ensures token.Signed? && token.key == config.secretKey.value
      ensures IssuedWith(token.claims, email, username, roles, tokenType,
                         if tokenType == TokenTypeRefresh then Some(uuid.value) else None,
                         config.issuer.value, now, lifetime)
    {
      var claims: map<string, ClaimValue> := map[];
      claims := Put(claims, ClaimType, Some(Text(tokenType)));
      claims := Put(claims, ClaimEmail, TextOf(email));
      claims := Put(claims, ClaimUsername, TextOf(username));
      claims := Put(claims, ClaimRoles, ListOf(roles));
      if tokenType == TokenTypeRefresh {
        claims := Put(claims, ClaimJti, Some(Text(uuid.value)));
      }
      var body := Claims(email, config.issuer, NumericDate(now), NumericDate(now + lifetime), claims);
      token := Signed(body, signingKey.value);
    }

    /** generateAccessToken: type "access", no jti, lives accessExpiration ms. */
    method GenerateAccessToken(email: Option<string>, username: Option<string>,
                               roles: Option<seq<string>>, now: nat)
      returns (token: Token)
      requires Ready()
      ensures token.Signed? && token.key == config.secretKey.value
      ensures IssuedWith(token.claims, email, username, roles, TokenTypeAccess, None,
                         config.issuer.value, now, config.accessExpiration)
    {
      token := BuildToken(email, username, roles, TokenTypeAccess, config.accessExpiration, None, now);
    }

    /** generateRefreshToken: type "refresh", jti = the drawn UUID, lives refreshExpiration ms. */
    method GenerateRefreshToken(email: Option<string>, username: Option<string>,
                                roles: Option<seq<string>>, uuid: Uuid, now: nat)
      returns (token: Token)
      requires Ready()
      ensures token.Signed? && token.key == config.secretKey.value
      ensures IssuedWith(token.claims, email, username, roles, TokenTypeRefresh, Some(uuid),
                         config.issuer.value, now, config.refreshExpiration)
    {
      token := BuildToken(email, username, roles, TokenTypeRefresh, config.refreshExpiration, Some(uuid), now);
    }
  }

  /** parseToken: expiry is rethrown unchanged, every other JwtException is
      wrapped in a new one, and a blank token escapes as jjwt's
      IllegalArgumentException. */
  function ParseToken(key: string, token: Option<Token>, now: int): (r: Result<Claims, Failure>)
    ensures r.Ok? <==> Parse(key, token, now).Valid?
    ensures r.Ok? ==> r.value == token.value.claims && now <= r.value.expiration
    ensures r == Err(ExpiredJwt) <==> Parse(key, token, now).Expired?
    ensures r.Err? && r.error.IllegalArgument? <==> !HasTokenText(token)
    ensures Parse(key, token, now).Invalid? ==>
              r == Err(Jwt("令牌解析失败：" + Parse(key, token, now).reason))
  {
    match Parse(key, token, now)
    case Valid(claims) => Ok(claims)
    case Expired => Err(ExpiredJwt)
    case Invalid(reason) => Err(Jwt("令牌解析失败：" + reason))
    case Blank => Err(IllegalArgument(BlankTokenMessage))
  }

  /** validateToken: a blank token is rejected up front; otherwise the token
      must parse, be unexpired and carry the configured issuer. A
      JwtException never escapes. */
  function ValidateToken(key: string, issuer: string, token: Option<Token>, now: int): (r: bool)
    ensures r <==> token.Some? && token.value.Signed? && token.value.key == key
                   && now <= token.value.claims.expiration
                   && token.value.claims.issuer == Some(issuer)
  {
    if !HasTokenText(token) then false
    else match ParseToken(key, token, now)
      case Ok(claims) => !IsExpired(claims, now) && Some(issuer) == claims.issuer
      case Err(_) => false  // after the text check only JwtExceptions remain
  }

  /** validateRefreshToken: a valid token whose type is "refresh" and whose
      jti is a non-blank string; a non-string jti (ClassCastException) is
      caught and gives false. */
  function ValidateRefreshToken(key: string, issuer: string, token: Option<Token>, now: int): (r: bool)
    ensures r <==> ValidateToken(key, issuer, token, now) && IsRefresh(token.value.claims)
                   && HasRefreshId(token.value.claims)
  {
    if !ValidateToken(key, issuer, token, now) then false
    else match ParseToken(key, token, now)
      case Ok(claims) =>
        IsRefresh(claims) &&
        (match Claim(claims, ClaimJti)
         case None => false
         case Some(Text(s)) => !IsBlank(s)
         case Some(_) => false)
      case Err(_) => false
  }

  /** StringUtils.hasText((String) claims.get("jti")), a failed cast counting as false. */
  predicate HasRefreshId(c: Claims) {
    var jti := Claim(c, ClaimJti);
    jti.Some? && jti.value.Text? && !IsBlank(jti.value.s)
  }

  /** getTokenId: the jti of a refresh token; a blank or absent jti and a
      non-refresh token are IllegalArgumentExceptions, a non-string jti a
      ClassCastException, and parse failures escape. */
  function GetTokenId(key: string, token: Option<Token>, now: int): (r: Result<string, Failure>)
    ensures r.Ok? <==> ParseToken(key, token, now).Ok? && IsRefresh(token.value.claims)
                       && HasRefreshId(token.value.claims)
    ensures r.Ok? ==> !IsBlank(r.value) && Claim(token.value.claims, ClaimJti) == Some(Text(r.value))
    ensures ParseToken(key, token, now).Ok? && !IsRefresh(token.value.claims) ==>
              r == Err(IllegalArgument("该令牌不是刷新令牌，无法获取jti"))
    ensures ParseToken(key, token, now).Err? ==> r == Err(ParseToken(key, token, now).error)
  {
    match ParseToken(key, token, now)
    case Err(e) => Err(e)
    case Ok(claims) =>
      if !IsRefresh(claims) then Err(IllegalArgument("该令牌不是刷新令牌，无法获取jti"))
      else match Claim(claims, ClaimJti)
        case None => Err(IllegalArgument("刷新令牌缺少jti标识"))
        case Some(Text(s)) => if IsBlank(s) then Err(IllegalArgument("刷新令牌缺少jti标识")) else Ok(s)
        case Some(_) => Err(ClassCast)
  }

  /** getRolesFromToken: no roles claim gives no roles, a list gives its
      elements in order, any other shape is a JwtException. */
  function GetRoles(key: string, token: Option<Token>, now: int): (r: Result<seq<string>, Failure>)
    ensures ParseToken(key, token, now).Err? ==> r == Err(ParseToken(key, token, now).error)
    ensures ParseToken(key, token, now).Ok? ==>
              var roles := Claim(token.value.claims, ClaimRoles);
              (roles.None? ==> r == Ok([]))
              && (roles.Some? && roles.value.TextList? ==> r == Ok(roles.value.items))
              && (roles.Some? && !roles.value.TextList? ==>
                    r == Err(Jwt("角色信息格式错误，必须为数组或列表")))
  {
    match ParseToken(key, token, now)
    case Err(e) => Err(e)
    case Ok(claims) =>
      match Claim(claims, ClaimRoles)
      case None => Ok([])
      case Some(TextList(items)) => Ok(items)
      case Some(_) => Err(Jwt("角色信息格式错误，必须为数组或列表"))
  }

  /** isTokenExpired(String): false for a token that parses, true for every
      JwtException; a blank token's IllegalArgumentException escapes. */
  function IsTokenExpired(key: string, token: Option<Token>, now: int): (r: Result<bool, Failure>)
    ensures r == Ok(false) <==> Parse(key, token, now).Valid?
    ensures r == Ok(true) <==> Parse(key, token, now).Expired? || Parse(key, token, now).Invalid?
    ensures r.Err? <==> !HasTokenText(token)
  {
    match ParseToken(key, token, now)
    case Ok(claims) => Ok(IsExpired(claims, now))
    case Err(e) => if e.IsJwtException() then Ok(true) else Err(e)
  }

  /** getRemainingValidity: expiration − now for a token that parses, −1 on
      any JwtException; a blank token's IllegalArgumentException escapes. */
  function GetRemainingValidity(key: string, token: Option<Token>, now: int): (r: Result<int, Failure>)
    ensures r.Ok? && r.value >= 0 <==> Parse(key, token, now).Valid?
    ensures Parse(key, token, now).Valid? ==> r == Ok(token.value.claims.expiration - now)
    ensures r == Ok(-1) <==> Parse(key, token, now).Expired? || Parse(key, token, now).Invalid?
    ensures r.Err? <==> !HasTokenText(token)
  {
    match ParseToken(key, token, now)
    case Ok(claims) => Ok(claims.expiration - now)
    case Err(e) => if e.IsJwtException() then Ok(-1) else Err(e)
  }

  /** An access token is never accepted where a refresh token is required,
      whatever the instant. */
  lemma AccessTokenIsNotRefresh(c: Claims, key: string, issuer: string, email: Option<string>,
                                username: Option<string>, roles: Option<seq<string>>,
                                jti: Option<string>, issuedAt: int, lifetime: int, now: int)
    requires IssuedWith(c, email, username, roles, TokenTypeAccess, jti, issuer, issuedAt, lifetime)
    ensures !ValidateRefreshToken(key, issuer, Some(Signed(c, key)), now)
    ensures ParseToken(key, Some(Signed(c, key)), now).Ok? ==>
              GetTokenId(key, Some(Signed(c, key)), now).Err?
  {
    assert Claim(c, ClaimType) == Some(Text(TokenTypeAccess));
  }

  /** A refresh token, checked with its own key and issuer at any instant up
      to its (second-truncated) expiry, passes validateRefreshToken and
      yields its UUID as jti. */
  lemma RefreshTokenValidUntilExpiry(c: Claims, key: string, issuer: string, email: Option<string>,
                                     username: Option<string>, roles: Option<seq<string>>,
                                     uuid: Uuid, issuedAt: int, lifetime: int, now: int)
    requires IssuedWith(c, email, username, roles, TokenTypeRefresh, Some(uuid), issuer, issuedAt, lifetime)
    requires now <= NumericDate(issuedAt + lifetime)
    ensures ValidateRefreshToken(key, issuer, Some(Signed(c, key)), now)
    ensures GetTokenId(key, Some(Signed(c, key)), now) == Ok(uuid)
    ensures GetRemainingValidity(key, Some(Signed(c, key)), now) == Ok(NumericDate(issuedAt + lifetime) - now)
  {
    UuidHasText(uuid);
    assert Claim(c, ClaimJti) == Some(Text(uuid));
  }

  /** After its expiry a token is rejected everywhere: validation fails,
      it counts as expired, its remaining validity is −1 and reading a claim
      throws ExpiredJwtException. */
  lemma TokenRejectedAfterExpiry(c: Claims, key: string, issuer: string, now: int)
    requires now > c.expiration
    ensures !ValidateToken(key, issuer, Some(Signed(c, key)), now)
    ensures IsTokenExpired(key, Some(Signed(c, key)), now) == Ok(true)
    ensures GetRemainingValidity(key, Some(Signed(c, key)), now) == Ok(-1)
    ensures GetRoles(key, Some(Signed(c, key)), now) == Err(ExpiredJwt)
  {
  }

  /** A token signed with another key is rejected with a wrapped JwtException. */
  lemma ForeignKeyRejected(c: Claims, key: string, other: string, issuer: string, now: int)
    requires other != key
    ensures !ValidateToken(key, issuer, Some(Signed(c, other)), now)
    ensures ParseToken(key, Some(Signed(c, other)), now).Err?
    ensures ParseToken(key, Some(Signed(c, other)), now).error.Jwt?
  {
  }

  /** The roles put into a token are the roles read back, in order; a token
      built without roles reads back as having none. */
  lemma RolesRoundTrip(c: Claims, key: string, issuer: string, email: Option<string>,
                       username: Option<string>, roles: Option<seq<string>>, tokenType: string,
                       jti: Option<string>, issuedAt: int, lifetime: int, now: int)
    requires IssuedWith(c, email, username, roles, tokenType, jti, issuer, issuedAt, lifetime)
    requires now <= c.expiration
    ensures roles.Some? ==> GetRoles(key, Some(Signed(c, key)), now) == Ok(roles.value)
    ensures roles.None? ==> GetRoles(key, Some(Signed(c, key)), now) == Ok([])
  {
    assert Claim(c, ClaimRoles) == ListOf(roles);
  }

  /** A freshly generated token of either kind validates at its issue time
      when its lifetime is at least a second. */
  lemma IssuedTokenValidAtIssue(c: Claims, key: string, issuer: string, email: Option<string>,
                                username: Option<string>, roles: Option<seq<string>>, tokenType: string,
                                jti: Option<string>, now: nat, lifetime: int)
    requires IssuedWith(c, email, username, roles, tokenType, jti, issuer, now, lifetime)
    requires lifetime >= 1000
    ensures ValidateToken(key, issuer, Some(Signed(c, key)), now)
  {
    IssuedLivesUntilExpiry(now, lifetime);
  }

  /** A token whose lifetime is under a second can already be expired when
      it is issued, because the expiry loses its milliseconds. */
  lemma ShortLifetimeBornExpired()
    ensures var c := Claims(None, Some("tessa"), NumericDate(1500), NumericDate(1500 + 400), map[]);
            !ValidateToken("k", "tessa", Some(Signed(c, "k")), 1500)
  {
    assert NumericDate(1900) == 1000;
  }
}
