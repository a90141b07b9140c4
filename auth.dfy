/** Credential and token rules of internal/services/auth/service.go. bcrypt
    and JWT signing (HS256, section 3.2 of RFC 7518) are uninterpreted
    functions; what the service does around them is modelled exactly. */
module Auth {
  import opened Common
  import opened Models

  /** The fixed bcrypt work factor. */
  const BcryptCost := 14

  /** Access tokens live 24 hours, refresh tokens 168 hours (in seconds). */
  const AccessTtl := 24 * 3600
  const RefreshTtl := 168 * 3600

  const PasswordMismatch := "login or password is incorrect"

  /** bcrypt. generate(password, cost, salt) is GenerateFromPassword with its
      random salt as an argument; compare(hashed, password) says whether
      CompareHashAndPassword(hashed, password) returns nil. */
  datatype Bcrypt = Bcrypt(
    generate: (string, int, string) -> Result<string>,
    compare: (string, string) -> bool)

  /** The hasher axiom: a digest that generate produced matches its password. */
  ghost predicate Sound(b: Bcrypt) {
    forall password, cost, salt ::
      b.generate(password, cost, salt).Ok? ==> b.compare(b.generate(password, cost, salt).value, password)
  }

  datatype SigningMethod = HS256

  /** SignedDetails: the service's claims plus the one registered claim it
      sets, `exp` (section 4.1.4 of RFC 7519), a *NumericDate that may be nil. */
  datatype SignedDetails = SignedDetails(email: string, fullName: string, uid: string, expiresAt: Option<int>)

  /** What jwt.ParseWithClaims gives back: an error, or a token whose claims
      may or may not be a *SignedDetails (the `ok` of the type assertion). */
  datatype ParseResult = ParseError(error: string) | Parsed(claims: SignedDetails, isSignedDetails: bool)

  /** The JWT library: sign(method, claims, key) is SignedString, parse(token, key) is ParseWithClaims. */
  datatype Jwt = Jwt(
    sign: (SigningMethod, SignedDetails, string) -> Result<string>,
    parse: (string, string) -> ParseResult)

  /** The signer axiom: a token signed with a key parses back, with that key,
      to exactly the claims that were signed. */
  ghost predicate RoundTrips(j: Jwt) {
    forall claims, key :: j.sign(HS256, claims, key).Ok? ==>
      j.parse(j.sign(HS256, claims, key).value, key) == Parsed(claims, true)
  }

  /** The auth service: the two libraries and SECRET_KEY, read once at start-up. */
  datatype AuthService = AuthService(bcrypt: Bcrypt, jwt: Jwt, secretKey: string)

  datatype TokenPair = TokenPair(token: string, refreshToken: string)

  /** HashPassword: bcrypt at cost 14; a bcrypt failure panics. */
  function HashPassword(s: AuthService, password: string, salt: string): (r: Outcome<string>)
    ensures r.Returned? <==> s.bcrypt.generate(password, BcryptCost, salt).Ok?
    ensures r.Returned? ==> r.value == s.bcrypt.generate(password, BcryptCost, salt).value
  {
    match s.bcrypt.generate(password, BcryptCost, salt)
    case Err(e) => Panicked(e)
    case Ok(digest) => Returned(digest)
  }

  /** VerifyPassword(userPassword, providedPassword): the plain password comes
      first, the stored digest second. */
  function VerifyPassword(s: AuthService, userPassword: string, providedPassword: string): (r: (bool, string))
    ensures r.0 <==> s.bcrypt.compare(providedPassword, userPassword)
    ensures r.0 <==> r.1 == ""
    ensures !r.0 ==> r.1 == PasswordMismatch
  {
    var check := s.bcrypt.compare(providedPassword, userPassword);
    if check then (true, "") else (false, PasswordMismatch)
  }

  /** Whatever digest HashPassword produces, VerifyPassword accepts its password. */
  lemma HashThenVerify(s: AuthService, password: string, salt: string)
    requires Sound(s.bcrypt)
    requires HashPassword(s, password, salt).Returned?
    ensures VerifyPassword(s, password, HashPassword(s, password, salt).value) == (true, "")
  {
  }

  /** The access claims: the user's email, full name and object id, expiring 24 hours from now. */
  function AccessClaims(user: User, now: int): (c: SignedDetails)
    ensures c.email == user.email && c.fullName == user.fullName && c.uid == Hex(user.id)
    ensures c.expiresAt == Some(now + AccessTtl)
  {
    SignedDetails(user.email, user.fullName, Hex(user.id), Some(now + AccessTtl))
  }

  /** The refresh claims: no identity at all, expiring 168 hours from now. */
  function RefreshClaims(now: int): (c: SignedDetails)
    ensures c.email == "" && c.fullName == "" && c.uid == ""
    ensures c.expiresAt == Some(now + RefreshTtl)
  {
    SignedDetails("", "", "", Some(now + RefreshTtl))
  }

  /** GenerateAllTokens: both claim sets signed with HS256 and the same key;
      a signing failure panics, so a normal return never carries an error. */
  function GenerateAllTokens(s: AuthService, user: User, now: int): (r: Outcome<TokenPair>)
    ensures r.Returned? <==>
              s.jwt.sign(HS256, AccessClaims(user, now), s.secretKey).Ok? &&
              s.jwt.sign(HS256, RefreshClaims(now), s.secretKey).Ok?
    ensures r.Returned? ==>
              r.value.token == s.jwt.sign(HS256, AccessClaims(user, now), s.secretKey).value &&
              r.value.refreshToken == s.jwt.sign(HS256, RefreshClaims(now), s.secretKey).value
  {
    match s.jwt.sign(HS256, AccessClaims(user, now), s.secretKey)
    case Err(e) => Panicked(e)
    case Ok(token) =>
      match s.jwt.sign(HS256, RefreshClaims(now), s.secretKey)
      case Err(e) => Panicked(e)
      case Ok(refreshToken) => Returned(TokenPair(token, refreshToken))
  }

  /** Refresh tokens outlive access tokens issued at the same moment. */
  lemma RefreshOutlivesAccess(user: User, now: int)
    ensures RefreshClaims(now).expiresAt.value > AccessClaims(user, now).expiresAt.value > now
  {
  }

  /** ValidateToken as written. A parse error is returned unchanged. The two
      rejections after it call err.Error() on an err that is nil there, so
      both panic; and the expiry test is inverted: a token is refused (by
      that panic) while its expiry is still after now, and accepted once it
      has passed. A nil ExpiresAt is dereferenced too. */
  function ValidateToken(s: AuthService, signedToken: string, now: int): (r: Outcome<Result<SignedDetails>>)
    ensures r.Returned? && r.value.Err? <==> s.jwt.parse(signedToken, s.secretKey).ParseError?
    ensures r.Returned? && r.value.Err? ==> r.value.error == s.jwt.parse(signedToken, s.secretKey).error
    ensures r.Returned? && r.value.Ok? <==>
              && s.jwt.parse(signedToken, s.secretKey).Parsed?
              && s.jwt.parse(signedToken, s.secretKey).isSignedDetails
              && s.jwt.parse(signedToken, s.secretKey).claims.expiresAt.Some?
              && s.jwt.parse(signedToken, s.secretKey).claims.expiresAt.value <= now
    ensures r.Returned? && r.value.Ok? ==> r.value.value == s.jwt.parse(signedToken, s.secretKey).claims
  {
    match s.jwt.parse(signedToken, s.secretKey)
    case ParseError(e) => Returned(Err(e))
    case Parsed(claims, ok) =>
      if !ok then Panicked(NilDereference)
      else if claims.expiresAt.None? then Panicked(NilDereference)
      else if claims.expiresAt.value > now then Panicked(NilDereference)
      else Returned(Ok(claims))
  }

  const TokenInvalid := "the token is invalid"
  const TokenExpired := "token is expired"

  /** ValidateToken as evidently intended (section 4.1.4 of RFC 7519): a
      token is accepted only while now is before its expiry, and every
      rejection is an error value, never a panic. */
  function ValidateTokenCorrected(s: AuthService, signedToken: string, now: int): (r: Outcome<Result<SignedDetails>>)
    ensures r.Returned?
    ensures r.value.Ok? <==>
              && s.jwt.parse(signedToken, s.secretKey).Parsed?
              && s.jwt.parse(signedToken, s.secretKey).isSignedDetails
              && s.jwt.parse(signedToken, s.secretKey).claims.expiresAt.Some?
              && now < s.jwt.parse(signedToken, s.secretKey).claims.expiresAt.value
    ensures r.value.Ok? ==> r.value.value == s.jwt.parse(signedToken, s.secretKey).claims
    ensures s.jwt.parse(signedToken, s.secretKey).ParseError? ==> r.value == Err(s.jwt.parse(signedToken, s.secretKey).error)
  {
    match s.jwt.parse(signedToken, s.secretKey)
    case ParseError(e) => Returned(Err(e))
    case Parsed(claims, ok) =>
      if !ok then Returned(Err(TokenInvalid))
      else if claims.expiresAt.None? || claims.expiresAt.value <= now then Returned(Err(TokenExpired))
      else Returned(Ok(claims))
  }

  /** As written, a freshly issued access token (validated before its 24
      hours are up) makes ValidateToken panic instead of yielding its claims. */
  lemma FreshAccessTokenPanics(s: AuthService, user: User, issuedAt: int, now: int)
    requires RoundTrips(s.jwt)
    requires GenerateAllTokens(s, user, issuedAt).Returned?
    requires now < issuedAt + AccessTtl
    ensures ValidateToken(s, GenerateAllTokens(s, user, issuedAt).value.token, now).Panicked?
  {
    var c := AccessClaims(user, issuedAt);
    assert s.jwt.parse(s.jwt.sign(HS256, c, s.secretKey).value, s.secretKey) == Parsed(c, true);
  }

  /** As written, the same token is accepted once it has expired. */
  lemma ExpiredAccessTokenAccepted(s: AuthService, user: User, issuedAt: int, now: int)
    requires RoundTrips(s.jwt)
    requires GenerateAllTokens(s, user, issuedAt).Returned?
    requires issuedAt + AccessTtl <= now
    ensures ValidateToken(s, GenerateAllTokens(s, user, issuedAt).value.token, now) == Returned(Ok(AccessClaims(user, issuedAt)))
  {
    var c := AccessClaims(user, issuedAt);
    assert s.jwt.parse(s.jwt.sign(HS256, c, s.secretKey).value, s.secretKey) == Parsed(c, true);
  }

  /** Token round trip for the corrected validator: an access token yields
      the claims it was issued with, subject included, exactly while it is
      unexpired, and "token is expired" afterwards. */
  lemma AccessTokenRoundTrip(s: AuthService, user: User, issuedAt: int, now: int)
    requires RoundTrips(s.jwt)
    requires GenerateAllTokens(s, user, issuedAt).Returned?
    ensures var v := ValidateTokenCorrected(s, GenerateAllTokens(s, user, issuedAt).value.token, now);
            if now < issuedAt + AccessTtl then v == Returned(Ok(AccessClaims(user, issuedAt))) && v.value.value.uid == Hex(user.id)
            else v == Returned(Err(TokenExpired))
  {
    var c := AccessClaims(user, issuedAt);
    assert s.jwt.parse(s.jwt.sign(HS256, c, s.secretKey).value, s.secretKey) == Parsed(c, true);
  }

  /** The refresh token validates for 168 hours and names no subject. */
  lemma RefreshTokenRoundTrip(s: AuthService, user: User, issuedAt: int, now: int)
    requires RoundTrips(s.jwt)
    requires GenerateAllTokens(s, user, issuedAt).Returned?
    ensures var v := ValidateTokenCorrected(s, GenerateAllTokens(s, user, issuedAt).value.refreshToken, now);
            if now < issuedAt + RefreshTtl then v == Returned(Ok(RefreshClaims(issuedAt))) && v.value.value.uid == ""
            else v == Returned(Err(TokenExpired))
  {
    var c := RefreshClaims(issuedAt);
    assert s.jwt.parse(s.jwt.sign(HS256, c, s.secretKey).value, s.secretKey) == Parsed(c, true);
  }
}
