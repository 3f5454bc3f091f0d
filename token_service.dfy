/**
 * The auth service's token issuance and validation rule (`TokenService`).
 * The service holds two durations and a key derived once from its secret;
 * the revocation check of `ExpireTokenRepository.isExpired` is passed in as
 * a predicate on the presented token, and the clock as `now` in milliseconds.
 */
module Auth {
  import opened Wrappers
  import opened TokenCodec

  /** The auth error codes the service raises inside a `ServiceException`. */
  datatype AuthErrorCode = TokenNotValid | TokenExpired

  /** The identifier and message of an error code. */
  datatype ErrorText = ErrorText(id: string, message: string)

  /**
   * The text of each code where the tests fix it. TOKEN_NOT_VALID's text is
   * defined in AuthErrorCode.kt, which is not part of this model.
   */
  function KnownText(code: AuthErrorCode): (t: Option<ErrorText>)
    ensures code == TokenExpired <==> t == Some(ErrorText("AUTH_0002", "토큰이 만료되었습니다."))
  {
    match code
    case TokenExpired => Some(ErrorText("AUTH_0002", "토큰이 만료되었습니다."))
    case TokenNotValid => None
  }

  /** How an operation of the service fails: a `ServiceException` or an `IllegalArgumentException`. */
  datatype Failure = ServiceError(code: AuthErrorCode) | IllegalArgument

  /** The login request: user id and nickname (`CreateTokenRequest`). */
  datatype CreateTokenRequest = CreateTokenRequest(id: string, nickname: string)

  /** What issuance and reissuance return (`CreateTokenResponse`). */
  datatype TokenPair = TokenPair(accessToken: Token, accessExpireAt: int, refreshToken: Token, refreshExpireAt: int)

  /** The revocation oracle: has this token been marked expired? */
  type ExpireOracle = Token -> bool

  /** A token whose own expiry lies before `now` is expired by time alone. */
  predicate IsPast(expireAt: int, now: int)
  {
    expireAt < now
  }

  /** A decoded token is expired when the oracle says so or its own expiry has passed. */
  predicate IsExpired(token: Token, claims: Claims, now: int, isExpired: ExpireOracle)
  {
    isExpired(token) || IsPast(claims.expireAt, now)
  }

  class TokenService {
    const accessDuration: int
    const refreshDuration: int
    const secretKey: string
    /** The key `init()` derives from the secret: computed once, never changed. */
    const key: Key := DeriveKey(secretKey)

    /** Construction followed by `init()`. */
    constructor (accessDuration: int, refreshDuration: int, secretKey: string)
      ensures this.accessDuration == accessDuration && this.refreshDuration == refreshDuration
      ensures this.secretKey == secretKey && key == DeriveKey(secretKey)
    {
      this.accessDuration := accessDuration;
      this.refreshDuration := refreshDuration;
      this.secretKey := secretKey;
    }

    /** Issues an access and a refresh token for the user at time `now`. */
    function CreateToken(request: CreateTokenRequest, now: int): (r: TokenPair)
      ensures r.accessExpireAt == now + accessDuration
      ensures r.refreshExpireAt == now + refreshDuration
      ensures Decode(r.accessToken, key) == Some(Claims(request.id, request.nickname, Access, r.accessExpireAt))
      ensures Decode(r.refreshToken, key) == Some(Claims(request.id, request.nickname, Refresh, r.refreshExpireAt))
    {
      var accessExpireAt := now + accessDuration;
      var refreshExpireAt := now + refreshDuration;
      TokenPair(
        Encode(Claims(request.id, request.nickname, Access, accessExpireAt), key), accessExpireAt,
        Encode(Claims(request.id, request.nickname, Refresh, refreshExpireAt), key), refreshExpireAt)
    }

    /**
     * Validates a token: a token that does not verify under the service key is
     * TOKEN_NOT_VALID; a verified but expired one is TOKEN_EXPIRED; otherwise
     * its claims are returned.
     */
    function CheckToken(token: Token, now: int, isExpired: ExpireOracle): (r: Result<Claims, Failure>)
      ensures r.Failure? ==> r.error.ServiceError?
      ensures r == Failure(ServiceError(TokenNotValid)) <==> Decode(token, key).None?
      ensures r == Failure(ServiceError(TokenExpired)) <==>
                Decode(token, key).Some? && IsExpired(token, Decode(token, key).value, now, isExpired)
      ensures r.Success? ==> Decode(token, key) == Some(r.value) && !IsExpired(token, r.value, now, isExpired)
    {
      match Decode(token, key)
      case None => Failure(ServiceError(TokenNotValid))
      case Some(claims) =>
        if IsExpired(token, claims, now, isExpired) then Failure(ServiceError(TokenExpired))
        else Success(claims)
    }

    /**
     * Issues a new access token from a refresh token. Validation runs in the
     * order signature, expiry, kind; a live token of the wrong kind is an
     * argument error. The refresh token and its expiry are echoed unchanged.
     */
    function ReCreateAccessToken(refreshToken: Token, now: int, isExpired: ExpireOracle): (r: Result<TokenPair, Failure>)
      ensures r == Failure(ServiceError(TokenNotValid)) <==> Decode(refreshToken, key).None?
      ensures r == Failure(ServiceError(TokenExpired)) <==>
                Decode(refreshToken, key).Some? && IsExpired(refreshToken, Decode(refreshToken, key).value, now, isExpired)
      ensures r == Failure(IllegalArgument) <==>
                Decode(refreshToken, key).Some? && !IsExpired(refreshToken, Decode(refreshToken, key).value, now, isExpired)
                && Decode(refreshToken, key).value.kind == Access
      ensures r.Success? ==>
                var claims := Decode(refreshToken, key).value;
                claims.kind == Refresh
                && r.value.accessExpireAt == now + accessDuration
                && Decode(r.value.accessToken, key) == Some(Claims(claims.id, claims.nickname, Access, r.value.accessExpireAt))
                && r.value.refreshToken == refreshToken
                && r.value.refreshExpireAt == claims.expireAt
    {
      match CheckToken(refreshToken, now, isExpired)
      case Failure(e) => Failure(e)
      case Success(claims) =>
        if claims.kind == Access then Failure(IllegalArgument)
        else
          var accessExpireAt := now + accessDuration;
          Success(TokenPair(
            Encode(Claims(claims.id, claims.nickname, Access, accessExpireAt), key), accessExpireAt,
            refreshToken, claims.expireAt))
    }
  }

  /** Kotlin's `Int / 1000`, which rounds toward zero. */
  function SecondsOf(ms: int): (sec: int)
    ensures 0 <= ms ==> 0 <= ms - sec * 1000 < 1000
    ensures ms < 0 ==> -1000 < ms - sec * 1000 <= 0
  {
    if ms >= 0 then ms / 1000 else -((-ms) / 1000)
  }

  /** The deadline the issuance test compares against: `time.plusSeconds(duration / 1000 + 1)`. */
  function TestDeadline(time: int, duration: int): int
  {
    time + (SecondsOf(duration) + 1) * 1000
  }

  /**
   * Issuance at the test's own clock reading meets the test's deadlines for
   * both tokens, whatever the durations; with whole-second, non-negative
   * durations (the test's 100 s and 1000 s) it does so for any issuance less
   * than a second after that reading.
   */
  lemma CreateTokenMeetsTestDeadline(s: TokenService, request: CreateTokenRequest, time: int, now: int)
    requires time <= now
    requires now == time || (s.accessDuration >= 0 && s.accessDuration % 1000 == 0 && now - time < 1000)
    requires now == time || (s.refreshDuration >= 0 && s.refreshDuration % 1000 == 0 && now - time < 1000)
    ensures s.CreateToken(request, now).accessExpireAt < TestDeadline(time, s.accessDuration)
    ensures s.CreateToken(request, now).refreshExpireAt < TestDeadline(time, s.refreshDuration)
  {
  }

  /** A freshly issued access token checks out, with the request's id and nickname, while it is live. */
  lemma IssuedAccessTokenChecks(s: TokenService, request: CreateTokenRequest, issuedAt: int, now: int, isExpired: ExpireOracle)
    requires !isExpired(s.CreateToken(request, issuedAt).accessToken)
    requires now <= issuedAt + s.accessDuration
    ensures s.CheckToken(s.CreateToken(request, issuedAt).accessToken, now, isExpired)
            == Success(Claims(request.id, request.nickname, Access, issuedAt + s.accessDuration))
  {
  }

  /**
   * Reissuing from a live refresh token succeeds; the new access token differs
   * from the one issued with the refresh token exactly when time has moved on.
   */
  lemma ReCreateFromIssuedRefreshToken(s: TokenService, request: CreateTokenRequest, issuedAt: int, now: int, isExpired: ExpireOracle)
    requires !isExpired(s.CreateToken(request, issuedAt).refreshToken)
    requires now <= issuedAt + s.refreshDuration
    ensures var pair := s.CreateToken(request, issuedAt);
            var r := s.ReCreateAccessToken(pair.refreshToken, now, isExpired);
            r.Success?
            && r.value.refreshToken == pair.refreshToken && r.value.refreshExpireAt == pair.refreshExpireAt
            && (r.value.accessToken != pair.accessToken <==> now != issuedAt)
  {
  }

  /** An access token that is still live is refused by the refresh path as an argument error. */
  lemma ReCreateRejectsIssuedAccessToken(s: TokenService, request: CreateTokenRequest, issuedAt: int, now: int, isExpired: ExpireOracle)
    requires !isExpired(s.CreateToken(request, issuedAt).accessToken)
    requires now <= issuedAt + s.accessDuration
    ensures s.ReCreateAccessToken(s.CreateToken(request, issuedAt).accessToken, now, isExpired) == Failure(IllegalArgument)
  {
  }

  /** A token signed with any key but the service's is TOKEN_NOT_VALID on both paths, whatever the oracle and clock say. */
  lemma ForeignKeyNotValid(s: TokenService, claims: Claims, other: Key, now: int, isExpired: ExpireOracle)
    requires other != s.key
    ensures s.CheckToken(Encode(claims, other), now, isExpired) == Failure(ServiceError(TokenNotValid))
    ensures s.ReCreateAccessToken(Encode(claims, other), now, isExpired) == Failure(ServiceError(TokenNotValid))
  {
  }

  /** The test's other key, derived from a different secret, is such a foreign key. */
  lemma OtherSecretNotValid(s: TokenService, claims: Claims, otherSecret: string, now: int, isExpired: ExpireOracle)
    requires otherSecret != s.secretKey
    ensures s.CheckToken(Encode(claims, DeriveKey(otherSecret)), now, isExpired) == Failure(ServiceError(TokenNotValid))
    ensures s.ReCreateAccessToken(Encode(claims, DeriveKey(otherSecret)), now, isExpired) == Failure(ServiceError(TokenNotValid))
  {
  }

  /** When the oracle reports a freshly issued access token as expired, checking it is TOKEN_EXPIRED. */
  lemma RevokedAccessTokenExpired(s: TokenService, request: CreateTokenRequest, issuedAt: int, now: int, isExpired: ExpireOracle)
    requires isExpired(s.CreateToken(request, issuedAt).accessToken)
    ensures s.CheckToken(s.CreateToken(request, issuedAt).accessToken, now, isExpired) == Failure(ServiceError(TokenExpired))
  {
  }

  /**
   * An ACCESS token signed with the key of the service's own secret that is
   * expired, by the oracle or by its own past expiry, is TOKEN_EXPIRED on both
   * paths: on the refresh path expiry is reported before the kind is looked
   * at, and expiry is never reported as TOKEN_NOT_VALID.
   */
  lemma ExpiredAccessTokenOnBothPaths(s: TokenService, id: string, nickname: string, expireAt: int, now: int, isExpired: ExpireOracle)
    requires isExpired(Encode(Claims(id, nickname, Access, expireAt), DeriveKey(s.secretKey))) || expireAt < now
    ensures var token := Encode(Claims(id, nickname, Access, expireAt), DeriveKey(s.secretKey));
            s.CheckToken(token, now, isExpired) == Failure(ServiceError(TokenExpired))
            && s.ReCreateAccessToken(token, now, isExpired) == Failure(ServiceError(TokenExpired))
            && KnownText(TokenExpired) == Some(ErrorText("AUTH_0002", "토큰이 만료되었습니다."))
  {
  }

  /**
   * The refresh path is the check path followed by a kind check: it fails with
   * the same service error as `CheckToken`, is an argument error exactly for a
   * valid ACCESS token, and succeeds exactly for a valid REFRESH token.
   */
  lemma ReCreateExtendsCheck(s: TokenService, token: Token, now: int, isExpired: ExpireOracle)
    ensures forall code :: s.ReCreateAccessToken(token, now, isExpired) == Failure(ServiceError(code))
                           <==> s.CheckToken(token, now, isExpired) == Failure(ServiceError(code))
    ensures s.ReCreateAccessToken(token, now, isExpired) == Failure(IllegalArgument)
            <==> s.CheckToken(token, now, isExpired).Success? && s.CheckToken(token, now, isExpired).value.kind == Access
    ensures s.ReCreateAccessToken(token, now, isExpired).Success?
            <==> s.CheckToken(token, now, isExpired).Success? && s.CheckToken(token, now, isExpired).value.kind == Refresh
  {
  }

  /** An access token reissued at `now` checks out at any time up to its own expiry, until the oracle revokes it. */
  lemma ReCreatedAccessTokenChecks(s: TokenService, refreshToken: Token, now: int, later: int, isExpired: ExpireOracle)
    requires s.ReCreateAccessToken(refreshToken, now, isExpired).Success?
    requires later <= now + s.accessDuration
    requires !isExpired(s.ReCreateAccessToken(refreshToken, now, isExpired).value.accessToken)
    ensures var claims := Decode(refreshToken, s.key).value;
            s.CheckToken(s.ReCreateAccessToken(refreshToken, now, isExpired).value.accessToken, later, isExpired)
            == Success(Claims(claims.id, claims.nickname, Access, now + s.accessDuration))
  {
  }
}
