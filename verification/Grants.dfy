/** What the token endpoint handlers share: configuration, validation of presented tokens, and
    the response they fill in. Signatures, the MAC check and the strategies are parameters. */
module Grants {
  import opened Prelude
  import opened Requests
  import Arguments
  import Expiry

  datatype Grant = CodeGrant | RefreshGrant | PasswordGrant | DeviceGrant

  datatype Config = Config(
    refreshScopes: seq<string>,
    scopeStrategy: (seq<string>, string) -> bool,
    audienceStrategy: (seq<string>, seq<string>) -> Option<Error>,
    lifespan: (Client, Grant, TokenType) -> Duration,
    accessLifespan: Duration,
    codeLifespan: Duration,
    deviceLifespan: Duration,
    rateLimited: string -> bool,
    authenticate: (string, string) -> (string, Option<Error>),
    signature: string -> Sig,
    mac: (TokenKind, string) -> Option<Error>)

  /** A token string and its signature, as a strategy generates them. */
  datatype Generated = Generated(token: string, sig: Sig)

  datatype Response = Response(
    accessToken: string,
    expiresIn: int,
    scopes: seq<string>,
    refreshToken: Option<string>)

  const CODE_GRANT := "authorization_code"
  const REFRESH_GRANT := "refresh_token"
  const PASSWORD_GRANT := "password"
  const DEVICE_GRANT := "urn:ietf:params:oauth:grant-type:device_code"

  function Expired(s: Session, t: TokenType, fallback: Option<Time>, now: Time): bool {
    if t in s.expiresAt then s.expiresAt[t] < now
    else fallback.Some? && fallback.value < now
  }

  function ValidateAccess(cfg: Config, r: Requester, token: string, now: Time): Option<Error> {
    if Expired(r.session, AccessToken, Some(r.requestedAt + cfg.accessLifespan), now) then Some(TokenExpired)
    else cfg.mac(AccessToken, token)
  }

  /** A refresh session without an expiry never expires. */
  function ValidateRefresh(cfg: Config, r: Requester, token: string, now: Time): Option<Error> {
    if Expired(r.session, RefreshToken, None, now) then Some(TokenExpired)
    else cfg.mac(RefreshToken, token)
  }

  function ValidateCode(cfg: Config, r: Requester, code: string, now: Time): Option<Error> {
    if Expired(r.session, AuthorizeCode, Some(r.requestedAt + cfg.codeLifespan), now) then Some(TokenExpired)
    else cfg.mac(AuthorizeCode, code)
  }

  function ValidateDevice(cfg: Config, r: Requester, code: string, now: Time): Option<Error> {
    if Expired(r.session, DeviceCode, Some(r.requestedAt + cfg.deviceLifespan), now) then Some(DeviceExpiredToken)
    else cfg.mac(DeviceCode, code)
  }

  /** The session with the expiries a grant sets; a negative refresh lifespan sets none. */
  function WithExpiries(cfg: Config, s: Session, client: Client, grant: Grant, now: Time): Session {
    var s1 := SetExpiresAt(s, AccessToken, Expiry.ExpiresAt(now, cfg.lifespan(client, grant, AccessToken)));
    var rt := cfg.lifespan(client, grant, RefreshToken);
    if rt > -1 then SetExpiresAt(s1, RefreshToken, Expiry.ExpiresAt(now, rt)) else s1
  }

  lemma ExpiriesKeepSubject(cfg: Config, s: Session, client: Client, grant: Grant, now: Time)
    ensures WithExpiries(cfg, s, client, grant, now).subject == s.subject
  {
  }

  ghost predicate HasGrant(c: Client, grant: string) {
    Arguments.InSlice(grant, c.grantTypes)
  }

  ghost predicate RefreshAllowed(cfg: Config, granted: seq<string>) {
    cfg.refreshScopes == [] || Arguments.HasSome(granted, cfg.refreshScopes)
  }

  ghost predicate CanIssueRefresh(cfg: Config, granted: seq<string>, client: Client) {
    RefreshAllowed(cfg, granted) && HasGrant(client, REFRESH_GRANT)
  }

  predicate AllScopesMatch(cfg: Config, allowed: seq<string>, scopes: seq<string>) {
    forall i :: 0 <= i < |scopes| ==> cfg.scopeStrategy(allowed, scopes[i])
  }

  function MakeResponse(cfg: Config, rq: Requester, grant: Grant, at: Generated, rt: Option<Generated>, now: Time)
    : Response
  {
    Response(
      at.token,
      Expiry.WholeSeconds(Expiry.GetExpiresIn(rq.session, AccessToken, cfg.lifespan(rq.client, grant, AccessToken),
                                              now)),
      rq.grantedScope,
      if rt.Some? && rt.value.token != "" then Some(rt.value.token) else None)
  }

  /** The request with the grants of the stored authorization added. */
  function Granting(rq: Requester, from: Requester): Requester {
    rq.(grantedScope := AppendAll(rq.grantedScope, from.grantedScope),
        grantedAudience := AppendAll(rq.grantedAudience, from.grantedAudience))
  }

  method IsRefreshAllowed(cfg: Config, granted: seq<string>) returns (r: bool)
    ensures r <==> RefreshAllowed(cfg, granted)
  {
    if |cfg.refreshScopes| == 0 { return true; }
    r := Arguments.HasOneOf(granted, cfg.refreshScopes);
  }

  method CanIssueRefreshToken(cfg: Config, request: Requester) returns (r: bool)
    ensures r <==> CanIssueRefresh(cfg, request.grantedScope, request.client)
  {
    if |cfg.refreshScopes| > 0 {
      var some := Arguments.HasOneOf(request.grantedScope, cfg.refreshScopes);
      if !some { return false; }
    }
    r := Arguments.StringInSlice(REFRESH_GRANT, request.client.grantTypes);
  }

  /** A client that presents its access token within the advertised lifetime, counted from the
      answer, presents an expired one if and only if the rounded expiry had already passed when the
      answer was given. The expiry the grant stored is the one the validation reads; its rounding and
      the truncation of `expires_in` do not add up against the client in any other case. */
  lemma ObedientClientIsNotExpired(cfg: Config, rq: Requester, s: Session, grant: Grant,
                                   handled: Time, answered: Time, presented: Time,
                                   at: Generated, rt: Option<Generated>)
    requires handled <= answered <= presented
    requires rq.session == WithExpiries(cfg, s, rq.client, grant, handled)
    requires presented <= answered + MakeResponse(cfg, rq, grant, at, rt, answered).expiresIn * SECOND
    ensures ValidateAccess(cfg, Sanitized(rq, {}), at.token, presented) ==
            if rq.session.expiresAt[AccessToken] < answered then Some(TokenExpired) else cfg.mac(AccessToken, at.token)
  {
    Expiry.ExpiresInIsTight(handled, answered, cfg.lifespan(rq.client, grant, AccessToken));
  }

  /** With a lifespan of 100 milliseconds and an answer at 300 milliseconds the expiry rounds to 0,
      nothing is advertised, and the token is expired when it is handed out. */
  lemma ShortLivedTokenIsBornExpired(cfg: Config, rq: Requester, s: Session, grant: Grant, at: Generated,
                                     rt: Option<Generated>)
    requires cfg.lifespan(rq.client, grant, AccessToken) == 100_000_000
    requires rq.session == WithExpiries(cfg, s, rq.client, grant, 300_000_000)
    ensures MakeResponse(cfg, rq, grant, at, rt, 300_000_000).expiresIn == 0
    ensures ValidateAccess(cfg, Sanitized(rq, {}), at.token, 300_000_000) == Some(TokenExpired)
  {
    ObedientClientIsNotExpired(cfg, rq, s, grant, 300_000_000, 300_000_000, 300_000_000, at, rt);
  }
}
