/** Vocabulary shared by every module: optional values, the error kinds the framework
    distinguishes, clients, sessions and the durations and instants of its clock. */
module Prelude {

  datatype Option<+T> = None | Some(value: T)

  /** The error kinds of errors.go that some modelled branch tests or returns. */
  datatype Error =
    | UnknownRequest
    | UnauthorizedClient
    | InvalidGrant
    | InvalidRequest
    | InvalidScope
    | ScopeNotGranted
    | ServerError
    | NotFound
    | InactiveToken
    | InvalidatedAuthorizeCode
    | SerializationFailure
    | TokenExpired
    | TokenSignatureMismatch
    | InvalidTokenFormat
    | DeviceExpiredToken
    | AuthorizationPending
    | AccessDenied
    | SlowDown
    | TemporarilyUnavailable
    | RequestUnauthorized
    | JTIKnown
    | InvalidRequestURI
    | UnsupportedResponseType
    | Other(code: nat)

  type Sig = string
  type ID = string

  /** Instants and durations are counted in nanoseconds. */
  type Time = int
  type Duration = int

  const SECOND: Duration := 1_000_000_000

  /** What a session can keep an expiry for. */
  datatype TokenType = AccessToken | RefreshToken | AuthorizeCode | DeviceCode | PushedContext

  /** What a token is generated for. */
  type TokenKind = t: TokenType | t != PushedContext witness AccessToken

  datatype Client = Client(
    id: string,
    public: bool,
    grantTypes: seq<string>,
    scopes: seq<string>,
    audience: seq<string>)

  /** A session keeps an expiry per token type; a missing entry is Go's zero time. */
  datatype Session = Session(subject: string, expiresAt: map<TokenType, Time>)

  function SetExpiresAt(s: Session, t: TokenType, at: Time): Session {
    s.(expiresAt := s.expiresAt[t := at])
  }

  ghost predicate NoRepeats(xs: seq<string>) {
    forall i, j :: 0 <= i < j < |xs| ==> xs[i] != xs[j]
  }
}
