# A verified model of the OAuth 2.0 framework

This project models the token machinery of the framework in Dafny and proves what its store, its
token handlers and its matching and encoding algorithms promise.

**The token store and its families.** Everything issued under one request ID is a *family*: it
starts with an authorization code, a device code or a password grant, and lives on through refresh
token rotation until reuse, replay of its code or revocation ends it. `Store` is the in-memory store
as a value (`State` and functions on it) and as an object whose methods change its maps in place;
`Transactions` is the store as the handlers see it, with operations that fail according to a plan
and, if supported, a transaction. `RefreshFlow`, `CodeFlow`, `DeviceFlow`, `PasswordFlow`,
`Revocation` and `Introspection` are the handlers: each is a method that works step by step on the
store and on the request object, proved against a specification function. `Protocol` makes each
phase of a request one step of a state machine, so that the phases of different requests interleave
freely, and `Families`, `Runs`, `Ledger`, `History`, `Queries`, `Conservation`, `Lineage` and
`Serial` prove what holds in every run. `LetIn` states exactly which requests the first phases let in
and what those take over, `Responses` what the second phases hand out, and `Decisions` says both of
every reachable state in terms of the log of its run: what was authorized, decided and redeemed. Runs include second phases that fail and reactions to reuse, replay and
revocation that fail half-way; `Failures` shows that the handlers' outcomes under failing operations
are such steps and says what each leaves behind. `Serial` serves whole requests one after the other
and shows that this is one of the interleavings. `Witnesses` gives runs from the empty store that
reach the situations other results speak of.

**Single-use records.** `SingleUse` is the common pattern of PKCE sessions (`PKCE`) and pushed
authorization requests (`PAR`): stored once, gone as soon as anybody presents the key. `JTI` is the
blacklist of assertion identifiers under a clock that never runs backwards. `TokenEndpoint` is the
loop over the configured handlers, with PKCE as one of them.

**Matching and encoding.** `ScopeStrategies`, `Audience`, `Arguments`, `Requests`, `Expiry`, `HMAC`,
`JwtClaims`, `Helper` and `Strings`.

What the environment guarantees is written down in `Protocol.Enabled`: request IDs and signatures of
generated tokens are new, a token request starts without grants, and a device code whose MAC
verifies does not carry the signature that was generated for a user code. What it provides is a
parameter: the clock, generated tokens (with signatures never seen before), token signatures, the
MAC, SHA-256, base64, `url.Parse`, password authentication, client authentication and the lifespans
of clients.

## What the proofs found

* `Arguments.Matches` promises an out-of-order comparison that ignores case; of duplicates it only says
  that items equal including case are not matched. The code accepts `["a", "b"]` for the items
  `"a", "A"` (`Arguments.PromiseBroken`); `Arguments.MatchesPromiseExact` says for which items the
  promise holds.
* The stored expiry is rounded and the advertised lifetime truncated. This never makes a client that
  keeps to the advertised lifetime present an expired token, except when the rounded expiry has
  passed at the answer (`Grants.ObedientClientIsNotExpired`): then the token is expired when it is
  handed out, as with a lifespan of 100 ms and an answer at 300 ms
  (`Grants.ShortLivedTokenIsBornExpired`).
* The first phase of a code redemption validates the token request itself, whose session the memory
  store does not fill in, so it does not see the authorization's own expiry (`History.FirstPhaseIgnoresExpiry`,
  `History.ExpiredCodeIsLetIn`). The second phase does: `History.ExpiredCodeYieldsNothing`.
* A family that was revoked while a refresh of it waits for its second phase comes back to life.
  `Lineage.WaitingRefreshRevives` says exactly when, `Lineage.RevocationLosesTheRace` gives the run,
  and `Lineage.OverIsForever` the condition under which an ended family stays ended.
* Two refreshes that present the same token and are both let in both issue tokens:
  `Lineage.OneTokenRefreshedTwice`. Served one at a time, refreshes form one chain:
  `Serial.RefreshesFormOneChain`.
* Reuse handling and revocation take a store's "not found" for an answer, and a replayed code is
  refused whatever becomes of its revocations. `Failures.ToleratedFaultsMayLeaveTokens`,
  `Failures.ReportedRevocationMayLeaveToken` and `Failures.ReplayFaultsMayLeaveTokens` say exactly
  when that leaves live tokens behind, and `Failures.RevocationReportedOverFailure` gives an input on
  which revocation reports success and the token stays live.
* A device that polls with an expired code is told so only if its user has accepted; before a decision
  it is told that the authorization is pending (`Decisions.PollingInEveryRun`), where section 3.5 of
  RFC 8628 has a code of its own for expiry.
* The password grant hands a refresh token also to a client that may not refresh; the code and the
  device grant do not (`Responses.PasswordResponse`, `Responses.CodeResponse`,
  `Responses.DeviceResponse`).
* Claims that name audiences do not survive JSON: the list is written, but the form in which a decoder
  hands it back is not read (`JwtClaims.JsonRoundTripExactly`).
* Without enforcement of PKCE the stored challenge is used up by the first attempt, and the next
  attempt is judged as if there had never been one: `PKCE.UnenforcedAttemptOpensCode`.
* A secret of fewer than 32 bytes in the list of secrets disables all secrets after it:
  `HMAC.ValidatesExactly`.
* The check of an assertion identifier and its recording disagree at the very instant of its expiry:
  `JTI.CheckAndRecordDifferOnlyAtExpiry`.
* The expiry set on a pushed authorization request is not looked at when the request is redeemed:
  `PAR.ExpiredRequestsAreHonoured` says so of every run and `PAR.ExpiredRequestHonoured` gives one.

## Model

| member | source | states |
|---|---|---|
| Runs.AtMostOneOfEachInEveryRun | storage/memory.go:312-422 | In every run, under every interleaving of the phases of code, device, password and refresh requests with revocations, failing ones included, a request ID has at most one stored access token and at most one active refresh token, its index entries name those, and an entry that names a stored token names one of its own family; an entry may outlive its token |
| Decisions.RefreshLetInInEveryRun | handler/oauth2/flow_refresh.go:36-100 | In every reachable state a refresh is let in if and only if its client has the grant, presents a live, unexpired refresh token with a good MAC of a family of its own, that family was granted a refresh scope if one is configured, and the client may still use every scope and the audience the family was granted |
| Decisions.CodeLetInInEveryRun | handler/oauth2/flow_authorize_code_token.go:21-85 | In every reachable state a code request is let in if and only if its client has the grant and presents a code that the log says was authorized for that client and never redeemed, in time by the token request's own reckoning, with a good MAC and with the redirect URI of the authorization, if it had one (section 4.1.3 of RFC 6749) |
| Decisions.PollingInEveryRun | handler/rfc8628/token_handler.go:138-198 | What a polling device whose client has the grant and is not slowed down is told in every reachable state, from the log: an invalid grant once the code is redeemed, pending until a decision and after it is withdrawn, denied after a last decision to reject, and after a last decision to accept whether the code has expired, is good and is its own (section 3.5 of RFC 8628) |
| Decisions.UnknownDeviceCode | handler/rfc8628/token_handler.go:255-286 | A device code that was never started, and that does not carry the signature of a user code, is an invalid grant |
| Decisions.CodeRedemptionInEveryRun | handler/oauth2/flow_authorize_code_token.go:119-143 | In every reachable state the second phase of a waiting code request issues tokens if and only if the code is not redeemed yet, its authorization has not expired and the MAC is good; a redeemed code is a server error, the others are invalid requests, and errors change nothing |
| Decisions.DeviceRedemptionInEveryRun | handler/rfc8628/token_handler.go:54-75 | In every reachable state the second phase of a waiting device request issues tokens if and only if the code is not redeemed yet, the last decision is to accept, the code has not expired and the MAC is good |
| Decisions.PasswordNeedsAuthentication | handler/oauth2/flow_resource_owner.go:42-118 | A password request changes nothing unless grant, scopes, audience and credentials are all in order; otherwise its tokens carry the authenticated subject, the scopes the application granted and no password |
| LetIn.RefreshLetInExactly | handler/oauth2/flow_refresh.go:36-100 | The same for every store, in terms of the request stored with the token |
| LetIn.RefreshRefusals | handler/oauth2/flow_refresh.go:41-81 | An unknown, used, expired or foreign refresh token is an invalid grant, and only a used one changes the store |
| LetIn.RefreshedExactly | handler/oauth2/flow_refresh.go:118-167 | The second phase of a refresh fails if and only if the token its family's index entry names is no longer stored, as an invalid request that changes nothing |
| LetIn.CodeLetInExactly | handler/oauth2/flow_authorize_code_token.go:21-85 | For every store: let in if and only if grant, code, own expiry, MAC, client and redirect URI are in order, otherwise an invalid grant; only a spent code changes the store |
| LetIn.CodeRedeemedExactly | handler/oauth2/flow_authorize_code_token.go:119-143 | The answer of the second phase for every store, and that errors change nothing |
| LetIn.DeviceLetInExactly | handler/rfc8628/token_handler.go:138-286 | The answer to such a device request for every store, by what was decided |
| LetIn.DeviceTurnedAway | handler/rfc8628/token_handler.go:138-160 | A client without the grant, or one that polls too fast, is told so before the code is looked at |
| LetIn.DeviceRedeemedExactly | handler/rfc8628/token_handler.go:54-75 | The answer of the second phase for every store, and that errors change nothing |
| LetIn.PasswordLetInExactly | handler/oauth2/flow_resource_owner.go:42-89 | Let in if and only if grant, scopes, audience and credentials are in order; an invalid grant means that the credentials were not found |
| LetIn.ExpiriesLast | handler/oauth2/flow_refresh.go:106-112 | The session keeps its subject and gets the whole seconds nearest to the ends of both lifespans; a negative refresh lifespan leaves the refresh expiry as it was |
| LetIn.CodeTakesOver | handler/oauth2/flow_authorize_code_token.go:68-101 | A request that is let in takes over the identity, the requested scopes and audience and the session of its authorization, with expiries that last for the lifespans of client and grant, and keeps its own client and form |
| LetIn.DeviceTakesOver | handler/rfc8628/token_handler.go:168-195 | The same for device requests |
| LetIn.RefreshTakesOver | handler/oauth2/flow_refresh.go:82-113 | The same for refreshes, which take over the grants as well |
| LetIn.PasswordTakesOver | handler/oauth2/flow_resource_owner.go:66-88 | A password request gets the authenticated subject and the expiries |
| LetIn.RefusedRequestsGainNothing | handler/oauth2/flow_authorize_code_token.go:58-85 | Whatever operations fail, a refused code or device request has taken over at most what was asked for in its authorization |
| LetIn.RefusedRefreshGainsAllowedScopes | handler/oauth2/flow_refresh.go:82-104 | Whatever operations fail, a refused refresh has been granted no audience and only scopes its client may use |
| Responses.RefreshHandsOutLiveTokens | handler/oauth2/flow_refresh.go:118-167 | If strategies sign the tokens they generate as they read them, then after a refresh in any reachable state the signatures of both tokens in the response are live and that of the presented token is not |
| Responses.RefreshResponse | handler/oauth2/flow_refresh.go:136-160 | The response of a refresh names the generated tokens, which are stored together, the scopes stored with them and the seconds to the stored expiry |
| Responses.CodeResponse | handler/oauth2/flow_authorize_code_token.go:145-185 | The same for a code; a refresh token is handed out and stored if and only if the authorization's client may refresh and was granted a refresh scope, if one is configured; the tokens carry exactly the scopes and audience of the request and the authorization, and the code is spent |
| Responses.DeviceResponse | handler/rfc8628/token_handler.go:76-130 | The same for a device code, which is gone afterwards |
| Responses.PasswordResponse | handler/oauth2/flow_resource_owner.go:91-118 | The same for a password, whose refresh token depends on the granted scopes only |
| Runs.StepKeepsInv | handler/oauth2/flow_refresh.go:118-167 | Every step keeps the store's invariant: exact indexes, tokens only of known families and with their client, scopes and audience, codes active exactly until the family's first tokens exist |
| Runs.RunKeepsInv | storage/memory.go:521-528 | Hence every run keeps it |
| Runs.RenewedConforms | handler/oauth2/flow_refresh.go:82-104 | A renewed request has exactly the granted scopes and audience of its family |
| Runs.RevokeShape | handler/oauth2/revocation.go:24-62 | A revocation leaves the store alone or revokes the whole family of the token it found |
| Families.AtMostOneLive | storage/memory.go:312-355 | Two live tokens of one kind and family are the same token |
| Families.KillEffect | storage/memory.go:393-422 | Revoking both kinds by request ID, which reaches tokens only through the indexes, leaves the family dead, touches no other family and keeps the indexes exact |
| Families.ReuseEffect | handler/oauth2/flow_refresh.go:178-204 | So does the reaction to a reused refresh token, which also deletes that token |
| Families.ReplayIsKill | handler/oauth2/flow_authorize_code_token.go:32-52 | Replay, in which the revocations come in the other order, and rotation do the same to the family |
| Families.IssueIndexed | storage/memory.go:312-355 | Storing new tokens of a dead family under unused signatures keeps the indexes exact |
| Lineage.OverIsForever | handler/oauth2/flow_refresh.go:36-63 | A dead family of which no refresh is under way never holds a live token again, in any interleaving |
| Lineage.WaitingRefreshRevives | handler/oauth2/flow_refresh.go:118-167 | A refresh let in before its family died revives it if and only if the token its index entry names is still stored |
| Lineage.OneTokenRefreshedTwice | handler/oauth2/flow_refresh.go:118-167 | From every reachable state in which two refreshes presenting the same token are both let in, both second phases issue live tokens, so that refreshes need not form a chain |
| Lineage.RevocationLosesTheRace | handler/oauth2/revocation.go:24-62 | From every reachable state in which a refresh is let in, a successful revocation of the very token between its phases does not keep the second phase from issuing live tokens |
| Serial.RefreshesFormOneChain | handler/oauth2/flow_refresh.go:118-167 | When requests are served one at a time, every refresh presented the token its family was issued last and appends one token to the chain |
| Serial.NewestIsLiveOrFamilyIsDead | storage/memory.go:344-369 | Then the newest token of a chain is live or the family has no live token, and no older refresh token is live |
| Serial.OnlyTheNewestMayBePresented | handler/oauth2/flow_refresh.go:36-63 | Then presenting any other token of the chain is refused, and afterwards the family has no live token if and only if the presenting client may use the refresh grant or the family had none before (section 5.2.2.3 of RFC 6819) |
| Serial.EndedFamilyStaysEnded | handler/oauth2/flow_refresh.go:178-204 | Then a family that was emptied never holds a live token again |
| Serial.ServingIsRunning | access_request_handler.go:82-107 | Serving whole requests is one of the interleavings, so all results about runs hold for it |
| Failures.ToleratedFaultsMayLeaveTokens | handler/oauth2/flow_refresh.go:187-197 | Reuse handling that tolerated failures ends the family if and only if each failed revocation had nothing to revoke |
| Failures.ReplayFaultsMayLeaveTokens | handler/oauth2/flow_authorize_code_token.go:32-52 | The revocations of a replayed code, whose errors are passed over, end the family if and only if each failed one had nothing to revoke |
| Failures.ReportedRevocationMayLeaveToken | handler/oauth2/revocation.go:24-73 | For every plan of failing operations: after a reported success the presented token is live if and only if it was before and its lookup, or else the revocation of its kind, failed as "not found" or "inactive" |
| Failures.RevocationReportedOverFailure | handler/oauth2/revocation.go:24-73 | A client's live refresh token survives a revocation that reports success when the lookup finds it and its revocation fails as "not found" |
| Failures.RevocationErrors | handler/oauth2/revocation.go:24-73 | For every plan of failing operations: another client's token is refused if and only if its lookup succeeds; any other error asks the client to try again, and then some operation failed otherwise than as "not found" or "inactive" |
| Failures.FailingLookups | handler/oauth2/flow_authorize_code_token.go:31-58 | A failing lookup in a first phase changes nothing and is an invalid grant if nothing was found, a server error otherwise |
| Failures.CodePhaseIsStep | handler/oauth2/flow_authorize_code_token.go:21-104 | Whatever operations fail, the first phase of a code request is a step of the state machine |
| Failures.DevicePhaseIsStep | handler/rfc8628/token_handler.go:138-198 | The same for device requests |
| Failures.RefreshPhaseIsStep | handler/oauth2/flow_refresh.go:36-115 | The same for refresh requests on a transactional store, reuse handling included |
| Failures.RevocationIsStep | handler/oauth2/revocation.go:24-73 | The same for revocations |
| Failures.PasswordPhaseIsStep | handler/oauth2/flow_resource_owner.go:91-118 | Whatever operations fail, a password request leaves the store of a step: unchanged, with both tokens, or with the access token only |
| Witnesses.ARefreshIsLetIn | handler/oauth2/flow_refresh.go:36-115 | A run from the empty store after which a refresh is let in |
| Witnesses.AnExpiredCodeIsLetIn | handler/oauth2/flow_authorize_code_token.go:60-67 | A run from the empty store after which a request with an expired code is let in |
| History.CodesYieldTokensOnce | handler/oauth2/flow_authorize_code_token.go:124-175 | In every run an authorization code and a device code yield tokens at most once |
| History.DeviceTokensNeedAcceptance | handler/rfc8628/token_handler.go:54-120 | A device code yields tokens only when the last decision before is to accept, and only for the client it was issued to |
| History.TokensCarryWhatWasGranted | handler/oauth2/flow_refresh.go:82-104 | Every stored token, however many refreshes lie behind it, carries exactly the scopes, audience and subject granted where its family came from: by the code's authorization, by the last decision before the device code was redeemed, or to the password request |
| Ledger.StepKeepsLog | storage/memory.go:257-283 | Every step keeps store and log in agreement: which codes and device sessions there are, what they hold, what was decided and granted, and what is spent |
| Ledger.LastDecisionMeaning | handler/rfc8628/token_handler.go:276-283 | The last decision about a user code is that of the last entry that decides |
| History.ReplayedCodeEmptiesFamily | handler/oauth2/flow_authorize_code_token.go:32-52 | Presenting a spent code is refused and touches no other family, and afterwards its own has no live token if and only if the presenting client may use the code grant or the family had none before |
| History.FirstPhaseIgnoresExpiry | handler/oauth2/flow_authorize_code_token.go:60-67 | The first phase gives the same answer whatever session, and so whatever expiry, is stored for the code |
| History.ExpiredCodeIsLetIn | handler/oauth2/flow_authorize_code_token.go:60-67 | Every request that is let in would be let in with a code that expired before |
| History.ExpiredCodeYieldsNothing | handler/oauth2/flow_authorize_code_token.go:124-143 | A code past its authorization's expiry yields no tokens and changes nothing, even if the first phase let it in |
| Queries.RevocationInEveryRun | handler/oauth2/revocation.go:24-73 | In every reachable state success means the token is no longer live, the calling client's live token takes exactly its family with it, another client's is refused, and the hint changes nothing (sections 2.1 and 2.2 of RFC 7009) |
| Queries.RevocationSound | handler/oauth2/revocation.go:64-73 | The same for every store with exact indexes |
| Queries.IntrospectionExact | handler/oauth2/introspector.go:27-102 | Introspection accepts exactly the live, unexpired tokens with a valid MAC that cover every asked scope; use, merged request and error do not depend on the hint (section 2.1 of RFC 7662) |
| Queries.IntrospectionInEveryRun | handler/oauth2/introspector.go:27-53 | Verdict, use, merged request and independence of the hint hold in every reachable state |
| Queries.AffirmedRequestIsTheStoredOne | handler/oauth2/introspector.go:69-102 | In every reachable state an accepted token is reported with the identity, client and session stored with it, the subject, scopes and audience its family was granted beside what the asking request held, and form fields of which the stored ones win |
| Queries.IntrospectionRefusals | handler/oauth2/introspector.go:69-84 | How a token is refused: unknown, expired, with a bad MAC, or without the asked scopes |
| Queries.IntrospectionWithoutRefresh | handler/oauth2/introspector.go:27-35 | With refresh tokens left out exactly the acceptable access tokens are accepted |
| Queries.RevokedIsNotAffirmed | handler/oauth2/introspector.go:69-102 | A token whose revocation succeeded is not accepted in the state it leaves |
| Conservation.FamilyIsConserved | handler/oauth2/flow_refresh.go:82-104 | Any two tokens of a family, however many refreshes lie between them, have the same client, scopes and audience |
| Conservation.DeadTokensStayDead | storage/memory.go:357-410 | A token that is no longer live is never live again and never affirmed by introspection, whatever happens later |
| Conservation.StepFrugal | storage/memory.go:312-355 | No step changes what a stored token or a recorded grant says, reactivates a token or reuses a signature |
| Conservation.AffirmedScopesAreAllowed | handler/oauth2/introspector.go:55-84 | Every non-empty scope introspection affirms of a token issued by a refresh is covered by the scopes its client had at that refresh, if the scope strategy is transitive |
| Conservation.AffirmedScopesAreAllowedByOwnStrategies | scope_strategy.go:38-111 | The three strategies of the library need no such condition |
| RefreshFlow.HandleTokenEndpointRequest | handler/oauth2/flow_refresh.go:36-115 | For every plan of failing operations: the store, the answer and the request are those of its specification, reuse handling included; on a transactional store every error but a refused grant leaves the store as it was |
| RefreshFlow.HandleWithoutFaults | handler/oauth2/flow_refresh.go:36-115 | On a store that does not fail this is the first phase of the state machine |
| RefreshFlow.Renew | handler/oauth2/flow_refresh.go:87-113 | The loops grant exactly the original scopes and audience, or stop at the first scope or at the audience the client may no longer use, with the request as it then is |
| RefreshFlow.PopulateTokenEndpointResponse | handler/oauth2/flow_refresh.go:118-167 | For every plan of failing operations: success if and only if both tokens were generated, the rotation finds its token and every operation, begin and commit included, goes through; then the transaction is closed, the family rotated and both tokens stored; otherwise a transactional store is exactly as before |
| RefreshFlow.HandleRefreshTokenReuse | handler/oauth2/flow_refresh.go:178-204 | For every plan of failing operations the outcome is that of its specification; on a transactional store it succeeds if and only if every operation, begin and commit included, succeeded or failed in a tolerated way, with the transaction closed, and an error has undone the writes |
| RefreshFlow.HandleStorageError | handler/oauth2/flow_refresh.go:206-232 | A conflict, a missing or an inactive token is reported as an invalid request and anything else as a server error, with the store as it was when the transaction began |
| CodeFlow.HandleTokenEndpointRequest | handler/oauth2/flow_authorize_code_token.go:21-104 | For every plan of failing operations: the store, the answer and the request are those of its specification, a half-made revocation after a replay included |
| CodeFlow.HandleWithoutFaults | handler/oauth2/flow_authorize_code_token.go:21-104 | On a store that does not fail this is the first phase of the state machine |
| CodeFlow.PopulateTokenEndpointResponse | handler/oauth2/flow_authorize_code_token.go:119-191 | For every plan of failing operations: success if and only if the code is still good, the tokens were generated and every operation, begin and commit included, goes through; then the transaction is closed, the code spent and the tokens stored; otherwise a transactional store is exactly as before |
| CodeFlow.RedeemInTx | handler/oauth2/flow_authorize_code_token.go:155-190 | The transaction with its deferred rollback: success if and only if begin, each write and the commit go through; an error has undone the writes |
| DeviceFlow.HandleTokenEndpointRequest | handler/rfc8628/token_handler.go:138-198 | For every plan of failing operations: the answer and the request are those of its specification; the store never changes |
| DeviceFlow.HandleWithoutFaults | handler/rfc8628/token_handler.go:138-198 | On a store that does not fail this is the first phase of the state machine |
| DeviceFlow.PopulateTokenEndpointResponse | handler/rfc8628/token_handler.go:54-136 | As for authorization codes, commit included; the session is read and its decision checked anew |
| DeviceFlow.RedeemInTx | handler/rfc8628/token_handler.go:96-135 | The transaction with its deferred rollback: success if and only if begin, each write and the commit go through; an error has undone the writes |
| DeviceFlow.GetSession | handler/rfc8628/token_handler.go:255-286 | A device code is pending, denied or ready as its user code is undecided, rejected or accepted; a failing lookup is reported by its kind |
| PasswordFlow.HandleTokenEndpointRequest | handler/oauth2/flow_resource_owner.go:42-89 | The checks in their order; on success the password is gone from the request |
| PasswordFlow.PopulateTokenEndpointResponse | handler/oauth2/flow_resource_owner.go:91-118 | For every plan of failing operations: an access token and, when the scopes allow it, a refresh token are stored; when the second write fails the access token stays |
| PasswordFlow.IssueAccessToken | handler/oauth2/helper.go:24-37 | The access token is stored with the sanitised request, or the store is unchanged |
| Revocation.RevokeToken | handler/oauth2/revocation.go:24-62 | For every plan of failing operations: the store and the answer are those of its specification, with the hint-ordered discovery, both revocations and the mapping of their errors |
| Revocation.RevokeWithoutFaults | handler/oauth2/revocation.go:24-73 | On a store that does not fail this is the revocation of the state machine |
| Introspection.IntrospectToken | handler/oauth2/introspector.go:27-53 | For every plan of failing operations the hint-ordered checks compute their specification, a failing lookup having the effect of one that finds nothing; a refused token leaves the request as it was |
| Introspection.FailuresNeverAccept | handler/oauth2/introspector.go:69-102 | A check passes under failing lookups if and only if its own lookup succeeds and it passes without failures |
| Introspection.IntrospectAccessToken | handler/oauth2/introspector.go:69-84 | The request is merged if and only if the lookup and every check pass |
| Introspection.IntrospectRefreshToken | handler/oauth2/introspector.go:86-102 | The same for refresh tokens |
| Introspection.MatchScopes | handler/oauth2/introspector.go:55-67 | Every non-empty asked scope is covered by the granted ones |
| Grants.CanIssueRefreshToken | handler/oauth2/flow_authorize_code_token.go:106-117 | A refresh token is issued when a refresh scope is granted, or none is configured, and the client has the grant |
| Grants.ObedientClientIsNotExpired | handler/oauth2/strategy_hmacsha_plain.go:52-63 | A client that presents its access token within the advertised lifetime presents an expired one if and only if the rounded expiry had passed when the answer was given; otherwise the MAC alone decides |
| Grants.ShortLivedTokenIsBornExpired | handler/oauth2/helper.go:39-44 | A token of a 100 ms lifespan answered at 300 ms is advertised with 0 seconds and is expired when handed out |
| Expiry.ExpiresInIsTight | handler/oauth2/helper.go:39-44 | The advertised lifetime ends at the rounded expiry or less than a second before it if the expiry has not passed at the answer, at it or less than a second after it if it has, and does not exceed a whole-second lifespan |
| Expiry.WhenExpiryIsAhead | handler/oauth2/helper.go:39-44 | The rounded expiry is not before the answer when the lifespan exceeds the time spent on the request by at least half a second |
| Transactions.Storage.MaybeBeginTx | storage/transactional.go:28-36 | A transaction remembers the store's content, if the store supports one |
| Transactions.Storage.MaybeCommitTx | storage/transactional.go:40-47 | A commit that fails leaves the transaction open |
| Transactions.Storage.MaybeRollbackTx | storage/transactional.go:51-58 | A rollback restores the remembered content |
| Store.MemoryStore.CreateAccessTokenSession | storage/memory.go:312-323 | The token is stored and its family's index entry names it |
| Store.MemoryStore.CreateRefreshTokenSession | storage/memory.go:344-355 | The same for refresh tokens |
| Store.MemoryStore.GetRefreshTokenSession | storage/memory.go:357-369 | An inactive token is reported together with its request |
| Store.MemoryStore.GetAuthorizeCodeSession | storage/memory.go:257-270 | A spent code is reported together with its request |
| Store.MemoryStore.InvalidateAuthorizeCodeSession | storage/memory.go:272-283 | The code becomes inactive and stays stored |
| Store.MemoryStore.RevokeRefreshToken | storage/memory.go:393-410 | The token the family's index entry names becomes inactive; a dangling entry is an error |
| Store.MemoryStore.RevokeAccessToken | storage/memory.go:412-422 | The token the family's index entry names is deleted; a dangling entry is not an error |
| Store.MemoryStore.RotateRefreshToken | storage/memory.go:521-528 | Both revocations, stopping at the first error |
| Store.MemoryStore.CreateDeviceAuthSession | storage/memory.go:531-542 | One session is reached by the device code's and the user code's signature |
| Store.MemoryStore.SetClientAssertionJWT | storage/memory.go:230-247 | In any visiting order and with the clock read anew for each entry, the loop removes expired entries only and leaves none that had expired at the start; the identifier is recorded if and only if no entry for it is left |
| Store.MemoryStore.ClientAssertionJWTValid | storage/memory.go:219-228 | An identifier is refused while its expiry lies ahead |
| JTI.RecordsAreSeparatedByExpiry | storage/memory.go:230-247 | With a clock that never runs backwards and any interleaving of checks and records, two successful records of one identifier are separated by the first one's expiry |
| JTI.SeparationIsTight | storage/memory.go:230-247 | One tick after its expiry an identifier can be recorded again |
| JTI.RecordsExactlyAfterExpiry | storage/memory.go:240-246 | A record made at one instant succeeds if and only if every earlier expiry of the identifier has passed |
| JTI.ExpiredIdentifiersCanBeRecorded | client_authentication.go:159-182 | A record succeeds if all earlier expiries of the identifier have passed when it starts |
| JTI.CleaningIsExact | storage/memory.go:234-239 | With a clock that stands still the loop removes exactly the expired entries |
| JTI.CheckAndRecordDifferOnlyAtExpiry | storage/memory.go:219-247 | A check and a record at one instant disagree if and only if the identifier expires at that instant |
| SingleUse.AcceptedExactlyWhenFirst | storage/memory.go:293-310 | A presentation is accepted if and only if the record was stored, it is the first since and it deserves it |
| PKCE.HandleAuthorizeEndpointRequest | handler/pkce/handler.go:36-69 | Which challenge is stored for a code, and when none is needed; an error leaves the store as it was |
| PKCE.HandleTokenEndpointRequest | handler/pkce/handler.go:120-230 | The decision on a verifier, for every plan of failing operations; whoever passes has used the session up |
| PKCE.EnforcedCheckIsExact | handler/pkce/handler.go:150-227 | With enforcement a stored challenge is met by exactly the well-formed verifiers of section 4.1 of RFC 7636 that satisfy section 4.6 |
| PKCE.CheckIsExact | handler/pkce/handler.go:150-227 | For every configuration: a stored challenge is met by exactly the verifiers of sections 4.1 and 4.6 of RFC 7636, and a session without a challenge passes if and only if there is no verifier and the client may do without one |
| PKCE.AuthorizationIsExact | handler/pkce/handler.go:36-118 | For every configuration: which authorizations are let through, and that a session is stored exactly for those that send a challenge or a method |
| PKCE.AttemptInEveryRun | handler/pkce/handler.go:120-230 | For every configuration, in every run: the first attempt on a code whose authorization sent a challenge passes if and only if its verifier meets that challenge; any other attempt, every later one among them, if and only if there is no verifier and the client may do without one |
| PKCE.AttemptUnderIsExact | handler/pkce/handler.go:129-155 | Failing operations let nobody pass, except that a store that claims not to find the session lets pass whoever needs none |
| PKCE.StoredChallenge | handler/pkce/handler.go:60-66 | What is stored for a code is the challenge and the method its authorization request sent |
| PKCE.PassesExactlyOnFirstCorrectAttempt | handler/pkce/handler.go:120-230 | With enforcement, in every run, an attempt passes if and only if a challenge was stored when the code was issued, nobody has tried the code since and the verifier meets the challenge that the authorization request of that code sent |
| PKCE.NoPassAfterAnAttempt | handler/pkce/handler.go:149-151 | So a code passes at most once, and a failed attempt makes it unredeemable |
| PKCE.UnenforcedAttemptOpensCode | handler/pkce/handler.go:135-151 | Whatever becomes of a first attempt, a second one without a verifier passes if and only if the client may do without one |
| PAR.HandlePushedAuthorizeEndpointRequest | handler/par/flow_pushed_authorize.go:33-84 | The checks in their order; on success the request is stored with the expiry its lifespan gives it |
| PAR.PushedExactly | handler/par/flow_pushed_authorize.go:33-84 | A request can be pushed if and only if its response type may be, its redirect URI is good and its client may use its scopes and audience; it is stored as it is, but for its expiry |
| TokenEndpoint.NewAccessRequest | access_request_handler.go:44-113 | For every plan of failing operations the request is parsed and every handler is consulted as specified |
| TokenEndpoint.ConsultHandlers | access_request_handler.go:80-107 | For every plan of failing operations the loop over the handlers computes its specification, stopping at the first error |
| TokenEndpoint.EveryResponsibleHandlerMustAgree | access_request_handler.go:80-112 | For any handlers in any order and every plan of failing operations, no error means that every responsible handler could go without client authentication or had it, and let the request in or declared it none of its business; the request is accepted if and only if one let it in |
| TokenEndpoint.AcceptedExactly | access_request_handler.go:44-113 | The endpoint accepts a request if and only if it has a form and a grant type, its resource indicator is good, every responsible handler agrees and one lets it in; it asks for the scopes of its form |
| TokenEndpoint.CodeRequestsNeedCodeAndVerifier | access_request_handler.go:80-112 | With the code and the PKCE handler and any others that are not responsible or declare every code request none of their business, a code request is accepted if and only if the client is authenticated, has the grant, presents an active code of its own in time, with a good MAC and the redirect URI of its authorization, and its verifier meets the stored challenge; a request the code handler refuses does not use the challenge up, any other does |
| TokenEndpoint.AllEnabledServesCodes | compose/compose.go:64-99 | The handlers registered when everything is enabled, the OpenID Connect handlers among them, are such a list |
| TokenEndpoint.EnforcedCodeIsLetInOnce | access_request_handler.go:80-107 | With enforcement the endpoint accepts a code only for its own client and with a verifier for its challenge, which is then used up; in every later store without a challenge for that code, whatever else it holds, the code is turned away |
| PAR.AuthorizeRequestFromPAR | authorize_request_handler.go:363-407 | A pushed request is merged and deleted; it is honoured only for the client that pushed it, whatever operations of the store fail |
| PAR.HonouredExactlyOnce | authorize_request_handler.go:384-404 | In every run a request URI is honoured if and only if it was pushed, is presented for the first time, and by the client that pushed it (RFC 9126) |
| PAR.NotHonouredAgain | authorize_request_handler.go:397-404 | Any presentation uses it up, also one by the wrong client |
| PAR.HonouredRequestIsThePushedOne | authorize_request_handler.go:384-407 | In every run a request that is honoured goes on with the pushed redirect URI, response types, state, response mode, client, session and form fields, and with no pushed scope or audience lost |
| PAR.ExpiredRequestsAreHonoured | authorize_request_handler.go:384-404 | In every run an expired request is honoured if and only if it is presented for the first time and by the client that pushed it: the expiry makes no difference |
| PAR.ExpiredRequestHonoured | handler/par/flow_pushed_authorize.go:63-66 | Every request a client may push can be pushed, outlive its lifespan and be honoured |
| PAR.ValidateResponseTypes | authorize_request_handler.go:289-314 | Response types are accepted if and only if they match one of the client's, and only then recorded |
| ScopeStrategies.WildcardScopeStrategy | scope_strategy.go:78-111 | The nested loops decide the segment-wise rule |
| ScopeStrategies.WildcardReflexive | scope_strategy.go:78-111 | Every scope matches itself |
| ScopeStrategies.WildcardTransitive | scope_strategy.go:78-111 | Matching by one matcher is transitive |
| ScopeStrategies.TrailingStar | scope_strategy.go:87-104 | A trailing star covers one or more further segments, the first of which is not empty |
| ScopeStrategies.HierarchicScopeStrategy | scope_strategy.go:38-66 | The loop with its length shortcut decides whether the scope equals a granted one or continues it after a dot |
| ScopeStrategies.SegmentsBegin | scope_strategy.go:50-61 | Comparing segments is the same as comparing up to a dot |
| ScopeStrategies.HierarchicIsPreorder | scope_strategy.go:38-66 | Hierarchic matching is reflexive and transitive |
| ScopeStrategies.ExactIsStrictest | scope_strategy.go:68-76 | What exact matching accepts the other two accept |
| ScopeStrategies.StrategiesAreTransitive | scope_strategy.go:38-111 | Whatever a covered list covers is covered, for all three strategies |
| ScopeStrategies.FilterRequestedScopes | scope_strategy.go:19-36 | In strict mode the list is returned unchanged or refused, otherwise unknown scopes are dropped |
| ScopeStrategies.KeptIsAllowed | scope_strategy.go:29-35 | Filtering keeps exactly the allowed scopes and changes nothing exactly when the strict mode accepts |
| Audience.DefaultAudienceMatchingStrategy | audience_strategy.go:15-49 | The loops accept if and only if everything parses and each requested audience is at or below a whitelisted one |
| Audience.PathRule | audience_strategy.go:33-39 | The three alternatives of the code are one rule: the trimmed path, or what starts with it and a slash; the slice is in bounds |
| Audience.BelowIsPreorder | audience_strategy.go:33-39 | The rule is reflexive and transitive |
| Audience.AcceptsIsTransitive | audience_strategy.go:15-49 | A client that may ask for a list may ask for whatever that list covers |
| Audience.ExactAudienceMatchingStrategy | audience_strategy.go:55-74 | Every requested audience is whitelisted literally |
| Arguments.Matches | arguments.go:15-29 | Equal lengths, every item present, no item given twice |
| Arguments.MatchesIsSameUpToCase | arguments.go:10-29 | For items that differ up to case this is equality up to order and case |
| Arguments.MatchesPromiseExact | arguments.go:10-14 | For every item list the documented promise holds for every argument list if and only if no two different items are equal up to case or the list repeats an item |
| Arguments.PromiseBroken | arguments.go:10-29 | The arguments a and b match the items a and A |
| Arguments.Has | arguments.go:33-41 | Every item is present up to case |
| Arguments.HasOneOf | arguments.go:45-53 | Some item is present up to case |
| Arguments.StringInSlice | helper.go:12-19 | Presence up to case |
| Requests.Request.GrantScope | request.go:124-131 | A scope is appended unless it is there |
| Requests.Request.SetRequestedScopes | request.go:71-76 | The list without its repetitions |
| Requests.Request.Merge | request.go:141-164 | Lists are united without repetition, identity, client and session are taken over, form fields are overwritten |
| Requests.Request.Sanitize | request.go:168-185 | A copy with the allowed form fields only |
| Requests.AppendAllMembers | request.go:85-131 | Appending keeps the order, adds exactly the new members and repeats none |
| Requests.DedupIdempotent | request.go:71-83 | A list survives unchanged if and only if it repeats nothing, which is what carries grants unchanged along refreshes |
| Requests.MergeIdempotent | request.go:141-164 | Merging a request twice is merging it once |
| Requests.SanitizedKeepsNoCredentials | request.go:166-185 | No code, token, password or verifier is handed to the store |
| HMAC.Generate | token/hmac/hmacsha.go:47-85 | A token is the encoded random key and its MAC under the first 32 bytes of the current secret |
| HMAC.Validate | token/hmac/hmacsha.go:88-122 | The loop over the secrets: the first that does more than not match decides |
| HMAC.ValidatesExactly | token/hmac/hmacsha.go:88-158 | A token validates if and only if it is well formed, its MAC verifies under the current or a rotated secret, and no secret tried before is too short |
| HMAC.MismatchExactly | token/hmac/hmacsha.go:88-158 | A signature mismatch is reported if and only if the token is well formed, there are secrets, all are long enough and none signed it |
| HMAC.IssuedTokensSurviveRotation | handler/oauth2/strategy_hmacsha_prefixed.go:31-71 | With long enough secrets a prefixed token validates as long as its secret is the current or a rotated one, and its signature is the one its session was stored under |
| HMAC.PrefixRoundTrip | handler/oauth2/strategy_hmacsha_prefixed.go:35-44 | Trimming undoes prefixing |
| HMAC.IssuedSignature | token/hmac/hmacsha.go:160-166 | The signature taken from a prefixed token is the generated one |
| JwtClaims.JWTClaims.ToMap | token/jwt/claims_jwt.go:83-142 | The keys written, overwritten and removed |
| JwtClaims.JWTClaims.FromMap | token/jwt/claims_jwt.go:145-211 | In every visiting order the claims are one of the two readings that differ in which scope field is visited last |
| JwtClaims.RoundTripExactly | token/jwt/claims_jwt.go:83-208 | Claims come back unchanged from every visiting order if and only if they have an identifier, whole-second times, no reserved extra keys, an explicit scope encoding and scopes that encoding can carry |
| JwtClaims.JsonRoundTripExactly | token/jwt/claims_jwt.go:83-211 | Through JSON claims survive if and only if they would without, name no audience and have extra claims that JSON keeps; otherwise all but these two come back |
| JwtClaims.DecodedRead | token/jwt/claims_jwt.go:145-211 | A decoded map reads like the map it was made from, but for a list of audiences and the form of extra claims |
| JwtClaims.SingleAudience | token/jwt/claims_jwt.go:163-168 | An audience given as a string reads like a list of one |
| JwtClaims.FractionsAreDropped | token/jwt/claims_jwt.go:211-220 | Times given as floats lose their fraction toward 1970 |
| JwtClaims.OrderMattersExactly | token/jwt/claims_jwt.go:145-211 | The visiting order matters if and only if both scope fields are readable and differ |
| Helper.EscapeJSONString | helper.go:35-45 | The successive whole-string replacements are one escape of each character |
| Helper.UnescapeRecovers | helper.go:31-45 | The output has no raw control character and no unescaped quotation mark, and a JSON reader recovers the input (section 7 of RFC 8259) |
| Helper.RemoveEmpty | helper.go:21-29 | The loop computes the list that the next row describes |
| Helper.NonEmptyMeaning | helper.go:21-29 | No entry kept is blank or padded, the entries kept are exactly the trimmed ones that are not blank, and order and multiplicity are kept |
| Helper.TrimSpaceMeaning | helper.go:21-29 | Trimming takes away white space on both sides, all of it and nothing else |
| Strings.SplitOfJoin | token/jwt/claims_jwt.go:128-200 | A list survives joining and splitting if and only if it is not empty and no entry holds the separator |

## Left out

- RefreshFlow.HandleTokenEndpointRequest: excludes a failing lookup that claims the token is inactive without handing out its request, because the code then dereferences a missing request.
- TokenEndpoint.NewAccessRequest: excludes the same claim in every operation of the plan.
- TokenEndpoint.ConsultHandlers: excludes the same claim in every operation of the plan.
- Aliasing of stored requests and sessions: the store hands out references, the model values; only device sessions, whose two entries are one object, show a change through both.
- Changes an application makes to a device session beside its grants, such as its subject, when the user code is decided.
- Rounding of floats: numbers in decoded claims are reals.
- Request IDs are drawn when a request is created rather than when the ID is first read.
- Lower-casing and white space are those of ASCII.
- The hybrid flow, which stores two access tokens under one request ID, is not part of the families.
- The client-credentials, implicit and JWT-bearer grants and the OpenID Connect handlers are present only as handlers with a given answer.
- Interleaving below the phases: each phase is one atomic step, as the memory store has no transactions.
- An application that grants scopes between the two phases of a code, device or refresh request; only password requests are granted anything in between.
- Failing operations inside runs: second phases and reuse handling are those of a transactional store, where an error leaves the store as it was.
- The results of `Serial` are about services without failing second phases and half-made revocations.
- A store that reports an invalidated device code: the memory store deletes it, so that branch has no counterpart.
- A rollback that fails, and errors of configuration getters.
- Error hints, debug texts and wrapping; errors are kept as kinds.
- Rate limiting, user code generation, redirect URI matching, key fetching, resource indicators and client authentication are parameters or absent.
- HTTP parsing and writing, JSON encoding, templates, tracing and translations.
- That two different token strings are never both accepted: base64 decoding and the optional prefix are lenient.
- Getters, setters and lifespan tables, which would only add easy members.
