/** Token introspection, handler/oauth2/introspector.go (section 2.1 of RFC 7662). */
module Introspection {
  import opened Prelude
  import opened Requests
  import opened Store
  import opened Transactions
  import opened Grants

  /** Every non-empty asked scope is covered by the granted ones. */
  predicate ScopesCovered(cfg: Config, granted: seq<string>, scopes: seq<string>) {
    forall i :: 0 <= i < |scopes| && scopes[i] != "" ==> cfg.scopeStrategy(granted, scopes[i])
  }

  method MatchScopes(cfg: Config, granted: seq<string>, scopes: seq<string>) returns (err: Option<Error>)
    ensures err == if ScopesCovered(cfg, granted, scopes) then None else Some(InvalidScope)
  {
    for i := 0 to |scopes|
      invariant forall k :: 0 <= k < i && scopes[k] != "" ==> cfg.scopeStrategy(granted, scopes[k])
    {
      if scopes[i] == "" { continue; }
      if !cfg.scopeStrategy(granted, scopes[i]) { return Some(InvalidScope); }
    }
    return None;
  }

  function CheckAccess(cfg: Config, st: State, token: string, scopes: seq<string>, now: Time)
    : (Option<Requester>, Option<Error>)
  {
    var (or, err) := GetAccess(st, cfg.signature(token));
    if err.Some? then (None, Some(RequestUnauthorized))
    else
      var invalid := ValidateAccess(cfg, or.value, token, now);
      if invalid.Some? then (None, invalid)
      else if !ScopesCovered(cfg, or.value.grantedScope, scopes) then (None, Some(InvalidScope))
      else (or, None)
  }

  function CheckRefresh(cfg: Config, st: State, token: string, scopes: seq<string>, now: Time)
    : (Option<Requester>, Option<Error>)
  {
    var (or, err) := GetRefresh(st, cfg.signature(token));
    if err.Some? then (None, Some(RequestUnauthorized))
    else
      var invalid := ValidateRefresh(cfg, or.value, token, now);
      if invalid.Some? then (None, invalid)
      else if !ScopesCovered(cfg, or.value.grantedScope, scopes) then (None, Some(InvalidScope))
      else (or, None)
  }

  /** The verdict, the use it reports, and the request afterwards. */
  datatype Verdict = Active(use: TokenType, request: Requester) | Inactive(error: Error)

  function Introspect(cfg: Config, disableRefresh: bool, st: State, token: string, hint: Option<TokenType>,
                      rq: Requester, scopes: seq<string>, now: Time): Verdict
  {
    var (a, aerr) := CheckAccess(cfg, st, token, scopes, now);
    var (r, rerr) := CheckRefresh(cfg, st, token, scopes, now);
    if disableRefresh then
      if aerr.None? then Active(AccessToken, Merged(rq, a.value)) else Inactive(aerr.value)
    else if hint == Some(RefreshToken) && rerr.None? then Active(RefreshToken, Merged(rq, r.value))
    else if aerr.None? then Active(AccessToken, Merged(rq, a.value))
    else if rerr.None? then Active(RefreshToken, Merged(rq, r.value))
    else Inactive(aerr.value)
  }

  /** The store as introspection sees it when the lookup of the access or of the refresh token fails:
      as if the token were not there. */
  function Seen(st: State, sig: Sig, access: Option<Error>, refresh: Option<Error>): State {
    st.(access := if access.Some? then st.access - {sig} else st.access,
        refresh := if refresh.Some? then st.refresh - {sig} else st.refresh)
  }

  method IntrospectAccessToken(cfg: Config, store: Storage, token: string, accessRequest: Request,
                               scopes: seq<string>, now: Time)
    returns (err: Option<Error>)
    modifies store`faults, accessRequest
    ensures store.faults == Rest(old(store.faults))
    ensures var spec := CheckAccess(cfg, Seen(store.mem.Model(), cfg.signature(token), Head(old(store.faults)), None),
                                    token, scopes, now);
            && err == spec.1
            && accessRequest.Value() == if err.Some? then old(accessRequest.Value())
                 else Merged(old(accessRequest.Value()), spec.0.value)
  {
    var sig := cfg.signature(token);
    var or, getErr := store.GetAccessTokenSession(sig);
    if getErr.Some? { return Some(RequestUnauthorized); }
    err := ValidateAccess(cfg, or.value, token, now);
    if err.Some? { return; }
    err := MatchScopes(cfg, or.value.grantedScope, scopes);
    if err.Some? { return; }
    accessRequest.Merge(or.value);
  }

  method IntrospectRefreshToken(cfg: Config, store: Storage, token: string, accessRequest: Request,
                                scopes: seq<string>, now: Time)
    returns (err: Option<Error>)
    modifies store`faults, accessRequest
    ensures store.faults == Rest(old(store.faults))
    ensures var spec := CheckRefresh(cfg, Seen(store.mem.Model(), cfg.signature(token), None, Head(old(store.faults))),
                                     token, scopes, now);
            && err == spec.1
            && accessRequest.Value() == if err.Some? then old(accessRequest.Value())
                 else Merged(old(accessRequest.Value()), spec.0.value)
  {
    var sig := cfg.signature(token);
    var or, getErr := store.GetRefreshTokenSession(sig);
    if getErr.Some? { return Some(RequestUnauthorized); }
    err := ValidateRefresh(cfg, or.value, token, now);
    if err.Some? { return; }
    err := MatchScopes(cfg, or.value.grantedScope, scopes);
    if err.Some? { return; }
    accessRequest.Merge(or.value);
  }

  /** Each check depends on its own lookup only. */
  lemma SeenApart(cfg: Config, st: State, token: string, scopes: seq<string>, now: Time, f1: Option<Error>,
                  f2: Option<Error>)
    ensures var sig := cfg.signature(token);
            && CheckAccess(cfg, Seen(st, sig, f1, f2), token, scopes, now)
                 == CheckAccess(cfg, Seen(st, sig, f1, None), token, scopes, now)
            && CheckRefresh(cfg, Seen(st, sig, f1, f2), token, scopes, now)
                 == CheckRefresh(cfg, Seen(st, sig, None, f2), token, scopes, now)
  {
  }

  /** A refused token leaves the request as it was. A failing lookup has the effect of one that
      finds nothing. */
  method IntrospectToken(cfg: Config, disableRefresh: bool, store: Storage, token: string, hint: Option<TokenType>,
                         accessRequest: Request, scopes: seq<string>, now: Time)
    returns (use: Option<TokenType>, err: Option<Error>)
    modifies store`faults, accessRequest
    ensures var (f1, f2) := (Head(old(store.faults)), Head(Rest(old(store.faults))));
            var (st, sig) := (store.mem.Model(), cfg.signature(token));
            var seen := if hint == Some(RefreshToken) && !disableRefresh then Seen(st, sig, f2, f1)
                else Seen(st, sig, f1, f2);
            var verdict := Introspect(cfg, disableRefresh, seen, token, hint, old(accessRequest.Value()), scopes, now);
            && (verdict.Active? ==> use == Some(verdict.use) && err == None && accessRequest.Value() == verdict.request)
            && (verdict.Inactive? ==>
                 use == None && err == Some(verdict.error)
                 && accessRequest.Value() == old(accessRequest.Value()))
  {
    hide Merged, CheckAccess, CheckRefresh, Seen;
    SeenApart(cfg, store.mem.Model(), token, scopes, now, Head(store.faults), Head(Rest(store.faults)));
    SeenApart(cfg, store.mem.Model(), token, scopes, now, Head(Rest(store.faults)), Head(store.faults));
    if disableRefresh {
      err := IntrospectAccessToken(cfg, store, token, accessRequest, scopes, now);
      if err.Some? { return None, err; }
      return Some(AccessToken), None;
    }
    if hint == Some(RefreshToken) {
      err := IntrospectRefreshToken(cfg, store, token, accessRequest, scopes, now);
      if err == None { return Some(RefreshToken), None; }
      err := IntrospectAccessToken(cfg, store, token, accessRequest, scopes, now);
      if err == None { return Some(AccessToken), None; }
      return None, err;
    }
    err := IntrospectAccessToken(cfg, store, token, accessRequest, scopes, now);
    if err == None { return Some(AccessToken), None; }
    var err' := IntrospectRefreshToken(cfg, store, token, accessRequest, scopes, now);
    if err' == None { return Some(RefreshToken), None; }
    return None, err;
  }

  /** A store without the token refuses what a store with it may accept, never the other way round:
      failing lookups cannot make a token acceptable. */
  lemma FailuresNeverAccept(cfg: Config, st: State, token: string, scopes: seq<string>, now: Time,
                            f1: Option<Error>, f2: Option<Error>)
    ensures var seen := Seen(st, cfg.signature(token), f1, f2);
            && (CheckAccess(cfg, seen, token, scopes, now).1 == None <==>
                 f1 == None && CheckAccess(cfg, st, token, scopes, now).1 == None)
            && (CheckRefresh(cfg, seen, token, scopes, now).1 == None <==>
                 f2 == None && CheckRefresh(cfg, st, token, scopes, now).1 == None)
            && (f1 == None && f2 == None ==> seen == st)
  {
  }
}
