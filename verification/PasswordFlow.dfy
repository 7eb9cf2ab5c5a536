/** The resource owner password grant, handler/oauth2/flow_resource_owner.go, with the helper that
    stores an access token, handler/oauth2/helper.go. Its writes are not in a transaction. */
module PasswordFlow {
  import opened Prelude
  import opened Requests
  import opened Store
  import opened Transactions
  import opened Grants
  import CodeFlow
  import Arguments

  function CheckPassword(cfg: Config, rq: Requester): Option<Error> {
    var username, password := Get(rq.form, "username"), Get(rq.form, "password");
    if !AllScopesMatch(cfg, rq.client.scopes, rq.requestedScope) then Some(InvalidScope)
    else
      var denied := cfg.audienceStrategy(rq.client.audience, rq.requestedAudience);
      if denied.Some? then denied
      else if username == "" || password == "" then Some(InvalidRequest)
      else
        var err := cfg.authenticate(username, password).1;
        if err == Some(NotFound) then Some(InvalidGrant)
        else if err.Some? then Some(ServerError)
        else None
  }

  function Authenticated(cfg: Config, rq: Requester, now: Time): Requester {
    var subject := cfg.authenticate(Get(rq.form, "username"), Get(rq.form, "password")).0;
    rq.(form := rq.form - {"password"},
        session := WithExpiries(cfg, rq.session.(subject := subject), rq.client, PasswordGrant, now))
  }

  ghost function Handle(cfg: Config, rq: Requester, now: Time): (Option<Error>, Requester) {
    if !HasGrant(rq.client, PASSWORD_GRANT) then (Some(UnauthorizedClient), rq)
    else
      var err := CheckPassword(cfg, rq);
      if err.Some? then (err, rq) else (None, Authenticated(cfg, rq, now))
  }

  ghost function Populate(cfg: Config, st: State, rq: Requester, at: Option<Generated>, rt: Option<Generated>,
                          now: Time)
    : (State, Option<Error>, Option<Response>)
  {
    if at.None? then (st, Some(ServerError), None)
    else
      var st1 := CreateAccess(st, at.value.sig, Sanitized(rq, {}));
      if !RefreshAllowed(cfg, rq.grantedScope) then
        (st1, None, Some(MakeResponse(cfg, rq, PasswordGrant, at.value, None, now)))
      else if rt.None? then (st1, Some(ServerError), None)
      else
        (CreateRefresh(st1, rt.value.sig, at.value.sig, Sanitized(rq, {})), None,
         Some(MakeResponse(cfg, rq, PasswordGrant, at.value, rt, now)))
  }

  /** The second phase with a plan of failures. The writes are not in a transaction: when the second
      one fails, the access token stays. */
  ghost function PopulateUnder(cfg: Config, st: State, rq: Requester, at: Option<Generated>, rt: Option<Generated>,
                               now: Time, plan: Plan)
    : (State, Option<Error>, Option<Response>)
  {
    if at.Some? && Head(plan).Some? then (st, Head(plan), None)
    else if at.Some? && RefreshAllowed(cfg, rq.grantedScope) && rt.Some? && Head(Rest(plan)).Some? then
      (CreateAccess(st, at.value.sig, Sanitized(rq, {})), Some(ServerError), None)
    else Populate(cfg, st, rq, at, rt, now)
  }

  method CanHandleTokenEndpointRequest(grantTypes: seq<string>) returns (r: bool)
    ensures r <==> grantTypes == [PASSWORD_GRANT]
  {
    return |grantTypes| == 1 && grantTypes[0] == PASSWORD_GRANT;
  }

  method HandleTokenEndpointRequest(cfg: Config, request: Request, grantTypes: seq<string>, now: Time)
    returns (err: Option<Error>)
    modifies request
    ensures grantTypes != [PASSWORD_GRANT] ==> err == Some(UnknownRequest) && request.Value() == old(request.Value())
    ensures grantTypes == [PASSWORD_GRANT] ==>
              var spec := Handle(cfg, old(request.Value()), now);
              err == spec.0 && request.Value() == spec.1
  {
    var can := CanHandleTokenEndpointRequest(grantTypes);
    if !can { return Some(UnknownRequest); }
    var allowed := Arguments.Has(request.client.grantTypes, [PASSWORD_GRANT]);
    assert allowed ==> Arguments.InSlice([PASSWORD_GRANT][0], request.client.grantTypes);
    if !allowed { return Some(UnauthorizedClient); }
    for i := 0 to |request.requestedScope|
      invariant request.Value() == old(request.Value())
      invariant forall k :: 0 <= k < i ==> cfg.scopeStrategy(request.client.scopes, request.requestedScope[k])
    {
      if !cfg.scopeStrategy(request.client.scopes, request.requestedScope[i]) { return Some(InvalidScope); }
    }
    err := cfg.audienceStrategy(request.client.audience, request.requestedAudience);
    if err.Some? { return; }
    var username, password := Get(request.form, "username"), Get(request.form, "password");
    if username == "" || password == "" { return Some(InvalidRequest); }
    var subject, authErr := cfg.authenticate(username, password).0, cfg.authenticate(username, password).1;
    if authErr == Some(NotFound) { return Some(InvalidGrant); }
    if authErr.Some? { return Some(ServerError); }
    request.session := request.session.(subject := subject);
    request.form := request.form - {"password"};
    request.session := WithExpiries(cfg, request.session, request.client, PasswordGrant, now);
    return None;
  }

  method IssueAccessToken(cfg: Config, store: Storage, request: Request, at: Option<Generated>)
    returns (err: Option<Error>)
    modifies store`faults, store.mem
    ensures at.None? ==>
            err == Some(ServerError) && store.mem.Model() == old(store.mem.Model())
            && store.faults == old(store.faults)
    ensures at.Some? ==>
              && err == Head(old(store.faults)) && store.faults == Rest(old(store.faults))
              && store.mem.Model() == if err.Some? then old(store.mem.Model())
                                      else CreateAccess(old(store.mem.Model()), at.value.sig,
                                                        Sanitized(request.Value(), {}))
  {
    if at.None? { return Some(ServerError); }
    var storeReq := request.Sanitize({});
    err := store.CreateAccessTokenSession(at.value.sig, storeReq);
  }

  method PopulateTokenEndpointResponse(cfg: Config, store: Storage, request: Request, grantTypes: seq<string>,
                                       at: Option<Generated>, rt: Option<Generated>, now: Time)
    returns (err: Option<Error>, resp: Option<Response>)
    modifies store, store.mem
    ensures grantTypes != [PASSWORD_GRANT] ==>
            err == Some(UnknownRequest)
            && store.mem.Model() == old(store.mem.Model())
    ensures grantTypes == [PASSWORD_GRANT] ==>
              (store.mem.Model(), err, resp)
              == PopulateUnder(cfg, old(store.mem.Model()), request.Value(), at, rt, now, old(store.faults))
  {
    resp := None;
    var can := CanHandleTokenEndpointRequest(grantTypes);
    if !can { return Some(UnknownRequest), None; }
    err := IssueAccessToken(cfg, store, request, at);
    if err.Some? { return; }
    var allowed := IsRefreshAllowed(cfg, request.grantedScope);
    var refresh: Option<Generated> := None;
    if allowed {
      if rt.None? { return Some(ServerError), None; }
      refresh := rt;
      var storeReq := request.Sanitize({});
      err := store.CreateRefreshTokenSession(rt.value.sig, at.value.sig, storeReq);
      if err.Some? { return Some(ServerError), None; }
    }
    resp := Some(MakeResponse(cfg, request.Value(), PasswordGrant, at.value, refresh, now));
  }
}
