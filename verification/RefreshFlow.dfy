/** The refresh token grant of handler/oauth2/flow_refresh.go: its two phases, the reaction to a
    reused token, and the transaction around every write. */
module RefreshFlow {
  import opened Prelude
  import opened Requests
  import opened Store
  import opened Transactions
  import opened Grants
  import Arguments

  // ---------------------------------------------------------------------------------------
  // What the two phases compute when no store operation fails.

  function PresentedSig(cfg: Config, rq: Requester): Sig {
    cfg.signature(Get(rq.form, "refresh_token"))
  }

  function Reuse(st: State, sig: Sig, id: ID): State {
    RevokeAccess(RevokeRefresh(DeleteRefresh(st, sig), id).0, id)
  }

  function Renewed(cfg: Config, rq: Requester, orig: Requester, now: Time): Requester {
    Requester(
      orig.id,
      rq.requestedAt,
      rq.client,
      Dedup(orig.requestedScope),
      AppendAll(rq.grantedScope, orig.grantedScope),
      rq.form,
      WithExpiries(cfg, orig.session, rq.client, RefreshGrant, now),
      Dedup(orig.requestedAudience),
      AppendAll(rq.grantedAudience, orig.grantedAudience))
  }

  /** The checks on a stored, active refresh token, in the order the handler makes them. */
  ghost function CheckRefresh(cfg: Config, rq: Requester, orig: Requester, now: Time): Option<Error> {
    var invalid := ValidateRefresh(cfg, orig, Get(rq.form, "refresh_token"), now);
    if invalid == Some(TokenExpired) then Some(InvalidGrant)
    else if invalid.Some? then Some(InvalidRequest)
    else if !RefreshAllowed(cfg, orig.grantedScope) then Some(ScopeNotGranted)
    else if orig.client.id != rq.client.id then Some(InvalidGrant)
    else if !AllScopesMatch(cfg, rq.client.scopes, orig.grantedScope) then Some(InvalidScope)
    else cfg.audienceStrategy(rq.client.audience, orig.grantedAudience)
  }

  ghost function Handle(cfg: Config, st: State, rq: Requester, now: Time): (State, Option<Error>, Requester) {
    if !HasGrant(rq.client, REFRESH_GRANT) then (st, Some(UnauthorizedClient), rq)
    else
      var sig := PresentedSig(cfg, rq);
      if sig !in st.refresh then (st, Some(InvalidGrant), rq)
      else
        var orig := st.refresh[sig].req;
        if !st.refresh[sig].active then (Reuse(st, sig, orig.id), Some(InvalidGrant), rq)
        else
          var err := CheckRefresh(cfg, rq, orig, now);
          if err.Some? then (st, err, rq) else (st, None, Renewed(cfg, rq, orig, now))
  }

  /** How many of the scopes are granted before one the client may no longer use. */
  function GrantedScopes(cfg: Config, allowed: seq<string>, scopes: seq<string>): (n: nat)
    ensures n <= |scopes|
    ensures n == |scopes| <==> AllScopesMatch(cfg, allowed, scopes)
    ensures n < |scopes| ==> !cfg.scopeStrategy(allowed, scopes[n])
    ensures forall k :: 0 <= k < n ==> cfg.scopeStrategy(allowed, scopes[k])
  {
    if scopes == [] || !cfg.scopeStrategy(allowed, scopes[0]) then 0
    else
      var n := GrantedScopes(cfg, allowed, scopes[1..]);
      assert scopes == [scopes[0]] + scopes[1..];
      n + 1
  }

  /** The request once it has taken over the family's identity and its first `n` scopes. */
  function Taken(rq: Requester, orig: Requester, n: nat): Requester
    requires n <= |orig.grantedScope|
  {
    rq.(id := orig.id,
        session := orig.session,
        requestedScope := Dedup(orig.requestedScope),
        requestedAudience := Dedup(orig.requestedAudience),
        grantedScope := AppendAll(rq.grantedScope, orig.grantedScope[..n]))
  }

  /** What a refused request looks like: only a refusal of a scope or of the audience comes after
      the request has begun to take over the family's data. */
  ghost function Refused(cfg: Config, rq: Requester, orig: Requester, now: Time): Requester {
    if ValidateRefresh(cfg, orig, Get(rq.form, "refresh_token"), now).Some? then rq
    else if !RefreshAllowed(cfg, orig.grantedScope) || orig.client.id != rq.client.id then rq
    else Taken(rq, orig, GrantedScopes(cfg, rq.client.scopes, orig.grantedScope))
  }

  /** The first phase with a plan of failures. */
  ghost function HandleUnder(cfg: Config, transactional: bool, st: State, rq: Requester, now: Time, plan: Plan)
    : Outcome
  {
    if !HasGrant(rq.client, REFRESH_GRANT) then Outcome(st, plan, Some(UnauthorizedClient), rq)
    else
      var sig, rest := PresentedSig(cfg, rq), Rest(plan);
      if Head(plan).Some? then
        Outcome(st, rest, if Head(plan) == Some(NotFound) then Some(InvalidGrant) else Some(ServerError), rq)
      else if sig !in st.refresh then Outcome(st, rest, Some(InvalidGrant), rq)
      else
        var orig := st.refresh[sig].req;
        if !st.refresh[sig].active then
          var (st', err, plan') := ReuseOutcome(transactional, st, sig, orig.id, rest);
          Outcome(st', plan', if err.Some? then err else Some(InvalidGrant), rq)
        else
          var err := CheckRefresh(cfg, rq, orig, now);
          Outcome(st, rest, err, if err.Some? then Refused(cfg, rq, orig, now) else Renewed(cfg, rq, orig, now))
  }

  /** With a store that does not fail, this is `Handle`. */
  lemma HandleWithoutFaults(cfg: Config, transactional: bool, st: State, rq: Requester, now: Time, plan: Plan)
    requires NoFaults(plan)
    ensures var o := HandleUnder(cfg, transactional, st, rq, now, plan);
            && NoFaults(o.plan)
            && (o.st, o.err) == (Handle(cfg, st, rq, now).0, Handle(cfg, st, rq, now).1)
            && (o.err == None ==> o.rq == Handle(cfg, st, rq, now).2)
  {
    hide CheckRefresh, HasGrant, Renewed, ReuseOutcome, Reuse, Refused;
    NoFaultsIsSmooth(plan, 0);
    var sig := PresentedSig(cfg, rq);
    if sig in st.refresh {
      ReuseWithoutFaults(transactional, st, sig, st.refresh[sig].req.id, Rest(plan));
    }
  }

  function Issue(st: State, req: Requester, at: Sig, rt: Sig): State {
    CreateRefresh(CreateAccess(st, at, req), rt, at, req)
  }

  function StorageError(e: Error): Error {
    if e == SerializationFailure || e == NotFound || e == InactiveToken then InvalidRequest else ServerError
  }

  function Populate(cfg: Config, st: State, rq: Requester, at: Option<Generated>, rt: Option<Generated>, now: Time)
    : (State, Option<Error>, Option<Response>)
  {
    if at.None? || rt.None? then (st, Some(ServerError), None)
    else
      var (st1, err) := Rotate(st, rq.id);
      if err.Some? then (st, Some(StorageError(err.value)), None)
      else (Issue(st1, Sanitized(rq, {}), at.value.sig, rt.value.sig), None,
            Some(MakeResponse(cfg, rq, RefreshGrant, at.value, rt, now).(refreshToken := Some(rt.value.token))))
  }

  // ---------------------------------------------------------------------------------------
  // The handler.

  method CanHandleTokenEndpointRequest(grantTypes: seq<string>) returns (r: bool)
    ensures r <==> grantTypes == [REFRESH_GRANT]
  {
    return |grantTypes| == 1 && grantTypes[0] == REFRESH_GRANT;
  }

  /** A store that reports an inactive token also hands out its request, so no failure of the first
      lookup may claim that. */
  method HandleTokenEndpointRequest(cfg: Config, store: Storage, request: Request, grantTypes: seq<string>, now: Time)
    returns (err: Option<Error>)
    requires Head(store.faults) != Some(InactiveToken)
    modifies store, store.mem, request
    ensures grantTypes != [REFRESH_GRANT] ==>
              Outcome(store.mem.Model(), store.faults, err, request.Value())
              == Outcome(old(store.mem.Model()), old(store.faults), Some(UnknownRequest), old(request.Value()))
    ensures grantTypes == [REFRESH_GRANT] ==>
              Outcome(store.mem.Model(), store.faults, err, request.Value())
              == HandleUnder(cfg, store.transactional, old(store.mem.Model()), old(request.Value()), now,
                             old(store.faults))
    ensures store.transactional && err != Some(InvalidGrant) ==> store.mem.Model() == old(store.mem.Model())
  {
    var can := CanHandleTokenEndpointRequest(grantTypes);
    if !can { return Some(UnknownRequest); }
    var allowed := Arguments.Has(request.client.grantTypes, [REFRESH_GRANT]);
    if !allowed {
      assert !Arguments.InSlice([REFRESH_GRANT][0], request.client.grantTypes);
      return Some(UnauthorizedClient);
    }
    assert Arguments.InSlice([REFRESH_GRANT][0], request.client.grantTypes);
    var refresh := Get(request.form, "refresh_token");
    var signature := cfg.signature(refresh);
    var found, getErr := store.GetRefreshTokenSession(signature);
    if getErr == Some(InactiveToken) {
      var reuseErr := HandleRefreshTokenReuse(store, signature, found.value);
      if reuseErr.Some? { return reuseErr; }
      return Some(InvalidGrant);
    } else if getErr == Some(NotFound) {
      return Some(InvalidGrant);
    } else if getErr.Some? {
      return Some(ServerError);
    }
    var orig := found.value;
    var invalid := ValidateRefresh(cfg, orig, refresh, now);
    if invalid.Some? {
      if invalid == Some(TokenExpired) { return Some(InvalidGrant); }
      return Some(InvalidRequest);
    }
    var may := IsRefreshAllowed(cfg, orig.grantedScope);
    if !may { return Some(ScopeNotGranted); }
    if orig.client.id != request.client.id { return Some(InvalidGrant); }
    err := Renew(cfg, request, orig, now);
  }

  /** The request takes over the family's identity, scopes and audience, or is refused because
      its client may no longer use one of them. */
  method Renew(cfg: Config, request: Request, orig: Requester, now: Time) returns (err: Option<Error>)
    modifies request
    ensures !AllScopesMatch(cfg, old(request.client).scopes, orig.grantedScope) ==> err == Some(InvalidScope)
    ensures AllScopesMatch(cfg, old(request.client).scopes, orig.grantedScope) ==>
              err == cfg.audienceStrategy(old(request.client).audience, orig.grantedAudience)
    ensures request.Value() == if err == None then Renewed(cfg, old(request.Value()), orig, now)
                               else Taken(old(request.Value()), orig,
                                          GrantedScopes(cfg, old(request.client).scopes, orig.grantedScope))
  {
    hide Dedup, AppendAll, WithExpiries;
    request.id := orig.id;
    request.session := orig.session;
    request.SetRequestedScopes(orig.requestedScope);
    request.SetRequestedAudience(orig.requestedAudience);
    var refused := GrantAllowed(cfg, request, orig.grantedScope);
    if refused { return Some(InvalidScope); }
    assert orig.grantedScope[..|orig.grantedScope|] == orig.grantedScope;
    err := cfg.audienceStrategy(request.client.audience, orig.grantedAudience);
    if err.Some? { return; }
    request.GrantAudiences(orig.grantedAudience);
    request.session := WithExpiries(cfg, request.session, request.client, RefreshGrant, now);
  }

  /** The loop over the scopes, stopping at the first the client may no longer use. */
  method GrantAllowed(cfg: Config, request: Request, scopes: seq<string>) returns (refused: bool)
    modifies request
    ensures var n := GrantedScopes(cfg, old(request.client).scopes, scopes);
            && (refused <==> n < |scopes|)
            && request.Value() == old(request.Value()).(grantedScope :=
                 AppendAll(old(request.grantedScope), scopes[..n]))
  {
    hide AppendUnique;
    ghost var n := GrantedScopes(cfg, request.client.scopes, scopes);
    for i := 0 to |scopes|
      invariant request.Value()
                == old(request.Value()).(grantedScope := AppendAll(old(request.grantedScope), scopes[..i]))
      invariant i <= n
    {
      if !cfg.scopeStrategy(request.client.scopes, scopes[i]) { return true; }
      request.GrantScope(scopes[i]);
      assert scopes[..i + 1][..i] == scopes[..i];
    }
    return false;
  }

  /** Every write happens inside one transaction: an error leaves the store as it was, whatever
      operation failed and wherever; success means that every write and, on a transactional store,
      begin and commit went through. Rotation counts as two writes. */
  method PopulateTokenEndpointResponse(cfg: Config, store: Storage, request: Request, grantTypes: seq<string>,
                                       at: Option<Generated>, rt: Option<Generated>, now: Time)
    returns (err: Option<Error>, resp: Option<Response>)
    modifies store, store.mem
    ensures grantTypes != [REFRESH_GRANT] ==> err == Some(UnknownRequest) && store.mem.Model() == old(store.mem.Model())
    ensures store.transactional && err.Some? ==> store.mem.Model() == old(store.mem.Model())
    ensures err == None ==>
              (store.mem.Model(), None, resp) == Populate(cfg, old(store.mem.Model()), request.Value(), at, rt, now)
    ensures err == None <==>
              && grantTypes == [REFRESH_GRANT]
              && Populate(cfg, old(store.mem.Model()), request.Value(), at, rt, now).1 == None
              && Smooth(old(store.faults), InTx(store.transactional, 4))
    ensures store.transactional && err == None ==> store.backup == None
    ensures NoFaults(old(store.faults)) && grantTypes == [REFRESH_GRANT] ==>
              && NoFaults(store.faults)
              && var spec := Populate(cfg, old(store.mem.Model()), request.Value(), at, rt, now);
                 (store.mem.Model(), err) == (spec.0, spec.1)
  {
    hide Smooth, Rotate, Issue, Sanitized, MakeResponse;
    SmoothStep(store.faults, 6);
    SmoothPrefix(Rest(store.faults), 4);
    NoFaultsIsSmooth(store.faults, 4);
    NoFaultsIsSmooth(Rest(store.faults), 5);
    resp := None;
    var can := CanHandleTokenEndpointRequest(grantTypes);
    if !can { return Some(UnknownRequest), None; }
    if at.None? { return Some(ServerError), None; }
    if rt.None? { return Some(ServerError), None; }
    err := store.MaybeBeginTx();
    if err.Some? { return Some(ServerError), None; }
    var storeReq := request.Sanitize({});
    err := RotateAndIssue(store, request.id, storeReq, at.value.sig, rt.value.sig);
    if err == None {
      resp := Some(MakeResponse(cfg, request.Value(), RefreshGrant, at.value, rt,
                                now).(refreshToken := Some(rt.value.token)));
      err := store.MaybeCommitTx();
    }
    if err.Some? {
      err := HandleStorageError(store, err.value);
    }
  }

  /** The writes of a refresh, in order, stopping at the first that fails. */
  method RotateAndIssue(store: Storage, id: ID, req: Requester, at: Sig, rt: Sig) returns (err: Option<Error>)
    modifies store`faults, store.mem
    ensures var (st1, rerr) := Rotate(old(store.mem.Model()), id);
            && (err == None <==> rerr == None && Smooth(old(store.faults), 4))
            && (err == None ==> store.mem.Model() == Issue(st1, req, at, rt))
            && (NoFaults(old(store.faults)) ==> err == rerr)
    ensures err == None ==> (Head(store.faults) == None <==> Smooth(old(store.faults), 5))
    ensures NoFaults(old(store.faults)) ==> NoFaults(store.faults)
    ensures NoFaults(old(store.faults)) && err.Some? ==> store.mem.Model() == old(store.mem.Model())
  {
    hide Smooth, Rotate;
    ghost var plan := store.faults;
    SmoothStep(plan, 5);
    SmoothStep(plan, 4);
    SmoothStep(Rest(plan), 4);
    SmoothStep(Rest(plan), 3);
    PlanOfWrites(plan, 2);
    PlanOfWrites(Rest(Rest(plan)), 3);
    NoFaultsIsSmooth(Rest(plan), 0);
    FailedRotation(store.mem.Model(), id);
    err := store.RotateRefreshToken(id);
    if err.Some? { return; }
    err := store.CreateAccessTokenSession(at, req);
    if err.Some? { return; }
    err := store.CreateRefreshTokenSession(rt, at, req);
  }

  /** A rotation the memory store refuses has changed nothing. */
  lemma FailedRotation(st: State, id: ID)
    ensures Rotate(st, id).1.Some? ==> Rotate(st, id).0 == st
  {
  }

  method HandleStorageError(store: Storage, e: Error) returns (err: Option<Error>)
    requires store.transactional ==> store.backup.Some?
    modifies store, store.mem
    ensures err == Some(StorageError(e)) && store.faults == old(store.faults)
    ensures err == Some(if e in {SerializationFailure, NotFound, InactiveToken} then InvalidRequest else ServerError)
    ensures store.mem.Model() == if store.transactional then old(store.backup).value else old(store.mem.Model())
    ensures store.transactional ==> store.backup == None
  {
    store.MaybeRollbackTx();
    if e == SerializationFailure { return Some(InvalidRequest); }
    if e == NotFound || e == InactiveToken { return Some(InvalidRequest); }
    return Some(ServerError);
  }

  // ---------------------------------------------------------------------------------------
  // Reuse. Two of its operations may report "not found" without aborting it.

  function Tolerated(e: Option<Error>): bool {
    e.None? || e == Some(NotFound)
  }

  /** The content a successful reuse handling commits when its two revocations fail or not as
      the plan's entries `f1` and `f2` say. */
  function ReuseUnder(st: State, sig: Sig, id: ID, f1: Option<Error>, f2: Option<Error>): State {
    var st1 := DeleteRefresh(st, sig);
    var st2 := if f1.None? then RevokeRefresh(st1, id).0 else st1;
    if f2.None? then RevokeAccess(st2, id) else st2
  }

  /** The three operations of reuse handling under a plan of failures, stopping at the first that is
      not tolerated. */
  function RevokeReused(st: State, sig: Sig, id: ID, plan: Plan): (State, Option<Error>, Plan) {
    var p1, p2, p3 := Rest(plan), Rest(Rest(plan)), Rest(Rest(Rest(plan)));
    if Head(plan).Some? then (st, Head(plan), p1)
    else if !Tolerated(Head(p1)) then (DeleteRefresh(st, sig), Head(p1), p2)
    else (ReuseUnder(st, sig, id, Head(p1), Head(p2)), if Tolerated(Head(p2)) then None else Head(p2), p3)
  }

  /** The same inside a transaction, if the store has one. */
  function ReuseOutcome(transactional: bool, st: State, sig: Sig, id: ID, plan: Plan): (State, Option<Error>, Plan) {
    if transactional && Head(plan).Some? then (st, Some(ServerError), Rest(plan))
    else
      var (st1, err, rest) := RevokeReused(st, sig, id, if transactional then Rest(plan) else plan);
      if err.Some? then (if transactional then st else st1, Some(StorageError(err.value)), rest)
      else if !transactional then (st1, None, rest)
      else if Head(rest).Some? then (st, Some(StorageError(Head(rest).value)), Rest(rest))
      else (st1, None, Rest(rest))
  }

  lemma ReuseWithoutFaults(transactional: bool, st: State, sig: Sig, id: ID, plan: Plan)
    requires NoFaults(plan)
    ensures var (st', err, rest) := ReuseOutcome(transactional, st, sig, id, plan);
            st' == Reuse(st, sig, id) && err == None && NoFaults(rest)
  {
    hide Deactivated, Without, NoFaults;
    NoFaultsIsSmooth(plan, 0);
    NoFaultsIsSmooth(Rest(plan), 0);
    NoFaultsIsSmooth(Rest(Rest(plan)), 0);
    NoFaultsIsSmooth(Rest(Rest(Rest(plan))), 0);
    NoFaultsIsSmooth(Rest(Rest(Rest(Rest(plan)))), 0);
  }

  method HandleRefreshTokenReuse(store: Storage, signature: Sig, req: Requester) returns (err: Option<Error>)
    modifies store, store.mem
    ensures (store.mem.Model(), err, store.faults)
            == ReuseOutcome(store.transactional, old(store.mem.Model()), signature, req.id, old(store.faults))
    ensures store.transactional && err.Some? ==> store.mem.Model() == old(store.mem.Model())
    ensures store.transactional && err == None ==> store.backup == None
    ensures store.transactional ==>
              var plan := old(store.faults);
              var rest := Rest(plan);
              && (err == None <==> && Head(plan) == None && Head(rest) == None
                                   && Tolerated(Head(Rest(rest)))
                                   && Tolerated(Head(Rest(Rest(rest))))
                                   && Head(Rest(Rest(Rest(rest)))) == None)
              && var (f1, f2) := (Head(Rest(rest)), Head(Rest(Rest(rest))));
                 (err == None ==> store.mem.Model() == ReuseUnder(old(store.mem.Model()), signature, req.id, f1, f2))
  {
    hide ReuseUnder, StorageError;
    err := store.MaybeBeginTx();
    if err.Some? { return Some(ServerError); }
    err := RevokeReusedFamily(store, signature, req.id);
    if err == None {
      err := store.MaybeCommitTx();
    }
    if err.Some? {
      err := HandleStorageError(store, err.value);
    }
  }

  method RevokeReusedFamily(store: Storage, signature: Sig, id: ID) returns (err: Option<Error>)
    modifies store`faults, store.mem
    ensures (store.mem.Model(), err, store.faults)
            == RevokeReused(old(store.mem.Model()), signature, id, old(store.faults))
  {
    hide Deactivated, Without;
    err := store.DeleteRefreshTokenSession(signature);
    if err.Some? { return; }
    err := store.RevokeRefreshToken(id);
    if err.Some? && err != Some(NotFound) { return; }
    err := store.RevokeAccessToken(id);
    if err.Some? && err != Some(NotFound) { return; }
    return None;
  }
}
