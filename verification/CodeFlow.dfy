/** Redemption of an authorization code, handler/oauth2/flow_authorize_code_token.go. The code is
    read in both phases, because two requests for it may be in flight at once. */
module CodeFlow {
  import opened Prelude
  import opened Requests
  import opened Store
  import opened Transactions
  import opened Grants
  import Arguments

  function PresentedSig(cfg: Config, rq: Requester): Sig {
    cfg.signature(Get(rq.form, "code"))
  }

  /** A code presented a second time takes the tokens issued for it with it. */
  function Replay(st: State, id: ID): State {
    RevokeRefresh(RevokeAccess(st, id), id).0
  }

  function Requesting(rq: Requester, ar: Requester): Requester {
    rq.(requestedScope := Dedup(ar.requestedScope), requestedAudience := Dedup(ar.requestedAudience))
  }

  /** The code is validated against the token request itself, whose session the memory store does
      not fill in: at this phase an authorization's own expiry is not looked at. */
  ghost function CheckCode(cfg: Config, rq: Requester, ar: Requester, now: Time): Option<Error> {
    var redirect := Get(ar.form, "redirect_uri");
    if ValidateCode(cfg, rq, Get(rq.form, "code"), now).Some? then Some(InvalidGrant)
    else if ar.client.id != rq.client.id then Some(InvalidGrant)
    else if redirect != "" && redirect != Get(rq.form, "redirect_uri") then Some(InvalidGrant)
    else None
  }

  function Hydrated(cfg: Config, rq: Requester, ar: Requester, now: Time): Requester {
    Requesting(rq, ar).(session := WithExpiries(cfg, ar.session, rq.client, CodeGrant, now), id := ar.id)
  }

  ghost function Handle(cfg: Config, st: State, rq: Requester, now: Time): (State, Option<Error>, Requester) {
    if !HasGrant(rq.client, CODE_GRANT) then (st, Some(UnauthorizedClient), rq)
    else
      var sig := PresentedSig(cfg, rq);
      if sig !in st.codes then (st, Some(InvalidGrant), rq)
      else
        var ar := st.codes[sig].req;
        if !st.codes[sig].active then (Replay(st, ar.id), Some(InvalidGrant), rq)
        else
          var err := CheckCode(cfg, rq, ar, now);
          if err.Some? then (st, err, rq) else (st, None, Hydrated(cfg, rq, ar, now))
  }

  /** The tokens of a new family: an access token and, if the grant allows it, a refresh token. */
  function Issue(st: State, req: Requester, at: Sig, rt: Option<Generated>): State {
    var st1 := CreateAccess(st, at, req);
    if rt.Some? && rt.value.sig != "" then CreateRefresh(st1, rt.value.sig, at, req) else st1
  }

  ghost function Populate(cfg: Config, st: State, rq: Requester, at: Option<Generated>, rt: Option<Generated>,
                          now: Time)
    : (State, Option<Error>, Option<Response>)
  {
    var sig := PresentedSig(cfg, rq);
    var (ar, err) := GetCode(st, sig);
    if err.Some? then (st, Some(ServerError), None)
    else if ValidateCode(cfg, rq, Get(rq.form, "code"), now).Some? then (st, Some(InvalidRequest), None)
    else Answer(cfg, st, sig, rq, ar.value, at, rt, now)
  }

  /** The second phase once the stored authorization is read and the code found valid. */
  ghost function Answer(cfg: Config, st: State, sig: Sig, rq: Requester, ar: Requester, at: Option<Generated>,
                        rt: Option<Generated>, now: Time): (State, Option<Error>, Option<Response>)
  {
    var granted := Granting(rq, ar);
    var can := CanIssueRefresh(cfg, ar.grantedScope, ar.client);
    if at.None? || (can && rt.None?) then (st, Some(ServerError), None)
    else
      var issued := if can then rt else None;
      (Issue(InvalidateCode(st, sig).0, Sanitized(granted, {}), at.value.sig, issued), None,
       Some(MakeResponse(cfg, granted, CodeGrant, at.value, issued, now)))
  }

  /** The first phase with a plan of failures: a failing lookup is reported by its kind, a failing
      revocation of a replayed code is passed over. */
  ghost function HandleUnder(cfg: Config, st: State, rq: Requester, now: Time, plan: Plan): Outcome {
    if !HasGrant(rq.client, CODE_GRANT) then Outcome(st, plan, Some(UnauthorizedClient), rq)
    else
      var sig, rest := PresentedSig(cfg, rq), Rest(plan);
      if Head(plan).Some? then
        Outcome(st, rest, if Head(plan) == Some(NotFound) then Some(InvalidGrant) else Some(ServerError), rq)
      else if sig !in st.codes then Outcome(st, rest, Some(InvalidGrant), rq)
      else
        var ar := st.codes[sig].req;
        if !st.codes[sig].active then
          Outcome(ReplayUnder(st, ar.id, Head(rest), Head(Rest(rest))), Rest(Rest(rest)), Some(InvalidGrant), rq)
        else
          var err := CheckCode(cfg, rq, ar, now);
          Outcome(st, rest, err, if err.Some? then Refused(cfg, rq, ar, now) else Hydrated(cfg, rq, ar, now))
  }

  /** What a replay leaves when its revocations fail or not. */
  function ReplayUnder(st: State, id: ID, f1: Option<Error>, f2: Option<Error>): State {
    var st1 := if f1.None? then RevokeAccess(st, id) else st;
    if f2.None? then RevokeRefresh(st1, id).0 else st1
  }

  /** A request that is refused has taken over the requested scopes, unless its code is invalid. */
  function Refused(cfg: Config, rq: Requester, ar: Requester, now: Time): Requester {
    if ValidateCode(cfg, rq, Get(rq.form, "code"), now).Some? then rq else Requesting(rq, ar)
  }

  /** With a store that does not fail, this is `Handle`. */
  lemma HandleWithoutFaults(cfg: Config, st: State, rq: Requester, now: Time, plan: Plan)
    requires NoFaults(plan)
    ensures var o := HandleUnder(cfg, st, rq, now, plan);
            && NoFaults(o.plan)
            && (o.st, o.err) == (Handle(cfg, st, rq, now).0, Handle(cfg, st, rq, now).1)
            && (o.err == None ==> o.rq == Handle(cfg, st, rq, now).2)
  {
    hide CheckCode, HasGrant, Hydrated, Deactivated, Without;
    NoFaultsIsSmooth(plan, 0);
    NoFaultsIsSmooth(Rest(plan), 0);
    NoFaultsIsSmooth(Rest(Rest(plan)), 0);
  }

  /** How many writes storing the tokens takes, the spending of the code included. */
  function Writes(issued: Option<Generated>): nat {
    if issued.Some? && issued.value.sig != "" then 3 else 2
  }

  /** The refresh token that goes with the stored authorization. */
  ghost function Issued(cfg: Config, st: State, rq: Requester, rt: Option<Generated>): Option<Generated> {
    var sig := PresentedSig(cfg, rq);
    if sig in st.codes && CanIssueRefresh(cfg, st.codes[sig].req.grantedScope, st.codes[sig].req.client)
    then rt else None
  }

  method CanHandleTokenEndpointRequest(grantTypes: seq<string>) returns (r: bool)
    ensures r <==> grantTypes == [CODE_GRANT]
  {
    return |grantTypes| == 1 && grantTypes[0] == CODE_GRANT;
  }

  method HandleTokenEndpointRequest(cfg: Config, store: Storage, request: Request, grantTypes: seq<string>, now: Time)
    returns (err: Option<Error>)
    modifies store, store.mem, request
    ensures grantTypes != [CODE_GRANT] ==>
              Outcome(store.mem.Model(), store.faults, err, request.Value())
              == Outcome(old(store.mem.Model()), old(store.faults), Some(UnknownRequest), old(request.Value()))
    ensures grantTypes == [CODE_GRANT] ==>
              Outcome(store.mem.Model(), store.faults, err, request.Value())
              == HandleUnder(cfg, old(store.mem.Model()), old(request.Value()), now, old(store.faults))
  {
    var can := CanHandleTokenEndpointRequest(grantTypes);
    if !can { return Some(UnknownRequest); }
    var allowed := Arguments.Has(request.client.grantTypes, [CODE_GRANT]);
    assert allowed ==> Arguments.InSlice([CODE_GRANT][0], request.client.grantTypes);
    if !allowed { return Some(UnauthorizedClient); }
    var code := Get(request.form, "code");
    var signature := cfg.signature(code);
    var ar, getErr := store.GetAuthorizeCodeSession(signature);
    if getErr == Some(InvalidatedAuthorizeCode) {
      if ar.None? { return Some(ServerError); }
      var reqID := ar.value.id;
      var _ := store.RevokeAccessToken(reqID);
      var _ := store.RevokeRefreshToken(reqID);
      return Some(InvalidGrant);
    } else if getErr == Some(NotFound) {
      return Some(InvalidGrant);
    } else if getErr.Some? {
      return Some(ServerError);
    }
    err := Hydrate(cfg, request, ar.value, code, now);
  }

  method Hydrate(cfg: Config, request: Request, ar: Requester, code: string, now: Time) returns (err: Option<Error>)
    requires code == Get(request.form, "code")
    modifies request
    ensures err == CheckCode(cfg, old(request.Value()), ar, now)
    ensures request.Value() == if err == None then Hydrated(cfg, old(request.Value()), ar, now)
                               else Refused(cfg, old(request.Value()), ar, now)
  {
    var invalid := ValidateCode(cfg, request.Value(), code, now);
    if invalid.Some? { return Some(InvalidGrant); }
    request.SetRequestedScopes(ar.requestedScope);
    request.SetRequestedAudience(ar.requestedAudience);
    if ar.client.id != request.client.id { return Some(InvalidGrant); }
    var forced := Get(ar.form, "redirect_uri");
    if forced != "" && forced != Get(request.form, "redirect_uri") { return Some(InvalidGrant); }
    request.session := ar.session;
    request.id := ar.id;
    request.session := WithExpiries(cfg, request.session, request.client, CodeGrant, now);
    return None;
  }

  /** The code is spent and the tokens are stored in one transaction: an error leaves the store
      as it was, whatever operation failed and wherever; success means that the lookup, every write
      and, on a transactional store, begin and commit went through. */
  method PopulateTokenEndpointResponse(cfg: Config, store: Storage, request: Request, grantTypes: seq<string>,
                                       at: Option<Generated>, rt: Option<Generated>, now: Time)
    returns (err: Option<Error>, resp: Option<Response>)
    modifies store, store.mem, request
    ensures grantTypes != [CODE_GRANT] ==> err == Some(UnknownRequest) && store.mem.Model() == old(store.mem.Model())
    ensures store.transactional && err.Some? ==> store.mem.Model() == old(store.mem.Model())
    ensures err == None ==>
              (store.mem.Model(), None, resp)
                  == Populate(cfg, old(store.mem.Model()), old(request.Value()), at, rt, now)
    ensures var st, rq := old(store.mem.Model()), old(request.Value());
            err == None <==>
              && grantTypes == [CODE_GRANT]
              && Populate(cfg, st, rq, at, rt, now).1 == None
              && Smooth(old(store.faults), 1 + InTx(store.transactional, Writes(Issued(cfg, st, rq, rt))))
    ensures store.transactional && err == None ==> store.backup == None
    ensures NoFaults(old(store.faults)) && grantTypes == [CODE_GRANT] ==>
              && NoFaults(store.faults)
              && var spec := Populate(cfg, old(store.mem.Model()), old(request.Value()), at, rt, now);
                 (store.mem.Model(), err) == (spec.0, spec.1)
  {
    hide Smooth, NoFaults, Answer, CanIssueRefresh, ValidateCode;
    ghost var writes := InTx(store.transactional, Writes(Issued(cfg, store.mem.Model(), request.Value(), rt)));
    FirstOfPlan(store.faults, writes);
    resp := None;
    var can := CanHandleTokenEndpointRequest(grantTypes);
    if !can { return Some(UnknownRequest), None; }
    var code := Get(request.form, "code");
    var signature := cfg.signature(code);
    var ar, getErr := store.GetAuthorizeCodeSession(signature);
    if getErr.Some? { return Some(ServerError), None; }
    var invalid := ValidateCode(cfg, request.Value(), code, now);
    if invalid.Some? { return Some(InvalidRequest), None; }
    AnswerFails(cfg, store.mem.Model(), signature, request.Value(), ar.value, at, rt, now);
    err, resp := GrantAndRedeem(cfg, store, request, ar.value, signature, at, rt, now);
  }

  lemma AnswerFails(cfg: Config, st: State, sig: Sig, rq: Requester, ar: Requester, at: Option<Generated>,
                    rt: Option<Generated>, now: Time)
    ensures var spec := Answer(cfg, st, sig, rq, ar, at, rt, now);
            spec.1 == None || (spec.0 == st && spec.1 == Some(ServerError))
  {
  }

  /** The tail of the second phase: the grants of the authorization, the tokens, the writes. */
  method GrantAndRedeem(cfg: Config, store: Storage, request: Request, ar: Requester, signature: Sig,
                        at: Option<Generated>, rt: Option<Generated>, now: Time)
    returns (err: Option<Error>, resp: Option<Response>)
    modifies store, store.mem, request
    ensures store.transactional && err.Some? ==> store.mem.Model() == old(store.mem.Model())
    ensures store.transactional && err == None ==> store.backup == None
    ensures var st, rq := old(store.mem.Model()), old(request.Value());
            var spec := Answer(cfg, st, signature, rq, ar, at, rt, now);
            var issued := if CanIssueRefresh(cfg, ar.grantedScope, ar.client) then rt else None;
            && (err == None <==> spec.1 == None && InvalidateCode(st, signature).1 == None
                                 && Smooth(old(store.faults), InTx(store.transactional, Writes(issued))))
            && (err == None ==> (store.mem.Model(), None, resp) == spec)
            && (err.Some? ==> err == Some(ServerError))
    ensures NoFaults(old(store.faults)) ==> NoFaults(store.faults)
    ensures NoFaults(old(store.faults)) && err.Some? ==> store.mem.Model() == old(store.mem.Model())
  {
    hide Smooth, NoFaults, CanIssueRefresh, Issue, InvalidateCode, MakeResponse, Sanitized;
    resp := None;
    request.GrantScopes(ar.grantedScope);
    request.GrantAudiences(ar.grantedAudience);
    if at.None? { return Some(ServerError), None; }
    var canRefresh := CanIssueRefreshToken(cfg, ar);
    var refresh: Option<Generated> := None;
    if canRefresh {
      if rt.None? { return Some(ServerError), None; }
      refresh := rt;
    }
    var storeReq := request.Sanitize({});
    err := RedeemInTx(store, signature, storeReq, at.value.sig, refresh);
    if err == None {
      resp := Some(MakeResponse(cfg, request.Value(), CodeGrant, at.value, refresh, now));
    }
  }

  /** The writes of a redemption, in order, stopping at the first that fails. */
  method Redeem(store: Storage, signature: Sig, req: Requester, at: Sig, rt: Option<Generated>)
    returns (err: Option<Error>)
    modifies store`faults, store.mem
    ensures var spec := InvalidateCode(old(store.mem.Model()), signature);
            && (err == None <==> spec.1 == None && Smooth(old(store.faults), Writes(rt)))
            && (err == None ==> store.mem.Model() == Issue(spec.0, req, at, rt))
    ensures err == None ==> (Head(store.faults) == None <==> Smooth(old(store.faults), Writes(rt) + 1))
    ensures NoFaults(old(store.faults)) ==> NoFaults(store.faults)
    ensures NoFaults(old(store.faults)) && err.Some? ==> store.mem.Model() == old(store.mem.Model())
  {
    hide Smooth;
    ghost var plan := store.faults;
    PlanOfWrites(plan, Writes(rt));
    err := store.InvalidateAuthorizeCodeSession(signature);
    if err.Some? { return; }
    err := store.CreateAccessTokenSession(at, req);
    if err.Some? { return; }
    if rt.Some? && rt.value.sig != "" {
      err := store.CreateRefreshTokenSession(rt.value.sig, at, req);
    }
  }

  /** The writes of a redemption inside one transaction, rolled back on the first failure. */
  method RedeemInTx(store: Storage, signature: Sig, req: Requester, at: Sig, rt: Option<Generated>)
    returns (err: Option<Error>)
    modifies store, store.mem
    ensures store.transactional && err.Some? ==> store.mem.Model() == old(store.mem.Model())
    ensures store.transactional && err == None ==> store.backup == None
    ensures err.Some? ==> err == Some(ServerError)
    ensures var spec := InvalidateCode(old(store.mem.Model()), signature);
            && (err == None <==> spec.1 == None && Smooth(old(store.faults), InTx(store.transactional, Writes(rt))))
            && (err == None ==> store.mem.Model() == Issue(spec.0, req, at, rt))
    ensures NoFaults(old(store.faults)) ==> NoFaults(store.faults)
    ensures NoFaults(old(store.faults)) && err.Some? ==> store.mem.Model() == old(store.mem.Model())
  {
    hide Issue, InvalidateCode, Smooth;
    ghost var plan := store.faults;
    SmoothStep(plan, Writes(rt) + 2);
    SmoothPrefix(Rest(plan), Writes(rt));
    err := store.MaybeBeginTx();
    if err.Some? { return Some(ServerError); }
    err := Redeem(store, signature, req, at, rt);
    if err == None {
      err := store.MaybeCommitTx();
    }
    if err.Some? {
      store.MaybeRollbackTx();
      return Some(ServerError);
    }
  }
}
