/** Redemption of a device code, handler/rfc8628/token_handler.go: a device code is pending until
    its user code is decided, and the decision is read again when the tokens are issued. */
module DeviceFlow {
  import opened Prelude
  import opened Requests
  import opened Store
  import opened Transactions
  import opened Grants
  import CodeFlow
  import Arguments

  function PresentedSig(cfg: Config, rq: Requester): Sig {
    cfg.signature(Get(rq.form, "device_code"))
  }

  /** The session a device code reaches, refused while the user code is undecided or rejected. */
  function Session(st: State, sig: Sig): (Option<DeviceRecord>, Option<Error>) {
    if sig !in st.devices then (None, Some(InvalidGrant))
    else if st.devices[sig].userCode == Unused then (None, Some(AuthorizationPending))
    else if st.devices[sig].userCode == Rejected then (None, Some(AccessDenied))
    else (Some(st.devices[sig]), None)
  }

  function Hydrated(cfg: Config, rq: Requester, ar: Requester, now: Time): Requester {
    CodeFlow.Requesting(rq, ar).(session := WithExpiries(cfg, ar.session, rq.client, DeviceGrant, now), id := ar.id)
  }

  ghost function Handle(cfg: Config, st: State, rq: Requester, now: Time): (State, Option<Error>, Requester) {
    if !HasGrant(rq.client, DEVICE_GRANT) then (st, Some(UnauthorizedClient), rq)
    else if cfg.rateLimited(Get(rq.form, "device_code")) then (st, Some(SlowDown), rq)
    else
      var (rec, err) := Session(st, PresentedSig(cfg, rq));
      if err.Some? then (st, err, rq)
      else
        var ar := rec.value.req;
        var invalid := ValidateDevice(cfg, ar, Get(rq.form, "device_code"), now);
        if invalid.Some? then (st, invalid, rq)
        else if ar.client.id != rq.client.id then (st, Some(InvalidGrant), rq)
        else (st, None, Hydrated(cfg, rq, ar, now))
  }

  ghost function Populate(cfg: Config, st: State, rq: Requester, at: Option<Generated>, rt: Option<Generated>,
                          now: Time)
    : (State, Option<Error>, Option<Response>)
  {
    var sig := PresentedSig(cfg, rq);
    var (rec, err) := Session(st, sig);
    if err.Some? then (st, Some(ServerError), None)
    else
      var invalid := ValidateDevice(cfg, rec.value.req, Get(rq.form, "device_code"), now);
      if invalid.Some? then (st, invalid, None) else Answer(cfg, st, sig, rq, rec.value.req, at, rt, now)
  }

  /** The second phase once the session is read again and the code found valid. */
  ghost function Answer(cfg: Config, st: State, sig: Sig, rq: Requester, ar: Requester, at: Option<Generated>,
                        rt: Option<Generated>, now: Time): (State, Option<Error>, Option<Response>)
  {
    var granted := Granting(rq, ar);
    var can := CanIssueRefresh(cfg, granted.grantedScope, granted.client);
    if at.None? || (can && rt.None?) then (st, Some(ServerError), None)
    else
      var issued := if can then rt else None;
      (CodeFlow.Issue(InvalidateDevice(st, sig), Sanitized(granted, {}), at.value.sig, issued), None,
       Some(MakeResponse(cfg, granted, DeviceGrant, at.value, issued, now)))
  }

  /** The session under a lookup that may fail. */
  function SessionUnder(st: State, sig: Sig, fault: Option<Error>): (Option<DeviceRecord>, Option<Error>) {
    if fault.None? then Session(st, sig)
        else (None, if fault == Some(NotFound) then Some(InvalidGrant) else Some(ServerError))
  }

  /** The first phase with a plan of failures. */
  ghost function HandleUnder(cfg: Config, st: State, rq: Requester, now: Time, plan: Plan): Outcome {
    if !HasGrant(rq.client, DEVICE_GRANT) then Outcome(st, plan, Some(UnauthorizedClient), rq)
    else if cfg.rateLimited(Get(rq.form, "device_code")) then Outcome(st, plan, Some(SlowDown), rq)
    else
      var (rec, err) := SessionUnder(st, PresentedSig(cfg, rq), Head(plan));
      if err.Some? then Outcome(st, Rest(plan), err, rq)
      else
        var ar := rec.value.req;
        var invalid := ValidateDevice(cfg, ar, Get(rq.form, "device_code"), now);
        if invalid.Some? then Outcome(st, Rest(plan), invalid, rq)
        else if ar.client.id != rq.client.id
            then Outcome(st, Rest(plan), Some(InvalidGrant), CodeFlow.Requesting(rq, ar))
        else Outcome(st, Rest(plan), None, Hydrated(cfg, rq, ar, now))
  }

  /** With a store that does not fail, this is `Handle`. */
  lemma HandleWithoutFaults(cfg: Config, st: State, rq: Requester, now: Time, plan: Plan)
    requires NoFaults(plan)
    ensures var o := HandleUnder(cfg, st, rq, now, plan);
            && NoFaults(o.plan)
            && (o.st, o.err) == (Handle(cfg, st, rq, now).0, Handle(cfg, st, rq, now).1)
            && (o.err == None ==> o.rq == Handle(cfg, st, rq, now).2)
  {
    hide ValidateDevice, HasGrant, Hydrated, Session;
    NoFaultsIsSmooth(plan, 0);
  }

  ghost function Issued(cfg: Config, st: State, rq: Requester, rt: Option<Generated>): Option<Generated> {
    var sig := PresentedSig(cfg, rq);
    if sig !in st.devices then None
    else
      var granted := Granting(rq, st.devices[sig].req);
      if CanIssueRefresh(cfg, granted.grantedScope, granted.client) then rt else None
  }

  method CanHandleTokenEndpointRequest(grantTypes: seq<string>) returns (r: bool)
    ensures r <==> grantTypes == [DEVICE_GRANT]
  {
    return |grantTypes| == 1 && grantTypes[0] == DEVICE_GRANT;
  }

  method GetSession(store: Storage, signature: Sig) returns (rec: Option<DeviceRecord>, err: Option<Error>)
    modifies store`faults
    ensures store.faults == Rest(old(store.faults))
    ensures (rec, err) == SessionUnder(store.mem.Model(), signature, Head(old(store.faults)))
  {
    rec, err := store.GetDeviceCodeSession(signature);
    if err == Some(NotFound) { return None, Some(InvalidGrant); }
    if err.Some? { return None, Some(ServerError); }
    if rec.value.userCode == Unused { return None, Some(AuthorizationPending); }
    if rec.value.userCode == Rejected { return None, Some(AccessDenied); }
  }

  method HandleTokenEndpointRequest(cfg: Config, store: Storage, request: Request, grantTypes: seq<string>, now: Time)
    returns (err: Option<Error>)
    modifies store, store.mem, request
    ensures store.mem.Model() == old(store.mem.Model())
    ensures grantTypes != [DEVICE_GRANT] ==>
              Outcome(store.mem.Model(), store.faults, err, request.Value())
              == Outcome(old(store.mem.Model()), old(store.faults), Some(UnknownRequest), old(request.Value()))
    ensures grantTypes == [DEVICE_GRANT] ==>
              Outcome(store.mem.Model(), store.faults, err, request.Value())
              == HandleUnder(cfg, old(store.mem.Model()), old(request.Value()), now, old(store.faults))
  {
    var can := CanHandleTokenEndpointRequest(grantTypes);
    if !can { return Some(UnknownRequest); }
    var allowed := Arguments.Has(request.client.grantTypes, [DEVICE_GRANT]);
    assert allowed ==> Arguments.InSlice([DEVICE_GRANT][0], request.client.grantTypes);
    if !allowed { return Some(UnauthorizedClient); }
    var code := Get(request.form, "device_code");
    var signature := cfg.signature(code);
    if cfg.rateLimited(code) { return Some(SlowDown); }
    var rec, sessionErr := GetSession(store, signature);
    if sessionErr.Some? { return sessionErr; }
    var ar := rec.value.req;
    err := ValidateDevice(cfg, ar, code, now);
    if err.Some? { return; }
    request.SetRequestedScopes(ar.requestedScope);
    request.SetRequestedAudience(ar.requestedAudience);
    if ar.client.id != request.client.id { return Some(InvalidGrant); }
    request.session := ar.session;
    request.id := ar.id;
    request.session := WithExpiries(cfg, request.session, request.client, DeviceGrant, now);
  }

  lemma AnswerFails(cfg: Config, st: State, sig: Sig, rq: Requester, ar: Requester, at: Option<Generated>,
                    rt: Option<Generated>, now: Time)
    ensures var spec := Answer(cfg, st, sig, rq, ar, at, rt, now);
            spec.1 == None || (spec.0 == st && spec.1 == Some(ServerError))
  {
  }

  /** As for authorization codes: an error leaves a transactional store as it was; success means that
      the lookup, every write and, on a transactional store, begin and commit went through. */
  method PopulateTokenEndpointResponse(cfg: Config, store: Storage, request: Request, grantTypes: seq<string>,
                                       at: Option<Generated>, rt: Option<Generated>, now: Time)
    returns (err: Option<Error>, resp: Option<Response>)
    modifies store, store.mem, request
    ensures grantTypes != [DEVICE_GRANT] ==> err == Some(UnknownRequest) && store.mem.Model() == old(store.mem.Model())
    ensures store.transactional && err.Some? ==> store.mem.Model() == old(store.mem.Model())
    ensures err == None ==>
              (store.mem.Model(), None, resp)
                  == Populate(cfg, old(store.mem.Model()), old(request.Value()), at, rt, now)
    ensures var st, rq := old(store.mem.Model()), old(request.Value());
            err == None <==>
              && grantTypes == [DEVICE_GRANT]
              && Populate(cfg, st, rq, at, rt, now).1 == None
              && Smooth(old(store.faults), 1 + InTx(store.transactional, CodeFlow.Writes(Issued(cfg, st, rq, rt))))
    ensures store.transactional && err == None ==> store.backup == None
    ensures NoFaults(old(store.faults)) && grantTypes == [DEVICE_GRANT] ==>
              && NoFaults(store.faults)
              && var spec := Populate(cfg, old(store.mem.Model()), old(request.Value()), at, rt, now);
                 (store.mem.Model(), err) == (spec.0, spec.1)
  {
    hide Smooth, NoFaults, Answer, CanIssueRefresh, ValidateDevice;
    ghost var writes := InTx(store.transactional, CodeFlow.Writes(Issued(cfg, store.mem.Model(), request.Value(), rt)));
    FirstOfPlan(store.faults, writes);
    resp := None;
    var can := CanHandleTokenEndpointRequest(grantTypes);
    if !can { return Some(UnknownRequest), None; }
    var code := Get(request.form, "device_code");
    var signature := cfg.signature(code);
    var rec, sessionErr := GetSession(store, signature);
    if sessionErr.Some? { return Some(ServerError), None; }
    var ar := rec.value.req;
    err := ValidateDevice(cfg, ar, code, now);
    if err.Some? { return; }
    AnswerFails(cfg, store.mem.Model(), signature, request.Value(), ar, at, rt, now);
    err, resp := GrantAndRedeem(cfg, store, request, ar, signature, at, rt, now);
  }

  /** The tail of the second phase: the grants of the session, the tokens, the writes. */
  method GrantAndRedeem(cfg: Config, store: Storage, request: Request, ar: Requester, signature: Sig,
                        at: Option<Generated>, rt: Option<Generated>, now: Time)
    returns (err: Option<Error>, resp: Option<Response>)
    modifies store, store.mem, request
    ensures store.transactional && err.Some? ==> store.mem.Model() == old(store.mem.Model())
    ensures store.transactional && err == None ==> store.backup == None
    ensures var st, rq := old(store.mem.Model()), old(request.Value());
            var spec := Answer(cfg, st, signature, rq, ar, at, rt, now);
            var granted := Granting(rq, ar);
            var issued := if CanIssueRefresh(cfg, granted.grantedScope, granted.client) then rt else None;
            && (err == None <==>
                 spec.1 == None
                 && Smooth(old(store.faults), InTx(store.transactional, CodeFlow.Writes(issued))))
            && (err == None ==> (store.mem.Model(), None, resp) == spec)
            && (err.Some? ==> err == Some(ServerError))
    ensures NoFaults(old(store.faults)) ==> NoFaults(store.faults)
    ensures NoFaults(old(store.faults)) && err.Some? ==> store.mem.Model() == old(store.mem.Model())
  {
    hide Smooth, CanIssueRefresh, CodeFlow.Issue, InvalidateDevice, MakeResponse, Sanitized;
    resp := None;
    request.GrantScopes(ar.grantedScope);
    request.GrantAudiences(ar.grantedAudience);
    if at.None? { return Some(ServerError), None; }
    var canRefresh := CanIssueRefreshToken(cfg, request.Value());
    var refresh: Option<Generated> := None;
    if canRefresh {
      if rt.None? { return Some(ServerError), None; }
      refresh := rt;
    }
    NoFaultsIsSmooth(store.faults, InTx(store.transactional, CodeFlow.Writes(refresh)));
    var storeReq := request.Sanitize({});
    err := RedeemInTx(store, signature, storeReq, at.value.sig, refresh);
    if err == None {
      resp := Some(MakeResponse(cfg, request.Value(), DeviceGrant, at.value, refresh, now));
    }
  }

  /** The writes of a redemption, in order, stopping at the first that fails. */
  method Redeem(store: Storage, signature: Sig, req: Requester, at: Sig, rt: Option<Generated>)
    returns (err: Option<Error>)
    modifies store`faults, store.mem
    ensures err == None <==> Smooth(old(store.faults), CodeFlow.Writes(rt))
    ensures err == None ==>
              store.mem.Model() == CodeFlow.Issue(InvalidateDevice(old(store.mem.Model()), signature), req, at, rt)
    ensures err == None ==> (Head(store.faults) == None <==> Smooth(old(store.faults), CodeFlow.Writes(rt) + 1))
    ensures NoFaults(old(store.faults)) ==> NoFaults(store.faults)
  {
    hide Smooth;
    PlanOfWrites(store.faults, CodeFlow.Writes(rt));
    err := store.InvalidateDeviceCodeSession(signature);
    if err.Some? { return; }
    err := store.CreateAccessTokenSession(at, req);
    if err.Some? { return; }
    if rt.Some? && rt.value.sig != "" {
      err := store.CreateRefreshTokenSession(rt.value.sig, at, req);
    }
  }

  /** The writes of a redemption inside one transaction, rolled back on the first failure. */
  method RedeemInTx(store: Storage, signature: Sig, req: Requester, at: Sig, rt: Option<Generated>)
    returns (err: Option<Error>)
    modifies store, store.mem
    ensures store.transactional && err.Some? ==> store.mem.Model() == old(store.mem.Model())
    ensures store.transactional && err == None ==> store.backup == None
    ensures err.Some? ==> err == Some(ServerError)
    ensures err == None <==> Smooth(old(store.faults), InTx(store.transactional, CodeFlow.Writes(rt)))
    ensures err == None ==>
        store.mem.Model() == CodeFlow.Issue(InvalidateDevice(old(store.mem.Model()), signature), req, at, rt)
    ensures NoFaults(old(store.faults)) ==> NoFaults(store.faults)
  {
    hide CodeFlow.Issue, InvalidateDevice, Smooth;
    ghost var plan := store.faults;
    SmoothStep(plan, CodeFlow.Writes(rt) + 2);
    SmoothPrefix(Rest(plan), CodeFlow.Writes(rt));
    err := store.MaybeBeginTx();
    if err.Some? { return Some(ServerError); }
    err := Redeem(store, signature, req, at, rt);
    if err == None {
      err := store.MaybeCommitTx();
    }
    if err.Some? {
      store.MaybeRollbackTx();
      return Some(ServerError);
    }
  }
}
