/** The token endpoint's first phase, access_request_handler.go: the request is parsed, the client
    is authenticated, and every configured handler that is responsible for the grant type must let
    the request in. */
module TokenEndpoint {
  import opened Prelude
  import opened Requests
  import opened Store
  import opened Transactions
  import opened Grants
  import CodeFlow
  import DeviceFlow
  import Helper
  import LetIn
  import PasswordFlow
  import PKCE
  import RefreshFlow
  import Strings

  /** `Extension` is any other handler that neither reads nor writes tokens in this phase, with the
      answer it gives; the OpenID Connect code handler, say, answers `UnknownRequest`. */
  datatype Handler =
    | Explicit
    | Refresh
    | Password
    | Device
    | Challenge
    | Extension(grantType: string, skipsClientAuth: bool, answer: Requester -> Option<Error>)

  datatype Setup = Setup(cfg: Config, pkce: PKCE.Settings, handlers: seq<Handler>)

  /** The OpenID Connect handler for codes has nothing to do in the first phase. */
  const OPENID_CODE := Extension(CODE_GRANT, false, rq => Some(UnknownRequest))

  /** The handlers that compose.ComposeAllEnabled registers for the token endpoint, in its order, with
      the answers of those that are not modelled. */
  function AllEnabled(clientCredentials: Requester -> Option<Error>, jwtBearer: Requester -> Option<Error>, skips: bool,
                      openidRefresh: Requester -> Option<Error>, openidDevice: Requester -> Option<Error>): seq<Handler>
  {
    [Explicit,
     Extension("client_credentials", false, clientCredentials),
     Refresh,
     Password,
     Extension("urn:ietf:params:oauth:grant-type:jwt-bearer", skips, jwtBearer),
     Device,
     OPENID_CODE,
     Extension(REFRESH_GRANT, false, openidRefresh),
     Extension(DEVICE_GRANT, false, openidDevice),
     Challenge]
  }

  function GrantOf(h: Handler): string {
    match h
    case Explicit => CODE_GRANT
    case Refresh => REFRESH_GRANT
    case Password => PASSWORD_GRANT
    case Device => DEVICE_GRANT
    case Challenge => CODE_GRANT
    case Extension(grantType, _, _) => grantType
  }

  predicate Responsible(h: Handler, grantTypes: seq<string>) {
    grantTypes == [GrantOf(h)]
  }

  predicate SkipsClientAuth(h: Handler) {
    h.Extension? && h.skipsClientAuth
  }

  ghost function Ask(s: Setup, h: Handler, transactional: bool, st: State, rq: Requester, now: Time, plan: Plan)
    : Outcome
  {
    match h
    case Explicit => CodeFlow.HandleUnder(s.cfg, st, rq, now, plan)
    case Refresh => RefreshFlow.HandleUnder(s.cfg, transactional, st, rq, now, plan)
    case Password => Outcome(st, plan, PasswordFlow.Handle(s.cfg, rq, now).0, PasswordFlow.Handle(s.cfg, rq, now).1)
    case Device => DeviceFlow.HandleUnder(s.cfg, st, rq, now, plan)
    case Challenge =>
      var (st', err, rest) := PKCE.AttemptUnder(s.pkce, st, s.pkce.signature(Get(rq.form, "code")),
                                                Get(rq.form, "code_verifier"), rq.client, plan);
      Outcome(st', rest, err, rq)
    case Extension(_, _, answer) => Outcome(st, plan, answer(rq), rq)
  }

  /** The loop over the handlers: the store, the plan and the request as they stand, whether some
      handler has let the request in, and the error that ended the loop, if any. */
  datatype Progress = Progress(transactional: bool, st: State, plan: Plan, rq: Requester, found: bool,
                               err: Option<Error>)

  function Start(store: Storage, rq: Requester): Progress
    reads store, store.mem
  {
    Progress(store.transactional, store.mem.Model(), store.faults, rq, false, None)
  }

  ghost function Consult(s: Setup, p: Progress, h: Handler, grantTypes: seq<string>, denied: Option<Error>, now: Time)
    : Progress
  {
    if p.err.Some? || !Responsible(h, grantTypes) then p
    else if !SkipsClientAuth(h) && denied.Some? then p.(err := denied)
    else
      var o := Ask(s, h, p.transactional, p.st, p.rq, now, p.plan);
      Progress(p.transactional, o.st, o.plan, o.rq, p.found || o.err == None,
               if o.err == Some(UnknownRequest) then None else o.err)
  }

  ghost function ConsultAll(s: Setup, p: Progress, hs: seq<Handler>, grantTypes: seq<string>, denied: Option<Error>,
                            now: Time)
    : Progress
  {
    if hs == [] then p
    else Consult(s, ConsultAll(s, p, hs[..|hs| - 1], grantTypes, denied, now), hs[|hs| - 1], grantTypes, denied, now)
  }

  lemma ConsultNone(s: Setup, p: Progress, grantTypes: seq<string>, denied: Option<Error>, now: Time)
    ensures ConsultAll(s, p, [], grantTypes, denied, now) == p
  {
  }

  /** One more handler of the list. */
  lemma ConsultNext(s: Setup, p: Progress, hs: seq<Handler>, h: Handler, grantTypes: seq<string>,
                    denied: Option<Error>, now: Time)
    ensures ConsultAll(s, p, hs + [h], grantTypes, denied, now) ==
            Consult(s, ConsultAll(s, p, hs, grantTypes, denied, now), h, grantTypes, denied, now)
  {
    hide Consult;
    assert (hs + [h])[..|hs|] == hs;
  }

  /** No failing lookup claims that a token is inactive: a store that reports that also hands out the
      token's request. */
  ghost predicate Reporting(plan: Plan) {
    forall i :: 0 <= i < |plan| ==> plan[i] != Some(InactiveToken)
  }

  method CanHandle(h: Handler, grantTypes: seq<string>) returns (r: bool)
    ensures r <==> Responsible(h, grantTypes)
  {
    match h
    case Explicit => r := CodeFlow.CanHandleTokenEndpointRequest(grantTypes);
    case Refresh => r := RefreshFlow.CanHandleTokenEndpointRequest(grantTypes);
    case Password => r := PasswordFlow.CanHandleTokenEndpointRequest(grantTypes);
    case Device => r := DeviceFlow.CanHandleTokenEndpointRequest(grantTypes);
    case Challenge => r := PKCE.CanHandleTokenEndpointRequest(grantTypes);
    case Extension(grantType, _, _) => r := |grantTypes| == 1 && grantTypes[0] == grantType;
  }

  method Dispatch(s: Setup, store: Storage, request: Request, h: Handler, grantTypes: seq<string>, now: Time)
    returns (err: Option<Error>)
    requires Reporting(store.faults) && Responsible(h, grantTypes)
    modifies store, store.mem, request
    ensures Outcome(store.mem.Model(), store.faults, err, request.Value())
            == Ask(s, h, store.transactional, old(store.mem.Model()), old(request.Value()), now, old(store.faults))
    ensures Reporting(store.faults)
  {
    hide CodeFlow.HandleUnder, RefreshFlow.HandleUnder, PasswordFlow.Handle, DeviceFlow.HandleUnder,
      PKCE.AttemptUnder, Reporting;
    PlansShrink(s, h, store.transactional, store.mem.Model(), request.Value(), now, store.faults);
    match h
    case Explicit => err := CodeFlow.HandleTokenEndpointRequest(s.cfg, store, request, grantTypes, now);
    case Refresh => err := RefreshFlow.HandleTokenEndpointRequest(s.cfg, store, request, grantTypes, now);
    case Password => err := PasswordFlow.HandleTokenEndpointRequest(s.cfg, request, grantTypes, now);
    case Device => err := DeviceFlow.HandleTokenEndpointRequest(s.cfg, store, request, grantTypes, now);
    case Challenge => err := PKCE.HandleTokenEndpointRequest(s.pkce, store, request, grantTypes);
    case Extension(_, _, answer) => err := answer(request.Value());
  }

  lemma PlansShrink(s: Setup, h: Handler, transactional: bool, st: State, rq: Requester, now: Time, plan: Plan)
    requires Reporting(plan)
    ensures Reporting(Ask(s, h, transactional, st, rq, now, plan).plan) && Head(plan) != Some(InactiveToken)
  {
    hide CodeFlow.CheckCode, CodeFlow.ReplayUnder, CodeFlow.Refused, CodeFlow.Hydrated, HasGrant, Reporting,
      RefreshFlow.CheckRefresh, RefreshFlow.Refused, RefreshFlow.Renewed, RefreshFlow.ReuseUnder,
      RefreshFlow.StorageError, DeviceFlow.SessionUnder, DeviceFlow.Hydrated, ValidateDevice, PKCE.Attempt,
      PasswordFlow.Handle;
    RestReports(plan);
    RestReports(Rest(plan));
    RestReports(Rest(Rest(plan)));
    RestReports(Rest(Rest(Rest(plan))));
    RestReports(Rest(Rest(Rest(Rest(plan)))));
    RestReports(Rest(Rest(Rest(Rest(Rest(plan))))));
  }

  lemma RestReports(plan: Plan)
    requires Reporting(plan)
    ensures Reporting(Rest(plan)) && Head(plan) != Some(InactiveToken)
  {
  }

  method ConsultHandlers(s: Setup, store: Storage, request: Request, grantTypes: seq<string>,
                         clientErr: Option<Error>, now: Time)
    returns (found: bool, err: Option<Error>)
    requires Reporting(store.faults)
    modifies store, store.mem, request
    ensures Progress(store.transactional, store.mem.Model(), store.faults, request.Value(), found, err)
            == ConsultAll(s, old(Start(store, request.Value())), s.handlers, grantTypes, clientErr, now)
    ensures Reporting(store.faults)
  {
    hide Ask, Responsible, Reporting, ConsultAll;
    found, err := false, None;
    ghost var start := Start(store, request.Value());
    var hs := s.handlers;
    ConsultNone(s, start, grantTypes, clientErr, now);
    for i := 0 to |hs|
      invariant Reporting(store.faults)
      invariant ConsultAll(s, start, hs[..i], grantTypes, clientErr, now)
             == Progress(store.transactional, store.mem.Model(), store.faults, request.Value(), found, None)
    {
      ConsultNext(s, start, hs[..i], hs[i], grantTypes, clientErr, now);
      assert hs[..i] + [hs[i]] == hs[..i + 1];
      var can := CanHandle(hs[i], grantTypes);
      if can {
        if !SkipsClientAuth(hs[i]) && clientErr.Some? {
          StuckOnError(s, start, hs, i + 1, grantTypes, clientErr, now);
          return found, clientErr;
        }
        var answer := Dispatch(s, store, request, hs[i], grantTypes, now);
        if answer == None {
          found := true;
        } else if answer != Some(UnknownRequest) {
          StuckOnError(s, start, hs, i + 1, grantTypes, clientErr, now);
          return found, answer;
        }
      }
    }
    assert hs[..|hs|] == hs;
  }

  /** Nothing happens after an error. */
  lemma {:induction false} StuckOnError(s: Setup, p: Progress, hs: seq<Handler>, n: nat, grantTypes: seq<string>,
                                        denied: Option<Error>, now: Time)
    requires n <= |hs|
    requires ConsultAll(s, p, hs[..n], grantTypes, denied, now).err.Some?
    ensures ConsultAll(s, p, hs, grantTypes, denied, now) == ConsultAll(s, p, hs[..n], grantTypes, denied, now)
    decreases |hs|
  {
    if n == |hs| {
      assert hs[..n] == hs;
    } else {
      var front := hs[..|hs| - 1];
      assert front[..n] == hs[..n];
      StuckOnError(s, p, front, n, grantTypes, denied, now);
    }
  }

  /** `clientErr` is the outcome of authenticating the client, `resourceErr` that of validating the
      resource indicator; the request object carries the authenticated client, if there is one. */
  method NewAccessRequest(s: Setup, store: Storage, request: Request, clientErr: Option<Error>,
                          resourceErr: Option<Error>, now: Time)
    returns (err: Option<Error>)
    requires Reporting(store.faults)
    modifies store, store.mem, request
    ensures Outcome(store.mem.Model(), store.faults, err, request.Value())
            == Accept(s, old(Start(store, request.Value())), clientErr, resourceErr, now)
  {
    hide ConsultAll, Dedup, Helper.NonEmpty, Strings.Split;
    if |request.form| == 0 { return Some(InvalidRequest); }
    var scopes := Helper.RemoveEmpty(Strings.Split(Get(request.form, "scope"), ' '));
    request.SetRequestedScopes(scopes);
    var grantTypes := Helper.RemoveEmpty(Strings.Split(Get(request.form, "grant_type"), ' '));
    if |grantTypes| < 1 { return Some(InvalidRequest); }
    if resourceErr.Some? { return resourceErr; }
    var found: bool;
    found, err := ConsultHandlers(s, store, request, grantTypes, clientErr, now);
    if err == None && !found { return Some(InvalidRequest); }
  }

  function GrantTypes(rq: Requester): seq<string> {
    Helper.NonEmpty(Strings.Split(Get(rq.form, "grant_type"), ' '))
  }

  function Asking(rq: Requester): Requester {
    rq.(requestedScope := Dedup(Helper.NonEmpty(Strings.Split(Get(rq.form, "scope"), ' '))))
  }

  ghost function Accept(s: Setup, p: Progress, clientErr: Option<Error>, resourceErr: Option<Error>, now: Time)
    : Outcome
  {
    var rq := p.rq;
    if rq.form == map[] then Outcome(p.st, p.plan, Some(InvalidRequest), rq)
    else if GrantTypes(rq) == [] then Outcome(p.st, p.plan, Some(InvalidRequest), Asking(rq))
    else if resourceErr.Some? then Outcome(p.st, p.plan, resourceErr, Asking(rq))
    else
      var q := ConsultAll(s, p.(rq := Asking(rq)), s.handlers, GrantTypes(rq), clientErr, now);
      Outcome(q.st, q.plan, if q.err.Some? then q.err else if q.found then None else Some(InvalidRequest), q.rq)
  }

  // ---------------------------------------------------------------------------------------
  // Who let a request in

  /** The store and request handler `i` is asked with. */
  ghost function Before(s: Setup, p: Progress, hs: seq<Handler>, i: nat, grantTypes: seq<string>,
                        denied: Option<Error>, now: Time)
    : Progress
    requires i <= |hs|
  {
    ConsultAll(s, p, hs[..i], grantTypes, denied, now)
  }

  ghost function Answer(s: Setup, p: Progress, hs: seq<Handler>, i: nat, grantTypes: seq<string>,
                        denied: Option<Error>, now: Time)
    : Option<Error>
    requires i < |hs|
  {
    var b := Before(s, p, hs, i, grantTypes, denied, now);
    Ask(s, hs[i], b.transactional, b.st, b.rq, now, b.plan).err
  }

  ghost predicate Welcomes(s: Setup, p: Progress, hs: seq<Handler>, i: nat, grantTypes: seq<string>,
                           denied: Option<Error>, now: Time)
    requires i < |hs|
  {
    Responsible(hs[i], grantTypes) && Answer(s, p, hs, i, grantTypes, denied, now) == None
  }

  /** Whatever the handlers and their order: the loop ends without an error if and only if every
      responsible handler may go without client authentication or the client is authenticated, and
      lets the request in or declares it none of its business; and then some handler was found if
      and only if one let it in. */
  lemma {:induction false} EveryResponsibleHandlerMustAgree(s: Setup, p: Progress, hs: seq<Handler>,
                                                            grantTypes: seq<string>, denied: Option<Error>, now: Time)
    requires p.err == None && !p.found
    ensures var q := ConsultAll(s, p, hs, grantTypes, denied, now);
            && (q.err == None <==>
                  forall i :: 0 <= i < |hs| && Responsible(hs[i], grantTypes) ==>
                    && (SkipsClientAuth(hs[i]) || denied == None)
                    && (Answer(s, p, hs, i, grantTypes, denied, now) == None
                        || Answer(s, p, hs, i, grantTypes, denied, now) == Some(UnknownRequest)))
            && (q.err == None ==>
                  (q.found <==> exists i :: 0 <= i < |hs| && Welcomes(s, p, hs, i, grantTypes, denied, now)))
    decreases |hs|
  {
    hide Ask, Responsible, SkipsClientAuth, ConsultAll;
    ConsultNone(s, p, grantTypes, denied, now);
    if hs != [] {
      var n := |hs| - 1;
      var front := hs[..n];
      ConsultNext(s, p, front, hs[n], grantTypes, denied, now);
      assert front + [hs[n]] == hs;
      EveryResponsibleHandlerMustAgree(s, p, front, grantTypes, denied, now);
      forall i | 0 <= i < n
        ensures Answer(s, p, front, i, grantTypes, denied, now) == Answer(s, p, hs, i, grantTypes, denied, now)
        ensures front[i] == hs[i]
      {
        assert front[..i] == hs[..i];
      }
      var q := ConsultAll(s, p, front, grantTypes, denied, now);
      assert Answer(s, p, hs, n, grantTypes, denied, now)
          == Ask(s, hs[n], q.transactional, q.st, q.rq, now, q.plan).err;
      assert forall i :: 0 <= i < n && Welcomes(s, p, front, i, grantTypes, denied, now) ==>
          Welcomes(s, p, hs, i, grantTypes, denied, now);
      assert forall i :: 0 <= i < n && Welcomes(s, p, hs, i, grantTypes, denied, now) ==>
          Welcomes(s, p, front, i, grantTypes, denied, now);
      assert Welcomes(s, p, hs, n, grantTypes, denied, now) <==>
             Responsible(hs[n], grantTypes) && Ask(s, hs[n], q.transactional, q.st, q.rq, now, q.plan).err == None;
    }
  }

  lemma AskedScopes(rq: Requester)
    ensures forall x :: x in Asking(rq).requestedScope <==>
                        x in Helper.NonEmpty(Strings.Split(Get(rq.form, "scope"), ' '))
    ensures NoRepeats(Asking(rq).requestedScope)
  {
    DedupIdempotent(Helper.NonEmpty(Strings.Split(Get(rq.form, "scope"), ' ')));
    hide Dedup, NoRepeats, Helper.NonEmpty, Strings.Split;
  }

  /** The endpoint accepts a request if and only if it has a form and a grant type, its resource
      indicator is good, every responsible handler may go without client authentication or the client
      is authenticated, each of them lets it in or declares it none of its business, and one lets it in.
      The scopes it asks for are those of its form. */
  lemma AcceptedExactly(s: Setup, transactional: bool, st: State, rq: Requester, clientErr: Option<Error>,
                        resourceErr: Option<Error>, now: Time, plan: Plan)
    ensures var p := Progress(transactional, st, plan, rq, false, None);
            var q := p.(rq := Asking(rq));
            var (hs, grantTypes) := (s.handlers, GrantTypes(rq));
            Accept(s, p, clientErr, resourceErr, now).err == None <==>
              && rq.form != map[] && grantTypes != [] && resourceErr == None
              && (forall i :: 0 <= i < |hs| && Responsible(hs[i], grantTypes) ==>
                    && (SkipsClientAuth(hs[i]) || clientErr == None)
                    && (Answer(s, q, hs, i, grantTypes, clientErr, now) == None
                        || Answer(s, q, hs, i, grantTypes, clientErr, now) == Some(UnknownRequest)))
              && exists i :: 0 <= i < |hs| && Welcomes(s, q, hs, i, grantTypes, clientErr, now)
    ensures forall x :: x in Asking(rq).requestedScope <==>
                        x in Helper.NonEmpty(Strings.Split(Get(rq.form, "scope"), ' '))
    ensures NoRepeats(Asking(rq).requestedScope)
  {
    AskedScopes(rq);
    hide Ask, ConsultAll, Asking, GrantTypes, Responsible, SkipsClientAuth, Answer, Welcomes, NoRepeats;
    var q := Progress(transactional, st, plan, Asking(rq), false, None);
    EveryResponsibleHandlerMustAgree(s, q, s.handlers, GrantTypes(rq), clientErr, now);
  }

  // ---------------------------------------------------------------------------------------
  // Code requests

  lemma AttemptNeverUnknown(s: PKCE.Settings, st: State, sig: Sig, verifier: string, client: Client)
    ensures PKCE.Attempt(s, st, sig, verifier, client).1 != Some(UnknownRequest)
  {
  }

  lemma CodeHandleFacts(cfg: Config, st: State, rq: Requester, now: Time)
    ensures var (st1, err, rq1) := CodeFlow.Handle(cfg, st, rq, now);
            && st1.pkce == st.pkce && err != Some(UnknownRequest)
            && (err == None ==> st1 == st && rq1.form == rq.form && rq1.client == rq.client)
  {
    hide CodeFlow.CheckCode, HasGrant, WithExpiries, Deactivated, Without;
    assert CodeFlow.CheckCode(cfg, rq, if CodeFlow.PresentedSig(cfg, rq) in st.codes
        then st.codes[CodeFlow.PresentedSig(cfg, rq)].req else rq, now)
        != Some(UnknownRequest) by {
      CheckCodeErrors(cfg, rq, if CodeFlow.PresentedSig(cfg, rq) in st.codes
          then st.codes[CodeFlow.PresentedSig(cfg, rq)].req else rq, now);
    }
  }

  lemma CheckCodeErrors(cfg: Config, rq: Requester, ar: Requester, now: Time)
    ensures CodeFlow.CheckCode(cfg, rq, ar, now) in {None, Some(InvalidGrant)}
  {
  }

  /** Handlers that are not responsible, or declare every request none of their business. */
  ghost predicate Silent(hs: seq<Handler>, grantTypes: seq<string>) {
    forall i :: 0 <= i < |hs| && Responsible(hs[i], grantTypes) ==>
      hs[i].Extension? && forall rq: Requester :: hs[i].answer(rq) == Some(UnknownRequest)
  }

  /** Asking silent handlers changes nothing, except that a denied client is noticed. */
  lemma {:induction false} SilentHandlers(s: Setup, p: Progress, hs: seq<Handler>, quiet: seq<Handler>,
                                          grantTypes: seq<string>, denied: Option<Error>, now: Time)
    requires Silent(quiet, grantTypes)
    ensures var q, r := ConsultAll(s, p, hs, grantTypes, denied, now),
        ConsultAll(s, p, hs + quiet, grantTypes, denied, now);
            r == q || (denied.Some? && q.err == None && r == q.(err := denied))
    decreases |quiet|
  {
    if quiet == [] {
      assert hs + quiet == hs;
    } else {
      var n := |quiet| - 1;
      var front, h := quiet[..n], quiet[n];
      SilentHandlers(s, p, hs, front, grantTypes, denied, now);
      assert (hs + quiet)[..|hs + quiet| - 1] == hs + front;
      hide ConsultAll, Responsible, CodeFlow.HandleUnder, RefreshFlow.HandleUnder, DeviceFlow.HandleUnder,
        PKCE.AttemptUnder;
      ConsultNext(s, p, hs + front, h, grantTypes, denied, now);
      assert hs + front + [h] == hs + quiet;
    }
  }

  /** The handlers are the code handler and, later, the PKCE handler, with silent ones around. */
  ghost predicate ServesCodes(hs: seq<Handler>, a: seq<Handler>, b: seq<Handler>, c: seq<Handler>) {
    && hs == a + [Explicit] + b + [Challenge] + c
    && Silent(a, [CODE_GRANT]) && Silent(b, [CODE_GRANT]) && Silent(c, [CODE_GRANT])
  }

  lemma AllEnabledServesCodes(clientCredentials: Requester -> Option<Error>, jwtBearer: Requester -> Option<Error>,
                              skips: bool, openidRefresh: Requester -> Option<Error>,
                              openidDevice: Requester -> Option<Error>)
    ensures var hs := AllEnabled(clientCredentials, jwtBearer, skips, openidRefresh, openidDevice);
            ServesCodes(hs, [], hs[1..9], [])
  {
    var hs := AllEnabled(clientCredentials, jwtBearer, skips, openidRefresh, openidDevice);
    assert |CODE_GRANT| == 18 && |REFRESH_GRANT| == 13 && |PASSWORD_GRANT| == 8 && |DEVICE_GRANT| == 44;
    assert |"urn:ietf:params:oauth:grant-type:jwt-bearer"| == 43 && "client_credentials"[0] == 'c'
        && CODE_GRANT[0] == 'a';
    assert [CODE_GRANT][0] == CODE_GRANT;
    forall i | 0 <= i < 8 && Responsible(hs[1..9][i], [CODE_GRANT])
      ensures hs[1..9][i] == OPENID_CODE
    {
      assert GrantOf(hs[1..9][i]) == [GrantOf(hs[1..9][i])][0] == CODE_GRANT;
    }
  }

  lemma CodeHandlersAsked(s: Setup, p: Progress, a: seq<Handler>, b: seq<Handler>, c: seq<Handler>,
                          denied: Option<Error>, now: Time)
    requires ServesCodes(s.handlers, a, b, c) && p.err == None
    ensures var q := ConsultAll(s, p, s.handlers, [CODE_GRANT], denied, now);
            if denied.Some? then q == p.(err := denied)
            else q == Consult(s, Consult(s, p, Explicit, [CODE_GRANT], None, now), Challenge, [CODE_GRANT], None, now)
  {
    hide Silent, Ask;
    ConsultNone(s, p, [CODE_GRANT], denied, now);
    SilentHandlers(s, p, [], a, [CODE_GRANT], denied, now);
    assert [] + a == a;
    hide ConsultAll;
    ConsultNext(s, p, a, Explicit, [CODE_GRANT], denied, now);
    SilentHandlers(s, p, a + [Explicit], b, [CODE_GRANT], denied, now);
    ConsultNext(s, p, a + [Explicit] + b, Challenge, [CODE_GRANT], denied, now);
    SilentHandlers(s, p, a + [Explicit] + b + [Challenge], c, [CODE_GRANT], denied, now);
  }

  /** A code request on a store that does not fail. */
  function At(transactional: bool, st: State, rq: Requester): Progress {
    Progress(transactional, st, [], rq, false, None)
  }

  /** The verifier passes: the challenge stored for the code is met, or none is stored, none is given
      and the client may do without. */
  predicate VerifierPasses(s: PKCE.Settings, st: State, rq: Requester) {
    var sig, verifier := s.signature(Get(rq.form, "code")), Get(rq.form, "code_verifier");
    if sig !in st.pkce then verifier == "" && PKCE.NeedsNone(s, rq.client)
    else
      var stored := st.pkce[sig];
      var challenge, m := Get(stored.form, PKCE.CHALLENGE), Get(stored.form, PKCE.METHOD);
      if challenge != "" then PKCE.Verifies(s, challenge, m, verifier)
      else verifier == "" && PKCE.NeedsNone(s, stored.client)
  }

  lemma AttemptIsExact(s: PKCE.Settings, st: State, rq: Requester)
    ensures var sig := s.signature(Get(rq.form, "code"));
            var (st', err) := PKCE.Attempt(s, st, sig, Get(rq.form, "code_verifier"), rq.client);
            (err == None <==> VerifierPasses(s, st, rq)) && st' == DeletePKCE(st, sig)
  {
    hide PKCE.Check, PKCE.Verifies;
    var sig := s.signature(Get(rq.form, "code"));
    if sig in st.pkce {
      PKCE.CheckIsExact(s, st.pkce[sig], Get(rq.form, "code_verifier"));
    } else {
      assert st.pkce - {sig} == st.pkce;
    }
  }

  /** Whatever silent handlers are configured besides: a code request is let in if and only if the
      client is authenticated, has the grant and presents an active code that it may redeem, and its
      verifier passes, in this order: a request the code handler turns away is answered by it and does
      not use the challenge up, any other does. */
  lemma CodeRequestsNeedCodeAndVerifier(s: Setup, a: seq<Handler>, b: seq<Handler>, c: seq<Handler>,
                                        transactional: bool, st: State, rq: Requester, clientErr: Option<Error>,
                                        now: Time)
    requires ServesCodes(s.handlers, a, b, c)
    requires rq.form != map[] && GrantTypes(rq) == [CODE_GRANT]
    ensures var o := Accept(s, At(transactional, st, rq), clientErr, None, now);
            var code := s.cfg.signature(Get(rq.form, "code"));
            var welcome := HasGrant(rq.client, CODE_GRANT) && code in st.codes && st.codes[code].active
                           && LetIn.MayRedeem(s.cfg, st.codes[code].req, rq, now);
            && (o.err == None <==> clientErr == None && welcome && VerifierPasses(s.pkce, st, rq))
            && (o.err == None ==>
                  && LetIn.TakesOver(s.cfg, Asking(rq), o.rq, st.codes[code].req, CodeGrant, now)
                  && o.rq == CodeFlow.Handle(s.cfg, st, Asking(rq), now).2)
            && (clientErr.Some? ==> o.st == st)
            && (clientErr == None && welcome ==> o.st == DeletePKCE(st, s.pkce.signature(Get(rq.form, "code"))))
            && (clientErr == None && !welcome ==>
                  && o.st == CodeFlow.Handle(s.cfg, st, Asking(rq), now).0 && o.st.pkce == st.pkce
                  && o.err == Some(if HasGrant(rq.client, CODE_GRANT) then InvalidGrant else UnauthorizedClient))
  {
    hide CodeFlow.Handle, CodeFlow.HandleUnder, PKCE.Attempt, GrantTypes, Asking, ServesCodes, ConsultAll,
      LetIn.MayRedeem, LetIn.TakesOver, VerifierPasses, HasGrant;
    var p := At(transactional, st, rq).(rq := Asking(rq));
    AskingFacts(rq);
    CodeFlow.HandleWithoutFaults(s.cfg, st, Asking(rq), now, []);
    CodeHandleFacts(s.cfg, st, Asking(rq), now);
    LetIn.CodeLetInExactly(s.cfg, st, Asking(rq), now);
    MayRedeemAsking(s.cfg, st, rq, now);
    if CodeFlow.Handle(s.cfg, st, Asking(rq), now).1 == None {
      LetIn.CodeTakesOver(s.cfg, st, Asking(rq), now);
    }
    AttemptIsExact(s.pkce, st, rq);
    var o1 := CodeFlow.HandleUnder(s.cfg, st, Asking(rq), now, []);
    var sig, verifier := s.pkce.signature(Get(rq.form, "code")), Get(rq.form, "code_verifier");
    AttemptNeverUnknown(s.pkce, o1.st, sig, verifier, rq.client);
    AttemptWithoutFaults(s.pkce, o1.st, sig, verifier, rq.client, o1.plan);
    CodeHandlersAsked(s, p, a, b, c, clientErr, now);
  }

  lemma MayRedeemAsking(cfg: Config, st: State, rq: Requester, now: Time)
    ensures forall ar :: LetIn.MayRedeem(cfg, ar, Asking(rq), now) <==> LetIn.MayRedeem(cfg, ar, rq, now)
  {
  }

  lemma AskingFacts(rq: Requester)
    ensures Asking(rq).form == rq.form && Asking(rq).client == rq.client
  {
  }

  lemma AttemptWithoutFaults(s: PKCE.Settings, st: State, sig: Sig, verifier: string, client: Client, plan: Plan)
    requires NoFaults(plan)
    ensures var (st', err, rest) := PKCE.AttemptUnder(s, st, sig, verifier, client, plan);
            (st', err) == PKCE.Attempt(s, st, sig, verifier, client) && NoFaults(rest)
  {
    hide PKCE.Attempt;
    NoFaultsIsSmooth(plan, 0);
    NoFaultsIsSmooth(Rest(plan), 0);
  }

  /** With enforcement, whoever is let in has presented an active code of its own together with a
      verifier for the challenge the code was issued with, and has used the challenge up; and in
      every store that holds no challenge for that code every request for it is turned away. */
  lemma EnforcedCodeIsLetInOnce(s: Setup, a: seq<Handler>, b: seq<Handler>, c: seq<Handler>, transactional: bool,
                                st: State, rq: Requester, st2: State, rq2: Requester, now: Time, later: Time)
    requires ServesCodes(s.handlers, a, b, c) && s.pkce.enforce
    requires rq.form != map[] && GrantTypes(rq) == [CODE_GRANT] && rq2.form != map[] && GrantTypes(rq2) == [CODE_GRANT]
    requires Accept(s, At(transactional, st, rq), None, None, now).err == None
    requires s.pkce.signature(Get(rq.form, "code")) !in st2.pkce && Get(rq2.form, "code") == Get(rq.form, "code")
    ensures var sig, code := s.pkce.signature(Get(rq.form, "code")), CodeFlow.PresentedSig(s.cfg, rq);
            && code in st.codes && st.codes[code].active && st.codes[code].req.client.id == rq.client.id
            && sig in st.pkce
            && PKCE.Verifies(s.pkce, Get(st.pkce[sig].form, PKCE.CHALLENGE), Get(st.pkce[sig].form, PKCE.METHOD),
                             Get(rq.form, "code_verifier"))
    ensures s.pkce.signature(Get(rq.form, "code")) !in Accept(s, At(transactional, st, rq), None, None, now).st.pkce
    ensures Accept(s, At(transactional, st2, rq2), None, None, later).err != None
  {
    hide Accept, ServesCodes, PKCE.Verifies, HasGrant, GrantTypes, LetIn.InTime, LetIn.TakesOver;
    CodeRequestsNeedCodeAndVerifier(s, a, b, c, transactional, st, rq, None, now);
    CodeRequestsNeedCodeAndVerifier(s, a, b, c, transactional, st2, rq2, None, later);
  }
}
