/** Pushed authorization requests (RFC 9126): handler/par/flow_pushed_authorize.go stores a request
    together with an expiry, and authorize_request_handler.go redeems its URI by merging the stored
    request into the one at hand and deleting it, whether or not the client that presents it is the
    one that pushed it. Beside it, the check of the response types. */
module PAR {
  import opened Prelude
  import opened Requests
  import opened Store
  import opened Transactions
  import opened Grants
  import opened SingleUse
  import Arguments
  import Helper
  import Strings

  class AuthorizeRequest {
    const request: Request
    var redirectURI: Option<string>
    var responseTypes: seq<string>
    var state: string
    var responseMode: string

    function Value(): Authorization
      reads this, request
    {
      Authorization(request.Value(), redirectURI, responseTypes, state, responseMode)
    }

    constructor (request: Request)
      ensures this.request == request
      ensures Value() == Authorization(request.Value(), None, [], "", "")
    {
      this.request := request;
      redirectURI, responseTypes, state, responseMode := None, [], "", "";
    }
  }

  /** What pushing needs of the configuration. */
  datatype Server = Server(cfg: Config, prefix: string, lifespan: Duration)

  const PUSHABLE := ["token", "code", "id_token"]

  /** `secure` is the verdict on the redirect URI. */
  function CheckPush(s: Server, ar: Authorization, secure: bool): Option<Error> {
    if !secure then Some(InvalidRequest)
    else if !AllScopesMatch(s.cfg, ar.request.client.scopes, ar.request.requestedScope) then Some(InvalidScope)
    else s.cfg.audienceStrategy(ar.request.client.audience, ar.request.requestedAudience)
  }

  /** The request with the expiry that pushing sets. */
  function Expiring(s: Server, ar: Authorization, now: Time): Authorization {
    ar.(request := ar.request.(session := SetExpiresAt(ar.request.session, PushedContext, now + s.lifespan)))
  }

  /** What pushing does: the store, the answer and the request URI, if one was made. `key` is the
      random part of the URI. */
  ghost function Pushed(s: Server, st: State, ar: Authorization, key: string, secure: bool, now: Time)
    : (State, Option<Error>, Option<string>)
  {
    if !Arguments.HasSome(ar.responseTypes, PUSHABLE) then (st, None, None)
    else if CheckPush(s, ar, secure).Some? then (st, CheckPush(s, ar, secure), None)
    else (CreatePAR(st, s.prefix + key, Expiring(s, ar, now)), None, Some(s.prefix + key))
  }

  method HandlePushedAuthorizeEndpointRequest(s: Server, store: Storage, ar: AuthorizeRequest, key: string,
                                              secure: bool, now: Time)
    returns (requestURI: Option<string>, err: Option<Error>)
    modifies store`faults, store.mem, ar.request
    ensures NoFaults(old(store.faults)) ==>
              && NoFaults(store.faults)
              && (store.mem.Model(), err, requestURI)
                   == Pushed(s, old(store.mem.Model()), old(ar.Value()), key, secure, now)
    ensures err.Some? ==> requestURI == None && store.mem.Model() == old(store.mem.Model())
    ensures requestURI.Some? ==> ar.Value() == Expiring(s, old(ar.Value()), now)
  {
    var pushable := Arguments.HasOneOf(ar.responseTypes, PUSHABLE);
    if !pushable { return None, None; }
    if !secure { return None, Some(InvalidRequest); }
    for i := 0 to |ar.request.requestedScope|
      invariant forall k :: 0 <= k < i ==> s.cfg.scopeStrategy(ar.request.client.scopes, ar.request.requestedScope[k])
    {
      if !s.cfg.scopeStrategy(ar.request.client.scopes, ar.request.requestedScope[i]) {
        return None, Some(InvalidScope);
      }
    }
    err := s.cfg.audienceStrategy(ar.request.client.audience, ar.request.requestedAudience);
    if err.Some? { return None, err; }
    ar.request.session := SetExpiresAt(ar.request.session, PushedContext, now + s.lifespan);
    var failed := store.CreatePARSession(s.prefix + key, ar.Value());
    if failed.Some? { return None, Some(ServerError); }
    return Some(s.prefix + key), None;
  }

  /** A request URI that the server takes for one of its own. */
  predicate IsPushed(prefix: Option<string>, uri: string) {
    prefix.Some? && uri != "" && prefix.value <= uri
  }

  /** The request at hand completed from the stored one. */
  function Continued(a: Authorization, stored: Authorization): Authorization {
    stored.(request := Merged(a.request, stored.request))
  }

  /** `prefix` is absent when the configuration knows nothing of pushed requests. */
  function FromPAR(prefix: Option<string>, st: State, a: Authorization): (State, bool, Option<Error>, Authorization) {
    var uri, clientID := Get(a.request.form, "request_uri"), Get(a.request.form, "client_id");
    if !IsPushed(prefix, uri) then (st, false, None, a)
    else if uri !in st.par then (st, false, Some(InvalidRequestURI), a)
    else
      var mismatch := clientID != st.par[uri].request.client.id;
      (DeletePAR(st, uri), !mismatch, if mismatch then Some(InvalidRequest) else None, Continued(a, st.par[uri]))
  }

  lemma MergedClient(a: Requester, b: Requester)
    ensures Merged(a, b).client == b.client
  {
  }

  method AuthorizeRequestFromPAR(prefix: Option<string>, store: Storage, ar: AuthorizeRequest)
    returns (isPAR: bool, err: Option<Error>)
    modifies store`faults, store.mem, ar, ar.request
    ensures NoFaults(old(store.faults)) ==>
              && NoFaults(store.faults)
              && (store.mem.Model(), isPAR, err, ar.Value()) == FromPAR(prefix, old(store.mem.Model()), old(ar.Value()))
    ensures isPAR ==>
              (store.mem.Model(), isPAR, err, ar.Value()) == FromPAR(prefix, old(store.mem.Model()), old(ar.Value()))
    ensures !isPAR && err == None ==> store.mem.Model() == old(store.mem.Model()) && ar.Value() == old(ar.Value())
  {
    hide Merged;
    if prefix.None? { return false, None; }
    var requestURI := Get(ar.request.form, "request_uri");
    if requestURI == "" || !(prefix.value <= requestURI) { return false, None; }
    var clientID := Get(ar.request.form, "client_id");
    var stored, getErr := store.GetPARSession(requestURI);
    if getErr.Some? { return false, Some(InvalidRequestURI); }
    MergedClient(ar.request.Value(), stored.value.request);
    ar.request.Merge(stored.value.request);
    ar.redirectURI := stored.value.redirectURI;
    ar.responseTypes := stored.value.responseTypes;
    ar.state := stored.value.state;
    ar.responseMode := stored.value.responseMode;
    var failed := store.DeletePARSession(requestURI);
    if failed.Some? { return false, Some(ServerError); }
    if clientID != ar.request.client.id { return false, Some(InvalidRequest); }
    return true, None;
  }

  // ---------------------------------------------------------------------------------------
  // Whole runs

  /** Who presents a request URI, and when. */
  datatype Presentation = Presentation(clientID: string, at: Time)

  datatype World = World(st: State, used: set<string>, log: seq<Entry<Authorization, Presentation>>)

  /** `Elsewhere` is whatever other endpoints do to the store. */
  datatype Event =
    | Push(ar: Authorization, key: string, secure: bool, now: Time)
    | Redeem(a: Authorization, now: Time)
    | Elsewhere(st: State)

  const START := World(EMPTY, {}, [])

  /** The random part makes every request URI new. */
  predicate Enabled(s: Server, w: World, e: Event) {
    match e
    case Push(_, key, _, _) => s.prefix + key !in w.used
    case Redeem(_, _) => true
    case Elsewhere(st) => st.par == w.st.par
  }

  ghost function Step(s: Server, w: World, e: Event): World {
    match e
    case Push(ar, key, secure, now) =>
      var (st, _, uri) := Pushed(s, w.st, ar, key, secure, now);
      World(st, w.used + {s.prefix + key}, if uri.Some? then w.log + [Put(uri.value, Expiring(s, ar, now))] else w.log)
    case Redeem(a, now) =>
      var uri := Get(a.request.form, "request_uri");
      var (st, isPAR, err, _) := FromPAR(Some(s.prefix), w.st, a);
      var who := Presentation(Get(a.request.form, "client_id"), now);
      if IsPushed(Some(s.prefix), uri) then w.(st := st, log := w.log + [Take(uri, who, isPAR)]) else w.(st := st)
    case Elsewhere(st) => w.(st := st)
  }

  ghost predicate Possible(s: Server, w: World, es: seq<Event>)
    decreases |es|
  {
    es == [] || (Enabled(s, w, es[0]) && Possible(s, Step(s, w, es[0]), es[1..]))
  }

  ghost function Run(s: Server, w: World, es: seq<Event>): World
    requires Possible(s, w, es)
    decreases |es|
  {
    if es == [] then w else Run(s, Step(s, w, es[0]), es[1..])
  }

  /** Only the client that pushed a request may continue it. */
  function SameClient(): (Authorization, Presentation) -> bool {
    (pushed: Authorization, who: Presentation) => who.clientID == pushed.request.client.id
  }

  ghost predicate Inv(w: World) {
    SingleUse.Inv(w.st.par, w.used, w.log, SameClient())
  }

  lemma StepKeepsInv(s: Server, w: World, e: Event)
    requires Inv(w) && Enabled(s, w, e)
    ensures Inv(Step(s, w, e))
  {
    hide SingleUse.Inv, Merged, CheckPush, Expiring;
    match e
    case Push(ar, key, secure, now) =>
      PutKeepsInv(w.st.par, w.used, w.log, SameClient(), s.prefix + key, Expiring(s, ar, now));
      MoreUsed(w.st.par, w.used, w.used + {s.prefix + key}, w.log, SameClient());
    case Redeem(a, now) =>
      var uri := Get(a.request.form, "request_uri");
      TakeKeepsInv(w.st.par, w.used, w.log, SameClient(), uri, Presentation(Get(a.request.form, "client_id"), now));
      if uri !in w.st.par {
        assert w.st.par - {uri} == w.st.par;
      }
    case Elsewhere(st) =>
  }

  lemma {:induction false} RunKeepsInv(s: Server, w: World, es: seq<Event>)
    requires Inv(w) && Possible(s, w, es)
    ensures Inv(Run(s, w, es))
    decreases |es|
  {
    hide Inv, Step, Enabled;
    if es != [] {
      StepKeepsInv(s, w, es[0]);
      RunKeepsInv(s, Step(s, w, es[0]), es[1..]);
    }
  }

  /** In every run a request URI is honoured if and only if it was pushed, this is the first time
      it is presented, and the client that presents it is the one that pushed it. */
  lemma HonouredExactlyOnce(s: Server, es: seq<Event>, j: nat)
    requires Possible(s, START, es)
    requires var log := Run(s, START, es).log; j < |log| && log[j].Take?
    ensures var log := Run(s, START, es).log;
            log[j].ok <==> exists i ::
                0 <= i < j && Fresh(log, i, j, log[j].key)
                && log[i].val.request.client.id == log[j].arg.clientID
  {
    hide Possible, Run, SingleUse.Inv, Fresh;
    SingleUse.StartInv(SameClient());
    RunKeepsInv(s, START, es);
    var w := Run(s, START, es);
    AcceptedExactlyWhenFirst(w.st.par, w.used, w.log, SameClient(), j);
  }

  /** Any presentation uses the request up, also one by the wrong client. */
  lemma NotHonouredAgain(s: Server, es: seq<Event>, pushed: nat, i: nat, j: nat)
    requires Possible(s, START, es)
    requires var log := Run(s, START, es).log;
             && pushed < i < j < |log|
             && log[pushed].Put? && log[i].Take? && log[j].Take?
             && log[pushed].key == log[i].key == log[j].key
    ensures !Run(s, START, es).log[j].ok
  {
    hide Possible, Run, SingleUse.Inv;
    SingleUse.StartInv(SameClient());
    RunKeepsInv(s, START, es);
    var w := Run(s, START, es);
    NoneAcceptedAfterAny(w.st.par, w.used, w.log, SameClient(), pushed, i, j);
  }

  /** Which requests can be pushed: those for a response type that may be, with a good redirect URI, and
      scopes and an audience their client may use; then a URI is made and the request stored under it
      as it is, but for its new expiry. */
  lemma PushedExactly(s: Server, st: State, ar: Authorization, key: string, secure: bool, now: Time)
    ensures var (st', err, uri) := Pushed(s, st, ar, key, secure, now);
            && (uri.Some? <==>
                  && (Arguments.InSlice("token", ar.responseTypes) || Arguments.InSlice("code", ar.responseTypes)
                      || Arguments.InSlice("id_token", ar.responseTypes))
                  && secure
                  && (forall i :: 0 <= i < |ar.request.requestedScope| ==>
                        s.cfg.scopeStrategy(ar.request.client.scopes, ar.request.requestedScope[i]))
                  && s.cfg.audienceStrategy(ar.request.client.audience, ar.request.requestedAudience) == None)
            && (uri.None? ==> st' == st)
            && (uri.Some? ==>
                  && err == None && uri == Some(s.prefix + key)
                  && st' == st.(par := st'.par) && st'.par.Keys == st.par.Keys + {uri.value}
                  && (forall u :: u in st.par && u != uri.value ==> st'.par[u] == st.par[u])
                  && var kept := st'.par[uri.value];
                     && kept == ar.(request := ar.request.(session := kept.request.session))
                     && kept.request.session.subject == ar.request.session.subject
                     && kept.request.session.expiresAt ==
                        ar.request.session.expiresAt[PushedContext := now + s.lifespan])
  {
    hide Arguments.InSlice;
    assert PUSHABLE[0] == "token" && PUSHABLE[1] == "code" && PUSHABLE[2] == "id_token";
  }

  /** In every run a request that is honoured goes on with what was pushed under its URI: the redirect
      URI, the response types, the state and the response mode, the client, the session and every
      pushed form field are the pushed ones, and nothing pushed is lost from the scopes and audience. */
  lemma HonouredRequestIsThePushedOne(s: Server, es: seq<Event>, a: Authorization)
    requires Possible(s, START, es)
    requires FromPAR(Some(s.prefix), Run(s, START, es).st, a).1
    ensures var w := Run(s, START, es);
            var uri := Get(a.request.form, "request_uri");
            var r := FromPAR(Some(s.prefix), w.st, a).3;
            exists i :: 0 <= i < |w.log| && Fresh(w.log, i, |w.log|, uri) && Continues(r, a, w.log[i].val)
  {
    hide Possible, Run, SingleUse.Inv, Fresh, Continued, Continues;
    SingleUse.StartInv(SameClient());
    RunKeepsInv(s, START, es);
    var w := Run(s, START, es);
    var uri := Get(a.request.form, "request_uri");
    ContinuedContinues(a, w.st.par[uri]);
    StoredIsFresh(w.st.par, w.used, w.log, SameClient(), uri);
  }

  /** `r` is request `a` completed from the pushed one. */
  ghost predicate Continues(r: Authorization, a: Authorization, pushed: Authorization) {
    && r.redirectURI == pushed.redirectURI && r.responseTypes == pushed.responseTypes
    && r.state == pushed.state && r.responseMode == pushed.responseMode
    && r.request.id == pushed.request.id && r.request.client == pushed.request.client
    && r.request.session == pushed.request.session && r.request.requestedAt == pushed.request.requestedAt
    && (forall k :: Get(r.request.form, k) ==
                    if k in pushed.request.form then pushed.request.form[k] else Get(a.request.form, k))
    && (forall x :: x in r.request.requestedScope <==>
                    x in a.request.requestedScope || x in pushed.request.requestedScope)
    && (forall x :: x in r.request.requestedAudience <==>
                    x in a.request.requestedAudience || x in pushed.request.requestedAudience)
  }

  lemma ContinuedContinues(a: Authorization, pushed: Authorization)
    ensures Continues(Continued(a, pushed), a, pushed)
  {
    hide AppendAll;
    AppendAllMembers(a.request.requestedScope, pushed.request.requestedScope);
    AppendAllMembers(a.request.requestedAudience, pushed.request.requestedAudience);
  }

  // ---------------------------------------------------------------------------------------
  // Expiry

  /** The expiry that pushing set has passed. */
  predicate PastExpiry(stored: Authorization, now: Time) {
    Expired(stored.request.session, PushedContext, None, now)
  }

  /** In every run an expired request is honoured exactly like any other: if and only if it is
      presented for the first time and by the client that pushed it. Nothing but a check of the
      expiry by the caller keeps it from being used. */
  lemma ExpiredRequestsAreHonoured(s: Server, es: seq<Event>, j: nat)
    requires Possible(s, START, es)
    requires var log := Run(s, START, es).log; j < |log| && log[j].Take?
    requires var log := Run(s, START, es).log;
             exists i :: 0 <= i < j && log[i].Put? && log[i].key == log[j].key && PastExpiry(log[i].val, log[j].arg.at)
    ensures var log := Run(s, START, es).log;
            log[j].ok <==> exists i ::
                0 <= i < j && Fresh(log, i, j, log[j].key)
                && PastExpiry(log[i].val, log[j].arg.at)
                && log[i].val.request.client.id == log[j].arg.clientID
  {
    hide Possible, Run, SingleUse.Inv, SingleUse.Mirrors, SingleUse.AllDecided, PastExpiry;
    SingleUse.StartInv(SameClient());
    RunKeepsInv(s, START, es);
    HonouredExactlyOnce(s, es, j);
    PushedOnce(Run(s, START, es));
  }

  lemma PushedOnce(w: World)
    requires Inv(w)
    ensures forall i, k :: 0 <= i < k < |w.log| && w.log[i].Put? && w.log[k].Put? ==> w.log[i].key != w.log[k].key
  {
    hide SingleUse.Mirrors, SingleUse.AllDecided;
  }

  /** Such runs exist for every server, every request it lets a client push and every later instant:
      the request is pushed, its lifespan passes, and its client redeems it. */
  lemma ExpiredRequestHonoured(s: Server, ar: Authorization, key: string, now: Time, a: Authorization, later: Time)
    requires Arguments.HasSome(ar.responseTypes, PUSHABLE) && CheckPush(s, ar, true) == None
    requires s.prefix + key != "" && Get(a.request.form, "request_uri") == s.prefix + key
    requires Get(a.request.form, "client_id") == ar.request.client.id
    requires now + s.lifespan < later
    ensures var es := [Push(ar, key, true, now), Redeem(a, later)];
            && Possible(s, START, es)
            && var log := Run(s, START, es).log;
               |log| == 2 && log[1].Take? && log[1].ok && log[0].Put? && log[0].key == log[1].key
               && PastExpiry(log[0].val, log[1].arg.at)
  {
    hide CheckPush, Merged;
    var e1, e2 := Push(ar, key, true, now), Redeem(a, later);
    var es := [e1, e2];
    assert es[1..] == [e2] && es[1..][1..] == [];
    var w1 := Step(s, START, e1);
    var w2 := Step(s, w1, e2);
    assert w1.log == [Put(s.prefix + key, Expiring(s, ar, now))];
    assert Possible(s, w2, []) && Possible(s, w1, [e2]);
    assert Run(s, w1, [e2]) == w2;
  }

  // ---------------------------------------------------------------------------------------
  // Response types

  function Words(s: string): seq<string> {
    Helper.NonEmpty(Strings.Split(s, ' '))
  }

  /** A request's response types are allowed if they match one of the client's, as
      `Arguments.Matches` understands it. */
  method ValidateResponseTypes(ar: AuthorizeRequest, responseType: string, registered: seq<string>)
    returns (err: Option<Error>)
    modifies ar
    ensures err == None <==> Words(responseType) != []
                             && exists i :: 0 <= i < |registered|
                                  && Arguments.MatchesSpec(Words(responseType), Words(registered[i]))
    ensures err == None || err == Some(UnsupportedResponseType)
    ensures ar.Value() == if err == None then old(ar.Value()).(responseTypes := Words(responseType))
            else old(ar.Value())
  {
    var responseTypes := Helper.RemoveEmpty(Strings.Split(responseType, ' '));
    if |responseTypes| == 0 { return Some(UnsupportedResponseType); }
    var found := false;
    for i := 0 to |registered|
      invariant !found && forall k :: 0 <= k < i ==> !Arguments.MatchesSpec(responseTypes, Words(registered[k]))
      invariant ar.Value() == old(ar.Value())
    {
      var items := Helper.RemoveEmpty(Strings.Split(registered[i], ' '));
      found := Arguments.Matches(responseTypes, items);
      if found { break; }
    }
    if !found { return Some(UnsupportedResponseType); }
    ar.responseTypes := responseTypes;
    return None;
  }
}
