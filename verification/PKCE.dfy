/** Proof Key for Code Exchange, handler/pkce/handler.go (RFC 7636): a challenge is stored when a
    code is issued, and whoever redeems the code must present a verifier for it. The session is
    deleted before the verifier is looked at. */
module PKCE {
  import opened Prelude
  import opened Requests
  import opened Store
  import opened Transactions
  import opened Grants
  import opened SingleUse
  import Arguments

  /** `s256` is the unpadded base64url of SHA-256, `signature` that of an authorization code. */
  datatype Settings = Settings(
    enforce: bool,
    enforcePublic: bool,
    plain: bool,
    s256: string -> string,
    signature: string -> Sig)

  const CHALLENGE := "code_challenge"
  const METHOD := "code_challenge_method"

  function ValidateNoPKCE(s: Settings, client: Client): Option<Error> {
    if s.enforce || (s.enforcePublic && client.public) then Some(InvalidRequest) else None
  }

  function Validate(s: Settings, challenge: string, m: string, client: Client): Option<Error> {
    if challenge == "" then ValidateNoPKCE(s, client)
    else if m == "S256" then None
    else if m == "plain" || m == "" then (if s.plain then None else Some(InvalidRequest))
    else Some(InvalidRequest)
  }

  /** A letter, a digit, or one of "_", ".", "-" and "~". */
  predicate Unreserved(c: char) {
    'a' <= c <= 'z' || 'A' <= c <= 'Z' || '0' <= c <= '9' || c in {'_', '.', '-', '~'}
  }

  predicate WrongFormat(verifier: string) {
    exists i :: 0 <= i < |verifier| && !Unreserved(verifier[i])
  }

  /** The handler's decision once a session was found and deleted. */
  function Check(s: Settings, stored: Requester, verifier: string): Option<Error> {
    var challenge, m := Get(stored.form, CHALLENGE), Get(stored.form, METHOD);
    var invalid := Validate(s, challenge, m, stored.client);
    if invalid.Some? then invalid
    else if !s.enforce && challenge == "" && verifier == "" then None
    else if |verifier| < 43 || |verifier| > 128 || WrongFormat(verifier) || challenge == "" then Some(InvalidGrant)
    else if m == "S256" then (if s.s256(verifier) == challenge then None else Some(InvalidGrant))
    else if verifier == challenge then None
    else Some(InvalidGrant)
  }

  /** What redeeming code `sig` with a verifier does. */
  function Attempt(s: Settings, st: State, sig: Sig, verifier: string, client: Client): (State, Option<Error>) {
    if sig !in st.pkce then (st, if verifier == "" then ValidateNoPKCE(s, client) else Some(InvalidGrant))
    else (DeletePKCE(st, sig), Check(s, st.pkce[sig], verifier))
  }

  /** The same when the lookup or the deletion fails. */
  function AttemptUnder(s: Settings, st: State, sig: Sig, verifier: string, client: Client, plan: Plan)
    : (State, Option<Error>, Plan)
  {
    if Head(plan) == Some(NotFound) then
      (st, if verifier == "" then ValidateNoPKCE(s, client) else Some(InvalidGrant), Rest(plan))
    else if Head(plan).Some? then (st, Some(ServerError), Rest(plan))
    else if sig !in st.pkce
        then (Attempt(s, st, sig, verifier, client).0, Attempt(s, st, sig, verifier, client).1, Rest(plan))
    else if Head(Rest(plan)).Some? then (st, Some(ServerError), Rest(Rest(plan)))
    else (Attempt(s, st, sig, verifier, client).0, Attempt(s, st, sig, verifier, client).1, Rest(Rest(plan)))
  }

  function StoredRequest(ar: Requester): Requester {
    Sanitized(ar, {CHALLENGE, METHOD})
  }

  /** What issuing a code does, when the code handler that runs before has generated one. */
  ghost function Begin(s: Settings, st: State, ar: Requester, responseTypes: seq<string>, code: string)
    : (State, Option<Error>)
  {
    if !Arguments.HasAll(responseTypes, ["code"]) then (st, None)
    else
      var challenge, m := Get(ar.form, CHALLENGE), Get(ar.form, METHOD);
      var invalid := Validate(s, challenge, m, ar.client);
      if invalid.Some? then (st, invalid)
      else if challenge == "" && m == "" then (st, None)
      else if code == "" then (st, Some(ServerError))
      else (CreatePKCE(st, s.signature(code), StoredRequest(ar)), None)
  }

  method HandleAuthorizeEndpointRequest(s: Settings, store: Storage, ar: Request, responseTypes: seq<string>,
                                        code: string)
    returns (err: Option<Error>)
    modifies store`faults, store.mem
    ensures NoFaults(old(store.faults)) ==>
              NoFaults(store.faults) && (store.mem.Model(), err)
                  == Begin(s, old(store.mem.Model()), ar.Value(), responseTypes, code)
    ensures err.Some? ==> store.mem.Model() == old(store.mem.Model())
  {
    var isCode := Arguments.Has(responseTypes, ["code"]);
    if !isCode { return None; }
    var challenge := Get(ar.form, CHALLENGE);
    var m := Get(ar.form, METHOD);
    err := Validate(s, challenge, m, ar.client);
    if err.Some? { return; }
    if challenge == "" && m == "" { return None; }
    if |code| == 0 { return Some(ServerError); }
    var signature := s.signature(code);
    var sanitized := ar.Sanitize({CHALLENGE, METHOD});
    var failed := store.CreatePKCERequestSession(signature, sanitized);
    if failed.Some? { return Some(ServerError); }
    return None;
  }

  method CanHandleTokenEndpointRequest(grantTypes: seq<string>) returns (r: bool)
    ensures r <==> grantTypes == [CODE_GRANT]
  {
    return |grantTypes| == 1 && grantTypes[0] == CODE_GRANT;
  }

  method HandleTokenEndpointRequest(s: Settings, store: Storage, request: Request, grantTypes: seq<string>)
    returns (err: Option<Error>)
    modifies store`faults, store.mem
    ensures grantTypes != [CODE_GRANT] ==>
              err == Some(UnknownRequest) && store.mem.Model() == old(store.mem.Model())
                  && store.faults == old(store.faults)
    ensures grantTypes == [CODE_GRANT] ==>
              (store.mem.Model(), err, store.faults)
              == AttemptUnder(s, old(store.mem.Model()), s.signature(Get(request.form, "code")),
                              Get(request.form, "code_verifier"), request.client, old(store.faults))
    ensures err == None && Head(old(store.faults)) == None ==>
              s.signature(Get(request.form, "code")) !in store.mem.Model().pkce
  {
    var can := CanHandleTokenEndpointRequest(grantTypes);
    if !can { return Some(UnknownRequest); }
    var verifier := Get(request.form, "code_verifier");
    var code := Get(request.form, "code");
    var signature := s.signature(code);
    var pkceRequest, getErr := store.GetPKCERequestSession(signature);
    var nv := |verifier|;
    if getErr == Some(NotFound) {
      if nv == 0 {
        return ValidateNoPKCE(s, request.client);
      }
      return Some(InvalidGrant);
    } else if getErr.Some? {
      return Some(ServerError);
    }
    var failed := store.DeletePKCERequestSession(signature);
    if failed.Some? { return Some(ServerError); }
    var challenge := Get(pkceRequest.value.form, CHALLENGE);
    var m := Get(pkceRequest.value.form, METHOD);
    var invalid := Validate(s, challenge, m, pkceRequest.value.client);
    if invalid.Some? { return invalid; }
    var nc := |challenge|;
    if !s.enforce && nc == 0 && nv == 0 { return None; }
    if nv < 43 {
      return Some(InvalidGrant);
    } else if nv > 128 {
      return Some(InvalidGrant);
    } else if WrongFormat(verifier) {
      return Some(InvalidGrant);
    } else if nc == 0 {
      return Some(InvalidGrant);
    }
    if m == "S256" {
      if s.s256(verifier) != challenge { return Some(InvalidGrant); }
    } else {
      if verifier != challenge { return Some(InvalidGrant); }
    }
    return None;
  }

  // ---------------------------------------------------------------------------------------
  // What RFC 7636 asks of a verifier (sections 4.1 and 4.6)

  predicate WellFormed(verifier: string) {
    43 <= |verifier| <= 128 && forall i :: 0 <= i < |verifier| ==> Unreserved(verifier[i])
  }

  predicate Verifies(s: Settings, challenge: string, m: string, verifier: string) {
    && WellFormed(verifier)
    && ((m == "S256" && s.s256(verifier) == challenge && challenge != "") ||
        ((m == "plain" || m == "") && s.plain && verifier == challenge))
  }

  /** With enforcement a stored challenge is met by exactly the verifiers of the standard. */
  lemma EnforcedCheckIsExact(s: Settings, stored: Requester, verifier: string)
    requires s.enforce
    ensures Check(s, stored, verifier) == None <==>
            Verifies(s, Get(stored.form, CHALLENGE), Get(stored.form, METHOD), verifier)
  {
  }

  /** The client may do without a challenge. */
  predicate NeedsNone(s: Settings, client: Client) {
    !s.enforce && !(s.enforcePublic && client.public)
  }

  /** For every configuration: a stored challenge is met by exactly the verifiers of the standard, and a
      session without one passes if and only if there is no verifier either and the client may do
      without. */
  lemma CheckIsExact(s: Settings, stored: Requester, verifier: string)
    ensures var (challenge, m) := (Get(stored.form, CHALLENGE), Get(stored.form, METHOD));
            Check(s, stored, verifier) == None <==>
              if challenge != "" then Verifies(s, challenge, m, verifier)
              else verifier == "" && NeedsNone(s, stored.client)
  {
  }

  /** A failing lookup or deletion lets nobody pass, with one exception: a store that claims not to find
      the session lets a request without a verifier pass whose client may do without. */
  lemma AttemptUnderIsExact(s: Settings, st: State, sig: Sig, verifier: string, client: Client, plan: Plan)
    ensures var (st', err, _) := AttemptUnder(s, st, sig, verifier, client, plan);
            var nothing := verifier == "" && NeedsNone(s, client);
            && (Head(plan) == Some(NotFound) || (Head(plan) == None && sig !in st.pkce) ==>
                  (err == None <==> nothing) && st' == st)
            && (Head(plan).Some? && Head(plan) != Some(NotFound) ==> err == Some(ServerError) && st' == st)
            && (Head(plan) == None && sig in st.pkce && Head(Rest(plan)).Some? ==>
                  err == Some(ServerError) && st' == st)
            && (Head(plan) == None && sig in st.pkce && Head(Rest(plan)) == None ==>
                  st' == DeletePKCE(st, sig)
                  && (err == None <==>
                      var (challenge, m) := (Get(st.pkce[sig].form, CHALLENGE), Get(st.pkce[sig].form, METHOD));
                      if challenge != "" then Verifies(s, challenge, m, verifier)
                      else verifier == "" && NeedsNone(s, st.pkce[sig].client)))
  {
    hide Check, Verifies;
    if sig in st.pkce {
      CheckIsExact(s, st.pkce[sig], verifier);
    }
  }

  /** The authorization request of a code sent something the code is to be held to. */
  predicate Sends(ar: Requester) {
    Get(ar.form, CHALLENGE) != "" || Get(ar.form, METHOD) != ""
  }

  /** For every configuration: which authorizations of a code are let through, and that a session is
      stored exactly for those of them that send a challenge or a method. */
  lemma AuthorizationIsExact(s: Settings, st: State, ar: Requester, responseTypes: seq<string>, code: string)
    requires Arguments.HasAll(responseTypes, ["code"])
    ensures var (challenge, m) := (Get(ar.form, CHALLENGE), Get(ar.form, METHOD));
            var (st', err) := Begin(s, st, ar, responseTypes, code);
            && (err == None <==>
                  && (if challenge == "" then NeedsNone(s, ar.client)
                      else m == "S256" || ((m == "plain" || m == "") && s.plain))
                  && (Sends(ar) ==> code != ""))
            && st' == if err == None && Sends(ar) then st.(pkce := st.pkce[s.signature(code) := StoredRequest(ar)])
                      else st
  {
    hide StoredRequest;
  }

  // ---------------------------------------------------------------------------------------
  // Whole runs

  /** The log records what is stored and who tries which verifier; `asked` is the authorization
      request each code was issued for, `tried` the issued codes somebody has tried to redeem. */
  datatype World = World(st: State, used: set<Sig>, log: seq<Entry<Requester, string>>, asked: map<Sig, Requester>,
                         tried: set<Sig>)

  /** `Elsewhere` is whatever other endpoints and handlers do to the store. */
  datatype Event =
    | Issue(ar: Requester, responseTypes: seq<string>, code: string)
    | Redeem(rq: Requester)
    | Elsewhere(st: State)

  const START := World(EMPTY, {}, [], map[], {})

  ghost predicate Enabled(s: Settings, w: World, e: Event) {
    match e
    case Issue(_, _, code) => s.signature(code) !in w.used
    case Redeem(_) => true
    case Elsewhere(st) => st.pkce == w.st.pkce
  }

  ghost function Step(s: Settings, w: World, e: Event): World {
    match e
    case Issue(ar, responseTypes, code) =>
      var sig := s.signature(code);
      var (st, err) := Begin(s, w.st, ar, responseTypes, code);
      var issued := Arguments.HasAll(responseTypes, ["code"]) && err == None;
      World(st, w.used + {sig}, if st == w.st then w.log else w.log + [Put(sig, StoredRequest(ar))],
            if issued then w.asked[sig := ar] else w.asked, w.tried)
    case Redeem(rq) =>
      var sig, verifier := s.signature(Get(rq.form, "code")), Get(rq.form, "code_verifier");
      var (st, err) := Attempt(s, w.st, sig, verifier, rq.client);
      w.(st := st, log := w.log + [Take(sig, verifier, err == None)],
         tried := if sig in w.asked then w.tried + {sig} else w.tried)
    case Elsewhere(st) => w.(st := st)
  }

  ghost predicate Possible(s: Settings, w: World, es: seq<Event>)
    decreases |es|
  {
    es == [] || (Enabled(s, w, es[0]) && Possible(s, Step(s, w, es[0]), es[1..]))
  }

  ghost function Run(s: Settings, w: World, es: seq<Event>): World
    requires Possible(s, w, es)
    decreases |es|
  {
    if es == [] then w else Run(s, Step(s, w, es[0]), es[1..])
  }

  /** The verifiers a stored challenge accepts. */
  function Accepts(s: Settings): (Requester, string) -> bool {
    (stored: Requester, verifier: string) => Verifies(s, Get(stored.form, CHALLENGE), Get(stored.form, METHOD),
                                                      verifier)
  }

  /** What is stored for a code comes from its authorization request. */
  ghost predicate FromAsked(log: seq<Entry<Requester, string>>, asked: map<Sig, Requester>) {
    forall i :: 0 <= i < |log| && log[i].Put? ==> log[i].key in asked && log[i].val == StoredRequest(asked[log[i].key])
  }

  ghost predicate Inv(s: Settings, w: World) {
    SingleUse.Inv(w.st.pkce, w.used, w.log, Accepts(s)) && FromAsked(w.log, w.asked) && w.asked.Keys <= w.used
  }

  lemma IssueKeepsAsked(log: seq<Entry<Requester, string>>, asked: map<Sig, Requester>, used: set<Sig>, sig: Sig,
                        ar: Requester)
    requires FromAsked(log, asked) && asked.Keys <= used && sig !in used
    ensures FromAsked(log, asked[sig := ar]) && FromAsked(log + [Put(sig, StoredRequest(ar))], asked[sig := ar])
  {
    hide StoredRequest;
  }

  lemma StepKeepsInv(s: Settings, w: World, e: Event)
    requires s.enforce && Inv(s, w) && Enabled(s, w, e)
    ensures Inv(s, Step(s, w, e))
  {
    hide SingleUse.Inv, Verifies, Check, Validate, StoredRequest;
    match e
    case Issue(ar, responseTypes, code) =>
      var sig := s.signature(code);
      IssueKeepsAsked(w.log, w.asked, w.used, sig, ar);
      PutKeepsInv(w.st.pkce, w.used, w.log, Accepts(s), sig, StoredRequest(ar));
      MoreUsed(w.st.pkce, w.used, w.used + {sig}, w.log, Accepts(s));
    case Redeem(rq) =>
      var sig, verifier := s.signature(Get(rq.form, "code")), Get(rq.form, "code_verifier");
      TakeKeepsInv(w.st.pkce, w.used, w.log, Accepts(s), sig, verifier);
      if sig in w.st.pkce {
        EnforcedCheckIsExact(s, w.st.pkce[sig], verifier);
      } else {
        assert w.st.pkce - {sig} == w.st.pkce;
      }
    case Elsewhere(st) =>
  }

  lemma {:induction false} RunKeepsInv(s: Settings, w: World, es: seq<Event>)
    requires s.enforce && Inv(s, w) && Possible(s, w, es)
    ensures Inv(s, Run(s, w, es))
    decreases |es|
  {
    hide Inv, Step, Enabled;
    if es != [] {
      StepKeepsInv(s, w, es[0]);
      RunKeepsInv(s, Step(s, w, es[0]), es[1..]);
    }
  }

  /** What is stored for a code is the challenge its authorization request sent. */
  lemma StoredChallenge(ar: Requester)
    ensures Get(StoredRequest(ar).form, CHALLENGE) == Get(ar.form, CHALLENGE)
    ensures Get(StoredRequest(ar).form, METHOD) == Get(ar.form, METHOD)
    ensures StoredRequest(ar).client == ar.client
  {
  }

  /** With enforcement, in every run, an attempt to redeem a code passes if and only if a challenge
      was stored when the code was issued, nobody has tried the code since, and the verifier is one
      the standard accepts for the challenge that the authorization request of that code sent. */
  lemma PassesExactlyOnFirstCorrectAttempt(s: Settings, es: seq<Event>, j: nat)
    requires s.enforce && Possible(s, START, es)
    requires var log := Run(s, START, es).log; j < |log| && log[j].Take?
    ensures var w := Run(s, START, es);
            var code := w.log[j].key;
            w.log[j].ok <==>
              && (exists i :: 0 <= i < j && Fresh(w.log, i, j, code))
              && code in w.asked
              && Verifies(s, Get(w.asked[code].form, CHALLENGE), Get(w.asked[code].form, METHOD), w.log[j].arg)
  {
    hide Possible, Run, Verifies, SingleUse.Inv, StoredRequest;
    SingleUse.StartInv(Accepts(s));
    RunKeepsInv(s, START, es);
    var w := Run(s, START, es);
    var code := w.log[j].key;
    AcceptedExactlyWhenFirst(w.st.pkce, w.used, w.log, Accepts(s), j);
    if code in w.asked {
      StoredChallenge(w.asked[code]);
    }
  }

  /** A code passes at most once, and a failed attempt makes it unredeemable: no attempt passes
      after an attempt on the same code that had been issued. */
  lemma NoPassAfterAnAttempt(s: Settings, es: seq<Event>, issued: nat, i: nat, j: nat)
    requires s.enforce && Possible(s, START, es)
    requires var log := Run(s, START, es).log;
             && issued < i < j < |log|
             && log[issued].Put? && log[i].Take? && log[j].Take?
             && log[issued].key == log[i].key == log[j].key
    ensures !Run(s, START, es).log[j].ok
  {
    hide Possible, Run, SingleUse.Inv;
    SingleUse.StartInv(Accepts(s));
    RunKeepsInv(s, START, es);
    var w := Run(s, START, es);
    NoneAcceptedAfterAny(w.st.pkce, w.used, w.log, Accepts(s), issued, i, j);
  }

  /** Both results need enforcement, and exactly so: whatever becomes of one attempt, the session is
      gone, and a second attempt with no verifier passes if and only if the client may do without
      one. */
  lemma UnenforcedAttemptOpensCode(s: Settings, st: State, sig: Sig, verifier: string, client: Client)
    requires sig in st.pkce
    ensures var st1 := Attempt(s, st, sig, verifier, client).0;
            Attempt(s, st1, sig, "", client).1 == None <==> !s.enforce && !(s.enforcePublic && client.public)
  {
  }

  // ---------------------------------------------------------------------------------------
  // All configurations

  /** A session is stored for exactly the issued codes whose authorization sent one and that nobody has
      tried. */
  ghost predicate SessionsKnown(w: World) {
    && w.asked.Keys <= w.used
    && (forall sig :: sig in w.st.pkce <==> sig in w.asked && sig !in w.tried && Sends(w.asked[sig]))
    && (forall sig :: sig in w.st.pkce && sig in w.asked ==> w.st.pkce[sig] == StoredRequest(w.asked[sig]))
  }

  lemma IssueKeepsSessions(s: Settings, w: World, ar: Requester, responseTypes: seq<string>, code: string)
    requires SessionsKnown(w) && w.tried <= w.used && s.signature(code) !in w.used
    ensures SessionsKnown(Step(s, w, Issue(ar, responseTypes, code)))
  {
    hide StoredRequest, Validate, Sends, Arguments.HasAll;
    if Arguments.HasAll(responseTypes, ["code"]) {
      AuthorizationIsExact(s, w.st, ar, responseTypes, code);
      hide Begin;
    }
  }

  lemma RedeemKeepsSessions(s: Settings, w: World, rq: Requester)
    requires SessionsKnown(w)
    ensures SessionsKnown(Step(s, w, Redeem(rq)))
  {
    hide StoredRequest, Check, Sends;
  }

  lemma StepKeepsSessions(s: Settings, w: World, e: Event)
    requires SessionsKnown(w) && w.tried <= w.used && Enabled(s, w, e)
    ensures SessionsKnown(Step(s, w, e)) && Step(s, w, e).tried <= Step(s, w, e).used
  {
    hide StoredRequest, Begin, Attempt, Sends, Arguments.HasAll;
    match e
    case Issue(ar, responseTypes, code) => IssueKeepsSessions(s, w, ar, responseTypes, code);
    case Redeem(rq) => RedeemKeepsSessions(s, w, rq);
    case Elsewhere(st) =>
  }

  lemma {:induction false} RunKeepsSessions(s: Settings, w: World, es: seq<Event>)
    requires SessionsKnown(w) && w.tried <= w.used && Possible(s, w, es)
    ensures SessionsKnown(Run(s, w, es))
    decreases |es|
  {
    hide SessionsKnown, Step, Enabled;
    if es != [] {
      StepKeepsSessions(s, w, es[0]);
      RunKeepsSessions(s, Step(s, w, es[0]), es[1..]);
    }
  }

  /** For every configuration, in every run: the first attempt on a code whose authorization sent a
      challenge passes if and only if its verifier is one the standard accepts for that challenge, and
      if it sent a method without a challenge, if and only if there is no verifier and the client of
      the authorization may do without. Any other attempt, in particular every later one, passes if and
      only if there is no verifier and the client that makes it may do without. */
  lemma AttemptInEveryRun(s: Settings, es: seq<Event>, code: Sig, verifier: string, client: Client)
    requires Possible(s, START, es)
    ensures var w := Run(s, START, es);
            var first := code in w.asked && code !in w.tried && Sends(w.asked[code]);
            Attempt(s, w.st, code, verifier, client).1 == None <==>
              if first then
                var (challenge, m) := (Get(w.asked[code].form, CHALLENGE), Get(w.asked[code].form, METHOD));
                if challenge != "" then Verifies(s, challenge, m, verifier)
                else verifier == "" && NeedsNone(s, w.asked[code].client)
              else verifier == "" && NeedsNone(s, client)
  {
    hide Possible, Run, Verifies, StoredRequest, Check, Step;
    RunKeepsSessions(s, START, es);
    var w := Run(s, START, es);
    if code in w.st.pkce {
      CheckIsExact(s, w.st.pkce[code], verifier);
      StoredChallenge(w.asked[code]);
    }
  }
}
