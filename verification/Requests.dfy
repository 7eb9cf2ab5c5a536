/** The request object of request.go: scope and audience lists that never repeat an entry,
    merging one request into another, and the sanitised copy that is handed to the store. */
module Requests {
  import opened Prelude

  /** What a stored or merged request holds; `Request` below is the mutable object. */
  datatype Requester = Requester(
    id: ID,
    requestedAt: Time,
    client: Client,
    requestedScope: seq<string>,
    grantedScope: seq<string>,
    form: map<string, string>,
    session: Session,
    requestedAudience: seq<string>,
    grantedAudience: seq<string>)

  /** An authorization request, as it is stored when it was pushed. */
  datatype Authorization = Authorization(
    request: Requester,
    redirectURI: Option<string>,
    responseTypes: seq<string>,
    state: string,
    responseMode: string)

  /** The first value of a form field, empty when the field is missing. */
  function Get(form: map<string, string>, key: string): string {
    if key in form then form[key] else ""
  }

  function AppendUnique(xs: seq<string>, x: string): seq<string> {
    if x in xs then xs else xs + [x]
  }

  function AppendAll(xs: seq<string>, ys: seq<string>): seq<string> {
    if ys == [] then xs else AppendUnique(AppendAll(xs, ys[..|ys| - 1]), ys[|ys| - 1])
  }

  function Dedup(ys: seq<string>): seq<string> {
    AppendAll([], ys)
  }

  /** Appending keeps what was there as a prefix, adds exactly the new members, and
      introduces no repetition. */
  lemma {:induction false} AppendAllMembers(xs: seq<string>, ys: seq<string>)
    ensures xs <= AppendAll(xs, ys)
    ensures forall x :: x in AppendAll(xs, ys) <==> x in xs || x in ys
    ensures NoRepeats(xs) ==> NoRepeats(AppendAll(xs, ys))
  {
    if ys != [] {
      AppendAllMembers(xs, ys[..|ys| - 1]);
      assert ys == ys[..|ys| - 1] + [ys[|ys| - 1]];
    }
  }

  /** A list without repetitions, none of whose members is present yet, is appended whole. */
  lemma {:induction false} AppendAllFresh(xs: seq<string>, ys: seq<string>)
    requires NoRepeats(ys)
    requires forall y :: y in ys ==> y !in xs
    ensures AppendAll(xs, ys) == xs + ys
  {
    if ys != [] {
      var front := ys[..|ys| - 1];
      AppendAllFresh(xs, front);
      assert ys == front + [ys[|ys| - 1]];
      assert ys[|ys| - 1] !in front;
    }
  }

  /** Appending members that are already there changes nothing. */
  lemma {:induction false} AppendAllAbsorbs(xs: seq<string>, ys: seq<string>)
    requires forall y :: y in ys ==> y in xs
    ensures AppendAll(xs, ys) == xs
  {
    if ys != [] {
      AppendAllAbsorbs(xs, ys[..|ys| - 1]);
    }
  }

  /** Granting a granted list again to an empty request reproduces it exactly: this is what
      carries scopes and audience unchanged along a chain of refreshes. */
  lemma DedupIdempotent(ys: seq<string>)
    ensures NoRepeats(Dedup(ys))
    ensures Dedup(Dedup(ys)) == Dedup(ys)
    ensures NoRepeats(ys) <==> Dedup(ys) == ys
    ensures forall x :: x in Dedup(ys) <==> x in ys
  {
    AppendAllMembers([], ys);
    AppendAllFresh([], Dedup(ys));
    if NoRepeats(ys) {
      AppendAllFresh([], ys);
    }
  }

  /** What `Merge` makes of a request. */
  function Merged(a: Requester, b: Requester): Requester {
    Requester(
      b.id,
      b.requestedAt,
      b.client,
      AppendAll(a.requestedScope, b.requestedScope),
      AppendAll(a.grantedScope, b.grantedScope),
      a.form + b.form,
      b.session,
      AppendAll(a.requestedAudience, b.requestedAudience),
      AppendAll(a.grantedAudience, b.grantedAudience))
  }

  /** Merging the same request twice is merging it once. */
  lemma MergeIdempotent(a: Requester, b: Requester)
    ensures Merged(Merged(a, b), b) == Merged(a, b)
  {
    AppendAllMembers(a.requestedScope, b.requestedScope);
    AppendAllMembers(a.grantedScope, b.grantedScope);
    AppendAllMembers(a.requestedAudience, b.requestedAudience);
    AppendAllMembers(a.grantedAudience, b.grantedAudience);
    AppendAllAbsorbs(AppendAll(a.requestedScope, b.requestedScope), b.requestedScope);
    AppendAllAbsorbs(AppendAll(a.grantedScope, b.grantedScope), b.grantedScope);
    AppendAllAbsorbs(AppendAll(a.requestedAudience, b.requestedAudience), b.requestedAudience);
    AppendAllAbsorbs(AppendAll(a.grantedAudience, b.grantedAudience), b.grantedAudience);
  }

  const DEFAULT_ALLOWED: set<string> := {"grant_type", "response_type", "scope", "client_id"}

  /** What `Sanitize` hands out: the same request with only the allowed form fields. */
  function Sanitized(a: Requester, allowed: set<string>): Requester {
    a.(form := map k | k in a.form && k in allowed + DEFAULT_ALLOWED :: a.form[k])
  }

  /** No sanitised copy made without extra fields can leak a code, token or password. */
  lemma SanitizedKeepsNoCredentials(a: Requester, key: string)
    requires key in {"code", "refresh_token", "device_code", "password", "code_verifier"}
    ensures Get(Sanitized(a, {}).form, key) == ""
    ensures Sanitized(Sanitized(a, {}), {}) == Sanitized(a, {})
    ensures forall k :: k in {"grant_type", "response_type", "scope", "client_id"} ==>
              Get(Sanitized(a, {}).form, k) == Get(a.form, k)
    ensures Sanitized(a, {}) == a.(form := Sanitized(a, {}).form)
  {
    assert key !in DEFAULT_ALLOWED by {
      assert |"code"| == 4 && |"scope"| == 5 && |"client_id"| == 9 && |"grant_type"| == 10;
      assert |"refresh_token"| == 13 && |"code_verifier"| == 13 && |"response_type"| == 13;
      assert "refresh_token"[2] != "response_type"[2];
      assert "code_verifier"[0] != "response_type"[0];
      assert |"device_code"| == 11 && |"password"| == 8;
    }
  }

  class Request {
    var id: ID
    var requestedAt: Time
    var client: Client
    var requestedScope: seq<string>
    var grantedScope: seq<string>
    var form: map<string, string>
    var session: Session
    var requestedAudience: seq<string>
    var grantedAudience: seq<string>

    function Value(): Requester
      reads this
    {
      Requester(id, requestedAt, client, requestedScope, grantedScope, form, session,
                requestedAudience, grantedAudience)
    }

    constructor (id: ID, requestedAt: Time, client: Client, form: map<string, string>, session: Session)
      ensures Value() == Requester(id, requestedAt, client, [], [], form, session, [], [])
    {
      this.id, this.requestedAt, this.client := id, requestedAt, client;
      this.form, this.session := form, session;
      requestedScope, grantedScope, requestedAudience, grantedAudience := [], [], [], [];
    }

    method AppendRequestedScope(scope: string)
      modifies this
      ensures Value() == old(Value()).(requestedScope := AppendUnique(old(requestedScope), scope))
    {
      for i := 0 to |requestedScope|
        invariant scope !in requestedScope[..i]
        invariant Value() == old(Value())
      {
        if scope == requestedScope[i] { return; }
      }
      requestedScope := requestedScope + [scope];
    }

    method AppendRequestedAudience(audience: string)
      modifies this
      ensures Value() == old(Value()).(requestedAudience := AppendUnique(old(requestedAudience), audience))
    {
      for i := 0 to |requestedAudience|
        invariant audience !in requestedAudience[..i]
        invariant Value() == old(Value())
      {
        if audience == requestedAudience[i] { return; }
      }
      requestedAudience := requestedAudience + [audience];
    }

    method GrantScope(scope: string)
      modifies this
      ensures Value() == old(Value()).(grantedScope := AppendUnique(old(grantedScope), scope))
    {
      for i := 0 to |grantedScope|
        invariant scope !in grantedScope[..i]
        invariant Value() == old(Value())
      {
        if scope == grantedScope[i] { return; }
      }
      grantedScope := grantedScope + [scope];
    }

    method GrantAudience(audience: string)
      modifies this
      ensures Value() == old(Value()).(grantedAudience := AppendUnique(old(grantedAudience), audience))
    {
      for i := 0 to |grantedAudience|
        invariant audience !in grantedAudience[..i]
        invariant Value() == old(Value())
      {
        if audience == grantedAudience[i] { return; }
      }
      grantedAudience := grantedAudience + [audience];
    }

    method SetRequestedScopes(scopes: seq<string>)
      modifies this
      ensures Value() == old(Value()).(requestedScope := Dedup(scopes))
    {
      requestedScope := [];
      for i := 0 to |scopes|
        invariant Value() == old(Value()).(requestedScope := Dedup(scopes[..i]))
      {
        AppendRequestedScope(scopes[i]);
        assert scopes[..i + 1][..i] == scopes[..i];
      }
      assert scopes[..|scopes|] == scopes;
    }

    method SetRequestedAudience(audience: seq<string>)
      modifies this
      ensures Value() == old(Value()).(requestedAudience := Dedup(audience))
    {
      requestedAudience := [];
      for i := 0 to |audience|
        invariant Value() == old(Value()).(requestedAudience := Dedup(audience[..i]))
      {
        AppendRequestedAudience(audience[i]);
        assert audience[..i + 1][..i] == audience[..i];
      }
      assert audience[..|audience|] == audience;
    }

    method GrantScopes(scopes: seq<string>)
      modifies this
      ensures Value() == old(Value()).(grantedScope := AppendAll(old(grantedScope), scopes))
    {
      for i := 0 to |scopes|
        invariant Value() == old(Value()).(grantedScope := AppendAll(old(grantedScope), scopes[..i]))
      {
        GrantScope(scopes[i]);
        assert scopes[..i + 1][..i] == scopes[..i];
      }
      assert scopes[..|scopes|] == scopes;
    }

    method GrantAudiences(audience: seq<string>)
      modifies this
      ensures Value() == old(Value()).(grantedAudience := AppendAll(old(grantedAudience), audience))
    {
      for i := 0 to |audience|
        invariant Value() == old(Value()).(grantedAudience := AppendAll(old(grantedAudience), audience[..i]))
      {
        GrantAudience(audience[i]);
        assert audience[..i + 1][..i] == audience[..i];
      }
      assert audience[..|audience|] == audience;
    }

    method Merge(request: Requester)
      modifies this
      ensures Value() == Merged(old(Value()), request)
    {
      for i := 0 to |request.requestedScope|
        invariant Value() == old(Value()).(requestedScope :=
                  AppendAll(old(requestedScope), request.requestedScope[..i]))
      {
        AppendRequestedScope(request.requestedScope[i]);
        assert request.requestedScope[..i + 1][..i] == request.requestedScope[..i];
      }
      assert request.requestedScope[..|request.requestedScope|] == request.requestedScope;
      GrantScopes(request.grantedScope);
      label afterScopes:
      for i := 0 to |request.requestedAudience|
        invariant Value() == old@afterScopes(Value()).(requestedAudience :=
                               AppendAll(old(requestedAudience), request.requestedAudience[..i]))
      {
        AppendRequestedAudience(request.requestedAudience[i]);
        assert request.requestedAudience[..i + 1][..i] == request.requestedAudience[..i];
      }
      assert request.requestedAudience[..|request.requestedAudience|] == request.requestedAudience;
      GrantAudiences(request.grantedAudience);
      id := request.id;
      requestedAt := request.requestedAt;
      client := request.client;
      session := request.session;
      form := form + request.form;
    }

    /** Sanitising copies; the object itself is not changed. */
    method Sanitize(allowed: set<string>) returns (r: Requester)
      ensures r == Sanitized(Value(), allowed)
    {
      var kept := map k | k in form && k in allowed + DEFAULT_ALLOWED :: form[k];
      r := Requester(id, requestedAt, client, requestedScope, grantedScope, kept, session,
                     requestedAudience, grantedAudience);
    }
  }
}
