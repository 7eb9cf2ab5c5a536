/** Runs from the empty store that reach the situations other results speak of. */
module Witnesses {
  import opened Prelude
  import opened Requests
  import opened Store
  import opened Grants
  import opened Protocol
  import opened History
  import CodeFlow
  import PasswordFlow
  import RefreshFlow

  /** A configuration that refuses nothing: a token is its own signature, lifespans are an hour. */
  const LENIENT: Config := Config(
    [],
    (allowed, scope) => true,
    (allowed, asked) => None,
    (client, grant, t) => 3600 * SECOND,
    3600 * SECOND,
    3600 * SECOND,
    3600 * SECOND,
    code => false,
    (username, password) => (username, None),
    token => token,
    (t, token) => None)

  const CLIENT := Client("client", false, [PASSWORD_GRANT, CODE_GRANT, REFRESH_GRANT], [], [])

  function Asking(id: ID, form: map<string, string>): Requester {
    Requester(id, 0, CLIENT, [], [], form, Session("user", map[]), [], [])
  }

  lemma LenientGrants()
    ensures HasGrant(CLIENT, PASSWORD_GRANT) && HasGrant(CLIENT, CODE_GRANT) && HasGrant(CLIENT, REFRESH_GRANT)
  {
    assert CLIENT.grantTypes[0] == PASSWORD_GRANT && CLIENT.grantTypes[1] == CODE_GRANT
        && CLIENT.grantTypes[2] == REFRESH_GRANT;
  }

  const PASSWORD_REQUEST := Asking("family", map["username" := "user", "password" := "secret"])
  const AT := Generated("at", "at")
  const RT := Generated("rt", "rt")
  const REFRESH_REQUEST := Asking("other", map["refresh_token" := "rt"])

  lemma PasswordAccepted()
    ensures PasswordFlow.Handle(LENIENT, PASSWORD_REQUEST, 0).0 == None
    ensures var rq := PasswordRequest(LENIENT, PASSWORD_REQUEST, [], [], 0);
            && rq.id == "family" && rq.client == CLIENT && rq.grantedScope == []
            && RefreshToken in rq.session.expiresAt && rq.session.expiresAt[RefreshToken] == 3600 * SECOND
  {
    hide HasGrant;
    LenientGrants();
    assert "username" != "password" by { assert |"username"| == 8 && "username"[0] != "password"[0]; }
    assert Get(PASSWORD_REQUEST.form, "username") == "user" && Get(PASSWORD_REQUEST.form, "password") == "secret";
    assert PasswordFlow.CheckPassword(LENIENT, PASSWORD_REQUEST) == None;
  }

  lemma PasswordGrantServed()
    ensures var e := Password(PASSWORD_REQUEST, [], [], AT, RT, 0, false);
            && Enabled(LENIENT, START, e)
            && var w := Step(LENIENT, START, e);
               && "rt" in w.st.refresh && w.st.refresh["rt"].active && w.pending == map[]
               && w.st.refresh["rt"].req.client == CLIENT && w.st.refresh["rt"].req.grantedScope == []
               && RefreshToken in w.st.refresh["rt"].req.session.expiresAt
               && w.st.refresh["rt"].req.session.expiresAt[RefreshToken] == 3600 * SECOND
  {
    hide HasGrant, PasswordFlow.Handle, PasswordRequest, FirstGrant, AddFamily, MakeResponse, WithExpiries;
    PasswordAccepted();
    assert AT.sig != RT.sig by { assert "at"[0] != "rt"[0]; }
    assert RefreshAllowed(LENIENT, []);
  }

  /** A password grant issues a refresh token, and a refresh that presents it is let in. */
  lemma ARefreshIsLetIn()
    ensures var es := [Password(PASSWORD_REQUEST, [], [], AT, RT, 0, false)];
            && Possible(LENIENT, START, es)
            && var w := Run(LENIENT, START, es);
               RefreshFlow.Handle(LENIENT, w.st, REFRESH_REQUEST, 1).1 == None
  {
    PasswordGrantServed();
    LenientGrants();
    var e := Password(PASSWORD_REQUEST, [], [], AT, RT, 0, false);
    var w := Step(LENIENT, START, e);
    hide Step, HasGrant;
    assert [e][1..] == [];
    assert Possible(LENIENT, w, []);
    assert RefreshFlow.CheckRefresh(LENIENT, REFRESH_REQUEST, w.st.refresh["rt"].req, 1) == None;
  }

  /** A code is issued for an authorization that expires at instant 1 and is let in at instant 2. */
  lemma AnExpiredCodeIsLetIn()
    ensures var ar := Asking("family", map[]).(session := Session("user", map[AuthorizeCode := 1]));
            var es := [Authorize("code", ar)];
            && Possible(LENIENT, START, es)
            && var w := Run(LENIENT, START, es);
               CodeFlow.Handle(LENIENT, w.st, Asking("other", map["code" := "code"]), 2).1 == None
  {
    LenientGrants();
    var ar := Asking("family", map[]).(session := Session("user", map[AuthorizeCode := 1]));
    var e := Authorize("code", ar);
    var w := Step(LENIENT, START, e);
    hide HasGrant;
    assert [e][1..] == [];
    assert Possible(LENIENT, w, []);
  }
}
