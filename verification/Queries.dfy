/** What revocation and introspection answer, in every reachable state. */
module Queries {
  import opened Prelude
  import opened Requests
  import opened Store
  import opened Grants
  import opened Protocol
  import opened Families
  import opened Runs
  import Revocation
  import Introspection

  ghost predicate Live(st: State, sig: Sig) {
    LiveAccess(st, sig) || LiveRefresh(st, sig)
  }

  /** The request a stored token resolves to, active or not. */
  function Owner(st: State, sig: Sig): Requester
    requires sig in st.access || sig in st.refresh
  {
    if sig in st.access then st.access[sig] else st.refresh[sig].req
  }

  lemma DiscoveryIsLiveness(st: State, used: set<Sig>, sig: Sig)
    requires TokensApart(st, used)
    ensures Revocation.Discover(st, sig, true).1.None? <==> LiveAccess(st, sig)
    ensures Revocation.Discover(st, sig, false).1.None? <==> LiveRefresh(st, sig)
    ensures LiveAccess(st, sig) ==>
            !LiveRefresh(st, sig)
            && Revocation.Discover(st, sig, true).0 == Some(Owner(st, sig))
    ensures LiveRefresh(st, sig) ==> Revocation.Discover(st, sig, false).0 == Some(Owner(st, sig))
    ensures Revocation.IsGone(Revocation.Discover(st, sig, true).1)
            && Revocation.IsGone(Revocation.Discover(st, sig, false).1)
  {
  }

  /** The outcome of a revocation, whatever the hint. */
  function RevocationOutcome(cfg: Config, st: State, token: string, client: Client, live: bool)
    : (State, Option<Error>)
  {
    var sig := cfg.signature(token);
    if !live || (sig !in st.access && sig !in st.refresh) then (st, None)
    else
      var ar := Owner(st, sig);
      if ar.client.id != client.id then (st, Some(UnauthorizedClient))
      else (RevokeAccess(RevokeRefresh(st, ar.id).0, ar.id), None)
  }

  lemma RevokeIsOutcome(cfg: Config, st: State, used: set<Sig>, token: string, hint: Option<TokenType>, client: Client)
    requires TokensApart(st, used)
    ensures Revocation.Revoke(cfg, st, token, hint, client)
         == RevocationOutcome(cfg, st, token, client, Live(st, cfg.signature(token)))
  {
    DiscoveryIsLiveness(st, used, cfg.signature(token));
    hide TokensApart, LiveAccess, LiveRefresh, RevokeAccess, Deactivated, Revocation.Discover, Owner;
  }

  /** Revocation, in every reachable state: success means the presented token is no longer live; a
      live token of the calling client takes its whole family with it and nothing else; another
      client's live token is refused; and the hint changes neither the answer nor the store. */
  lemma RevocationInEveryRun(cfg: Config, es: seq<Event>, token: string, hint: Option<TokenType>, client: Client)
    requires Possible(cfg, START, es)
    ensures var st := Run(cfg, START, es).st;
            var sig := cfg.signature(token);
            var (st', err) := Revocation.Revoke(cfg, st, token, hint, client);
            && (err == None ==> !Live(st', sig))
            && (Live(st, sig) && Owner(st, sig).client.id == client.id ==>
                  err == None && Dead(st', Owner(st, sig).id) && OnlyFamily(st, st', Owner(st, sig).id))
            && (Live(st, sig) && Owner(st, sig).client.id != client.id ==> err == Some(UnauthorizedClient) && st' == st)
            && (!Live(st, sig) ==> err == None && st' == st)
            && (forall other: Option<TokenType> :: Revocation.Revoke(cfg, st, token, other, client) == (st', err))
  {
    hide Step, Enabled;
    StartInv(cfg);
    RunKeepsInv(cfg, START, es);
    var w := Run(cfg, START, es);
    InvIsApart(cfg, w);
    RevocationSound(cfg, w.st, w.used, token, hint, client);
  }

  lemma RevocationSound(cfg: Config, st: State, used: set<Sig>, token: string, hint: Option<TokenType>, client: Client)
    requires Indexed(st) && TokensApart(st, used)
    ensures var sig := cfg.signature(token);
            var (st', err) := Revocation.Revoke(cfg, st, token, hint, client);
            && (err == None ==> !Live(st', sig))
            && (Live(st, sig) && Owner(st, sig).client.id == client.id ==>
                  err == None && Dead(st', Owner(st, sig).id) && OnlyFamily(st, st', Owner(st, sig).id))
            && (Live(st, sig) && Owner(st, sig).client.id != client.id ==> err == Some(UnauthorizedClient) && st' == st)
            && (!Live(st, sig) ==> err == None && st' == st)
            && (forall other: Option<TokenType> :: Revocation.Revoke(cfg, st, token, other, client) == (st', err))
  {
    var sig := cfg.signature(token);
    forall h: Option<TokenType>
      ensures Revocation.Revoke(cfg, st, token, h, client) == RevocationOutcome(cfg, st, token, client, Live(st, sig))
    {
      RevokeIsOutcome(cfg, st, used, token, h, client);
    }
    if Live(st, sig) {
      var id := Owner(st, sig).id;
      KillEffect(st, id);
      DeadMeansNotLive(st, RevokeAccess(RevokeRefresh(st, id).0, id), sig);
    }
    hide Revocation.Revoke, RevokeAccess, RevokeRefresh, Dead, OnlyFamily, Live, Owner, AccessIndexed, RefreshIndexed,
      Apart;
  }

  lemma DeadMeansNotLive(st: State, st': State, sig: Sig)
    requires Live(st, sig) && Shrunk(st, st') && Dead(st', Owner(st, sig).id)
    requires sig in st.access ==> sig !in st.refresh
    ensures !Live(st', sig)
  {
  }

  // ---------------------------------------------------------------------------------------
  // Introspection

  ghost predicate AffirmedAccess(cfg: Config, st: State, token: string, scopes: seq<string>, now: Time) {
    var sig := cfg.signature(token);
    && LiveAccess(st, sig)
    && (if AccessToken in st.access[sig].session.expiresAt then now <= st.access[sig].session.expiresAt[AccessToken]
        else now <= st.access[sig].requestedAt + cfg.accessLifespan)
    && cfg.mac(AccessToken, token) == None
    && Introspection.ScopesCovered(cfg, st.access[sig].grantedScope, scopes)
  }

  ghost predicate AffirmedRefresh(cfg: Config, st: State, token: string, scopes: seq<string>, now: Time) {
    var sig := cfg.signature(token);
    && LiveRefresh(st, sig)
    && (RefreshToken in st.refresh[sig].req.session.expiresAt ==>
          now <= st.refresh[sig].req.session.expiresAt[RefreshToken])
    && cfg.mac(RefreshToken, token) == None
    && Introspection.ScopesCovered(cfg, st.refresh[sig].req.grantedScope, scopes)
  }

  lemma ChecksAreAffirmed(cfg: Config, st: State, token: string, scopes: seq<string>, now: Time)
    ensures Introspection.CheckAccess(cfg, st, token, scopes, now).1.None? <==>
            AffirmedAccess(cfg, st, token, scopes, now)
    ensures AffirmedAccess(cfg, st, token, scopes, now) ==>
              Introspection.CheckAccess(cfg, st, token, scopes, now).0 == Some(st.access[cfg.signature(token)])
    ensures Introspection.CheckRefresh(cfg, st, token, scopes, now).1.None? <==>
            AffirmedRefresh(cfg, st, token, scopes, now)
    ensures AffirmedRefresh(cfg, st, token, scopes, now) ==>
              Introspection.CheckRefresh(cfg, st, token, scopes, now).0 == Some(st.refresh[cfg.signature(token)].req)
  {
  }

  /** Introspection accepts a token exactly when the store holds it live, it has not expired, its
      MAC verifies and every asked scope is covered; the verdict, the use it reports, the error and
      the merged request are the same for every hint. */
  lemma IntrospectionExact(cfg: Config, st: State, used: set<Sig>, token: string, hint: Option<TokenType>,
                           rq: Requester, scopes: seq<string>, now: Time)
    requires TokensApart(st, used)
    ensures var verdict := Introspection.Introspect(cfg, false, st, token, hint, rq, scopes, now);
            var sig := cfg.signature(token);
            && (verdict.Active? <==>
                 AffirmedAccess(cfg, st, token, scopes, now)
                 || AffirmedRefresh(cfg, st, token, scopes, now))
            && (AffirmedAccess(cfg, st, token, scopes, now) ==>
                  verdict == Introspection.Active(AccessToken, Merged(rq, st.access[sig])))
            && (AffirmedRefresh(cfg, st, token, scopes, now) ==>
                  verdict == Introspection.Active(RefreshToken, Merged(rq, st.refresh[sig].req)))
            && (forall other: Option<TokenType> ::
                 Introspection.Introspect(cfg, false, st, token, other, rq, scopes, now) == verdict)
  {
    ChecksAreAffirmed(cfg, st, token, scopes, now);
    assert LiveAccess(st, cfg.signature(token)) ==> !LiveRefresh(st, cfg.signature(token));
    hide TokensApart, Introspection.CheckAccess, Introspection.CheckRefresh, Merged, Introspection.ScopesCovered,
      AffirmedAccess, AffirmedRefresh;
  }

  /** How a token is refused that is no live refresh token: unknown, expired, with a bad MAC or without
      the asked scopes, in this order. */
  lemma IntrospectionRefusals(cfg: Config, st: State, token: string, hint: Option<TokenType>, rq: Requester,
                              scopes: seq<string>, now: Time)
    requires !LiveRefresh(st, cfg.signature(token))
    ensures var verdict := Introspection.Introspect(cfg, false, st, token, hint, rq, scopes, now);
            var sig := cfg.signature(token);
            && (!LiveAccess(st, sig) ==> verdict == Introspection.Inactive(RequestUnauthorized))
            && (LiveAccess(st, sig) ==>
                  var or := st.access[sig];
                  var past := if AccessToken in or.session.expiresAt then or.session.expiresAt[AccessToken] < now
                              else or.requestedAt + cfg.accessLifespan < now;
                  && (past ==> verdict == Introspection.Inactive(TokenExpired))
                  && (!past && cfg.mac(AccessToken, token).Some? ==>
                        verdict == Introspection.Inactive(cfg.mac(AccessToken, token).value))
                  && (!past && cfg.mac(AccessToken, token).None?
                      && !Introspection.ScopesCovered(cfg, or.grantedScope, scopes) ==>
                        verdict == Introspection.Inactive(InvalidScope)))
  {
    hide Merged, Introspection.ScopesCovered;
  }

  /** With refresh tokens left out of introspection only access tokens are accepted, and any live one is
      accepted as before. */
  lemma IntrospectionWithoutRefresh(cfg: Config, st: State, token: string, hint: Option<TokenType>, rq: Requester,
                                    scopes: seq<string>, now: Time)
    ensures var verdict := Introspection.Introspect(cfg, true, st, token, hint, rq, scopes, now);
            && (verdict.Active? <==> AffirmedAccess(cfg, st, token, scopes, now))
            && (verdict.Active? ==>
                  && LiveAccess(st, cfg.signature(token))
                  && verdict == Introspection.Active(AccessToken, Merged(rq, st.access[cfg.signature(token)])))
  {
    hide Merged, Introspection.CheckAccess, Introspection.CheckRefresh, Introspection.ScopesCovered;
    ChecksAreAffirmed(cfg, st, token, scopes, now);
  }

  lemma IntrospectionInEveryRun(cfg: Config, es: seq<Event>, token: string, hint: Option<TokenType>,
                                rq: Requester, scopes: seq<string>, now: Time)
    requires Possible(cfg, START, es)
    ensures var st := Run(cfg, START, es).st;
            var verdict := Introspection.Introspect(cfg, false, st, token, hint, rq, scopes, now);
            var sig := cfg.signature(token);
            && (verdict.Active? <==>
                 AffirmedAccess(cfg, st, token, scopes, now)
                 || AffirmedRefresh(cfg, st, token, scopes, now))
            && (AffirmedAccess(cfg, st, token, scopes, now) ==>
                  sig in st.access && verdict == Introspection.Active(AccessToken, Merged(rq, st.access[sig])))
            && (AffirmedRefresh(cfg, st, token, scopes, now) ==>
                  sig in st.refresh && verdict == Introspection.Active(RefreshToken, Merged(rq, st.refresh[sig].req)))
            && (forall other: Option<TokenType> ::
                 Introspection.Introspect(cfg, false, st, token, other, rq, scopes, now) == verdict)
  {
    hide Step, Enabled;
    StartInv(cfg);
    RunKeepsInv(cfg, START, es);
    var w := Run(cfg, START, es);
    InvIsApart(cfg, w);
    hide Introspection.Introspect, AffirmedAccess, AffirmedRefresh, TokensApart, Inv;
    IntrospectionExact(cfg, w.st, w.used, token, hint, rq, scopes, now);
  }

  /** What a resource server is told of an accepted token, in every reachable state: the identity, the
      client and the session stored with the token, and, beside what its own request held, exactly the
      scopes and the audience its family was granted; stored form fields win. */
  lemma AffirmedRequestIsTheStoredOne(cfg: Config, es: seq<Event>, token: string, hint: Option<TokenType>,
                                      rq: Requester, scopes: seq<string>, now: Time)
    requires Possible(cfg, START, es)
    requires Introspection.Introspect(cfg, false, Run(cfg, START, es).st, token, hint, rq, scopes, now).Active?
    ensures var w := Run(cfg, START, es);
            var sig := cfg.signature(token);
            var r := Introspection.Introspect(cfg, false, w.st, token, hint, rq, scopes, now).request;
            && (sig in w.st.access || sig in w.st.refresh)
            && var or := Owner(w.st, sig);
               && r.id == or.id && r.client == or.client && r.session == or.session && r.requestedAt == or.requestedAt
               && (forall k :: Get(r.form, k) == if k in or.form then or.form[k] else Get(rq.form, k))
               && or.id in w.families && w.families[or.id].granted.Some? && r.client.id == w.families[or.id].client
               && var g := w.families[or.id].granted.value;
                  && r.session.subject == g.subject
                  && (forall x :: x in r.grantedScope <==> x in rq.grantedScope || x in g.scopes)
                  && (forall x :: x in r.grantedAudience <==> x in rq.grantedAudience || x in g.audience)
  {
    hide Step, Enabled, Indexed, CodesKnown, DevicesKnown, OriginsUsed, AllPendingKnown, Introspection.Introspect,
      AppendAll, NoRepeats;
    StartInv(cfg);
    RunKeepsInv(cfg, START, es);
    IntrospectionInEveryRun(cfg, es, token, hint, rq, scopes, now);
    var w := Run(cfg, START, es);
    var or := Owner(w.st, cfg.signature(token));
    assert Conforms(w.families, or);
    AppendAllMembers(rq.grantedScope, or.grantedScope);
    AppendAllMembers(rq.grantedAudience, or.grantedAudience);
  }

  /** A token whose revocation succeeded is never affirmed again in the state it leaves. */
  lemma RevokedIsNotAffirmed(cfg: Config, es: seq<Event>, token: string, hint: Option<TokenType>, client: Client,
                             hint': Option<TokenType>, rq: Requester, scopes: seq<string>, now: Time)
    requires Possible(cfg, START, es)
    requires Revocation.Revoke(cfg, Run(cfg, START, es).st, token, hint, client).1 == None
    ensures var st' := Revocation.Revoke(cfg, Run(cfg, START, es).st, token, hint, client).0;
            Introspection.Introspect(cfg, false, st', token, hint', rq, scopes, now).Inactive?
  {
    hide Step, Enabled;
    var w := Run(cfg, START, es);
    StartInv(cfg);
    RunKeepsInv(cfg, START, es);
    RevokeKeepsInv(cfg, w, token, hint, client);
    var w' := DoRevoke(cfg, w, token, hint, client);
    InvIsApart(cfg, w');
    RevocationInEveryRun(cfg, es, token, hint, client);
    hide Introspection.Introspect, Revocation.Revoke, TokensApart, Inv, Run, Possible;
    IntrospectionExact(cfg, w'.st, w'.used, token, hint', rq, scopes, now);
  }
}
