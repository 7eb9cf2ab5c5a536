/** Exactly which requests the first phases let in, for every store, and how they refuse the others:
    the conditions of sections 4.1.3, 4.3.2 and 6 of RFC 6749 written out. */
module LetIn {
  import opened Prelude
  import opened Requests
  import opened Store
  import opened Transactions
  import opened Grants
  import Arguments
  import CodeFlow
  import DeviceFlow
  import Expiry
  import PasswordFlow
  import RefreshFlow

  /** The instant up to which something is good: the session's expiry, or else a default. */
  predicate InTime(s: Session, t: TokenType, otherwise: Time, now: Time) {
    now <= if t in s.expiresAt then s.expiresAt[t] else otherwise
  }

  /** A refresh token that `orig` was stored with may be used for `rq`. */
  ghost predicate MayRefresh(cfg: Config, orig: Requester, rq: Requester, now: Time) {
    && (RefreshToken in orig.session.expiresAt ==> now <= orig.session.expiresAt[RefreshToken])
    && cfg.mac(RefreshToken, Get(rq.form, "refresh_token")) == None
    && (cfg.refreshScopes == [] || Arguments.HasSome(orig.grantedScope, cfg.refreshScopes))
    && orig.client.id == rq.client.id
    && (forall i :: 0 <= i < |orig.grantedScope| ==> cfg.scopeStrategy(rq.client.scopes, orig.grantedScope[i]))
    && cfg.audienceStrategy(rq.client.audience, orig.grantedAudience) == None
  }

  /** A refresh is let in if and only if its client has the grant and presents a stored, active,
      unexpired token with a good MAC, issued to it, that carries a refresh scope if one is configured,
      and scopes and an audience the client may still use. */
  lemma RefreshLetInExactly(cfg: Config, st: State, rq: Requester, now: Time)
    ensures var sig := cfg.signature(Get(rq.form, "refresh_token"));
            RefreshFlow.Handle(cfg, st, rq, now).1 == None <==>
              && HasGrant(rq.client, REFRESH_GRANT)
              && sig in st.refresh && st.refresh[sig].active && MayRefresh(cfg, st.refresh[sig].req, rq, now)
  {
    hide RefreshFlow.Reuse, RefreshFlow.Renewed, HasGrant, Arguments.HasSome;
  }

  /** How a refresh is refused: an unknown, used, expired or foreign token is an invalid grant, and
      only a used one changes the store. */
  lemma RefreshRefusals(cfg: Config, st: State, rq: Requester, now: Time)
    ensures var (st', err, _) := RefreshFlow.Handle(cfg, st, rq, now);
            var sig := cfg.signature(Get(rq.form, "refresh_token"));
            var allowed := HasGrant(rq.client, REFRESH_GRANT);
            && (!allowed ==> err == Some(UnauthorizedClient))
            && (allowed && sig !in st.refresh ==> err == Some(InvalidGrant))
            && (allowed && sig in st.refresh ==>
                  var orig := st.refresh[sig].req;
                  && (!st.refresh[sig].active ==> err == Some(InvalidGrant))
                  && (RefreshToken in orig.session.expiresAt && orig.session.expiresAt[RefreshToken] < now ==>
                        err == Some(InvalidGrant))
                  && (orig.client.id != rq.client.id && MayRefresh(cfg, orig, rq.(client := orig.client), now) ==>
                        err == Some(InvalidGrant)))
            && (st' != st ==> allowed && sig in st.refresh && !st.refresh[sig].active)
  {
    hide RefreshFlow.Reuse, RefreshFlow.Renewed, HasGrant, Arguments.HasSome;
  }

  /** An authorization `ar` may be redeemed by `rq`: section 4.1.3 of RFC 6749, with the expiry the
      code handler looks at in this phase, which is the token request's own. */
  predicate MayRedeem(cfg: Config, ar: Requester, rq: Requester, now: Time) {
    && InTime(rq.session, AuthorizeCode, rq.requestedAt + cfg.codeLifespan, now)
    && cfg.mac(AuthorizeCode, Get(rq.form, "code")) == None
    && ar.client.id == rq.client.id
    && (Get(ar.form, "redirect_uri") == "" || Get(ar.form, "redirect_uri") == Get(rq.form, "redirect_uri"))
  }

  /** The answer to a code request: let in if and only if the client has the grant and presents an
      active code that it may redeem, otherwise an invalid grant; only a spent code changes the
      store. */
  lemma CodeLetInExactly(cfg: Config, st: State, rq: Requester, now: Time)
    ensures var (st', err, _) := CodeFlow.Handle(cfg, st, rq, now);
            var sig := cfg.signature(Get(rq.form, "code"));
            && (err == None <==>
                  && HasGrant(rq.client, CODE_GRANT)
                  && sig in st.codes && st.codes[sig].active && MayRedeem(cfg, st.codes[sig].req, rq, now))
            && (err.Some? ==>
                  err == Some(if HasGrant(rq.client, CODE_GRANT) then InvalidGrant else UnauthorizedClient))
            && (st' != st ==> HasGrant(rq.client, CODE_GRANT) && sig in st.codes && !st.codes[sig].active)
  {
    hide CodeFlow.Replay, CodeFlow.Hydrated, HasGrant;
  }

  /** The answer to a device request whose session is found, by what was decided about it. */
  lemma DeviceLetInExactly(cfg: Config, st: State, rq: Requester, now: Time)
    requires HasGrant(rq.client, DEVICE_GRANT) && !cfg.rateLimited(Get(rq.form, "device_code"))
    ensures var sig := cfg.signature(Get(rq.form, "device_code"));
            var (st', err, _) := DeviceFlow.Handle(cfg, st, rq, now);
            && st' == st
            && (sig !in st.devices ==> err == Some(InvalidGrant))
            && (sig in st.devices ==>
                  var ar := st.devices[sig].req;
                  match st.devices[sig].userCode
                  case Unused => err == Some(AuthorizationPending)
                  case Rejected => err == Some(AccessDenied)
                  case Accepted =>
                    var good := InTime(ar.session, DeviceCode, ar.requestedAt + cfg.deviceLifespan, now);
                    var mac := cfg.mac(DeviceCode, Get(rq.form, "device_code"));
                    && (!good ==> err == Some(DeviceExpiredToken))
                    && (good && mac.Some? ==> err == mac)
                    && (good && mac.None? && ar.client.id != rq.client.id ==> err == Some(InvalidGrant))
                    && (good && mac.None? && ar.client.id == rq.client.id ==> err == None))
  {
    hide DeviceFlow.Hydrated, HasGrant;
  }

  /** A device request that is not looked at: the client lacks the grant or polls too fast. */
  lemma DeviceTurnedAway(cfg: Config, st: State, rq: Requester, now: Time)
    ensures var err := DeviceFlow.Handle(cfg, st, rq, now).1;
            && (!HasGrant(rq.client, DEVICE_GRANT) ==> err == Some(UnauthorizedClient))
            && (HasGrant(rq.client, DEVICE_GRANT) && cfg.rateLimited(Get(rq.form, "device_code")) ==>
                  err == Some(SlowDown))
  {
    hide DeviceFlow.Hydrated, DeviceFlow.Session, ValidateDevice, HasGrant;
  }

  /** The second phase of a device request reads the session again. */
  lemma DeviceRedeemedExactly(cfg: Config, st: State, rq: Requester, at: Generated, rt: Generated, now: Time)
    ensures var sig := cfg.signature(Get(rq.form, "device_code"));
            var (st', err, _) := DeviceFlow.Populate(cfg, st, rq, Some(at), Some(rt), now);
            && (sig in st.devices && st.devices[sig].userCode == Accepted ==>
                  var ar := st.devices[sig].req;
                  err == if !InTime(ar.session, DeviceCode, ar.requestedAt + cfg.deviceLifespan, now) then
                           Some(DeviceExpiredToken)
                         else cfg.mac(DeviceCode, Get(rq.form, "device_code")))
            && (sig !in st.devices || st.devices[sig].userCode != Accepted ==> err == Some(ServerError))
            && (err.Some? ==> st' == st)
  {
    hide CodeFlow.Issue, Sanitized, CanIssueRefresh, MakeResponse, Granting, InvalidateDevice;
  }

  /** The second phase of a code request reads the code again, and the expiry the first phase took over
      from its authorization. */
  lemma CodeRedeemedExactly(cfg: Config, st: State, rq: Requester, at: Generated, rt: Generated, now: Time)
    ensures var sig := cfg.signature(Get(rq.form, "code"));
            var (st', err, _) := CodeFlow.Populate(cfg, st, rq, Some(at), Some(rt), now);
            && err ==
               (if sig !in st.codes || !st.codes[sig].active then Some(ServerError)
                else if !InTime(rq.session, AuthorizeCode, rq.requestedAt + cfg.codeLifespan, now)
                        || cfg.mac(AuthorizeCode, Get(rq.form, "code")).Some? then Some(InvalidRequest)
                else None)
            && (err.Some? ==> st' == st)
  {
    hide CodeFlow.Issue, Sanitized, CanIssueRefresh, MakeResponse, Granting, InvalidateCode;
  }

  /** The second phase of a refresh fails if and only if the token its family's index entry names is
      no longer stored, and then as an invalid request that changes nothing. */
  lemma RefreshedExactly(cfg: Config, st: State, rq: Requester, at: Generated, rt: Generated, now: Time)
    ensures var (st', err, _) := RefreshFlow.Populate(cfg, st, rq, Some(at), Some(rt), now);
            && err == (if rq.id in st.refreshIdx && st.refreshIdx[rq.id] !in st.refresh then Some(InvalidRequest)
                       else None)
            && (err.Some? ==> st' == st)
  {
    hide Deactivated, Without, Sanitized, MakeResponse;
  }

  /** A password request is let in if and only if the client has the grant and may use the scopes and
      the audience it asks for, and both credentials are given and authenticate. */
  lemma PasswordLetInExactly(cfg: Config, rq: Requester, now: Time)
    ensures var (username, password) := (Get(rq.form, "username"), Get(rq.form, "password"));
            var (err, rq') := PasswordFlow.Handle(cfg, rq, now);
            && (err == None <==>
                  && HasGrant(rq.client, PASSWORD_GRANT)
                  && (forall i :: 0 <= i < |rq.requestedScope| ==>
                        cfg.scopeStrategy(rq.client.scopes, rq.requestedScope[i]))
                  && cfg.audienceStrategy(rq.client.audience, rq.requestedAudience) == None
                  && username != "" && password != ""
                  && cfg.authenticate(username, password).1 == None)
            && (err == Some(InvalidGrant) && cfg.audienceStrategy(rq.client.audience, rq.requestedAudience) == None ==>
                  cfg.authenticate(username, password).1 == Some(NotFound))
            && (err == None ==> rq'.session.subject == cfg.authenticate(username, password).0)
            && (err == None ==> "password" !in rq'.form && rq'.form.Keys == rq.form.Keys - {"password"})
            && (err.Some? ==> rq' == rq)
  {
    hide HasGrant;
  }

  // ---------------------------------------------------------------------------------------
  // What a request that is let in takes over

  /** A whole second, and the one nearest to the instant, the later of two. */
  predicate Nearest(t: Time, instant: Time) {
    t % SECOND == 0 && instant - SECOND / 2 < t <= instant + SECOND / 2
  }

  /** The session keeps its subject and lasts for the lifespans of the client and the grant, counted from
      now. A negative refresh lifespan leaves the refresh expiry as it was. */
  predicate Lasts(cfg: Config, before: Session, after: Session, client: Client, grant: Grant, now: Time) {
    && after.subject == before.subject
    && AccessToken in after.expiresAt
    && Nearest(after.expiresAt[AccessToken], now + cfg.lifespan(client, grant, AccessToken))
    && (forall t :: t != AccessToken && t != RefreshToken ==> SameExpiry(before, after, t))
    && var refresh := cfg.lifespan(client, grant, RefreshToken);
       if refresh < 0 then SameExpiry(before, after, RefreshToken)
       else RefreshToken in after.expiresAt && Nearest(after.expiresAt[RefreshToken], now + refresh)
  }

  predicate SameExpiry(before: Session, after: Session, t: TokenType) {
    (t in before.expiresAt <==> t in after.expiresAt)
    && (t in before.expiresAt ==> before.expiresAt[t] == after.expiresAt[t])
  }

  lemma ExpiriesLast(cfg: Config, s: Session, client: Client, grant: Grant, now: Time)
    ensures Lasts(cfg, s, WithExpiries(cfg, s, client, grant, now), client, grant, now)
  {
    Expiry.RoundIsNearest(now + cfg.lifespan(client, grant, AccessToken));
    Expiry.RoundIsNearest(now + cfg.lifespan(client, grant, RefreshToken));
    hide Expiry.Round;
  }

  /** A request takes over the identity of what it redeems and what was asked for there, and a session
      of the same subject; client and form stay its own. */
  ghost predicate TakesOver(cfg: Config, rq: Requester, rq': Requester, from: Requester, grant: Grant, now: Time) {
    && rq'.id == from.id && rq'.client == rq.client && rq'.form == rq.form && rq'.requestedAt == rq.requestedAt
    && Lasts(cfg, from.session, rq'.session, rq.client, grant, now)
    && NoRepeats(rq'.requestedScope) && NoRepeats(rq'.requestedAudience)
    && (forall x :: x in rq'.requestedScope <==> x in from.requestedScope)
    && (forall x :: x in rq'.requestedAudience <==> x in from.requestedAudience)
  }

  lemma CodeTakesOver(cfg: Config, st: State, rq: Requester, now: Time)
    requires CodeFlow.Handle(cfg, st, rq, now).1 == None
    ensures var sig, rq' := cfg.signature(Get(rq.form, "code")), CodeFlow.Handle(cfg, st, rq, now).2;
            && sig in st.codes && TakesOver(cfg, rq, rq', st.codes[sig].req, CodeGrant, now)
            && rq'.grantedScope == rq.grantedScope && rq'.grantedAudience == rq.grantedAudience
  {
    hide Lasts, WithExpiries, Dedup, HasGrant, NoRepeats;
    var ar := st.codes[cfg.signature(Get(rq.form, "code"))].req;
    ExpiriesLast(cfg, ar.session, rq.client, CodeGrant, now);
    DedupIdempotent(ar.requestedScope);
    DedupIdempotent(ar.requestedAudience);
  }

  lemma DeviceTakesOver(cfg: Config, st: State, rq: Requester, now: Time)
    requires DeviceFlow.Handle(cfg, st, rq, now).1 == None
    ensures var sig, rq' := cfg.signature(Get(rq.form, "device_code")), DeviceFlow.Handle(cfg, st, rq, now).2;
            && sig in st.devices && TakesOver(cfg, rq, rq', st.devices[sig].req, DeviceGrant, now)
            && rq'.grantedScope == rq.grantedScope && rq'.grantedAudience == rq.grantedAudience
  {
    hide Lasts, WithExpiries, Dedup, HasGrant, NoRepeats;
    var ar := st.devices[cfg.signature(Get(rq.form, "device_code"))].req;
    ExpiriesLast(cfg, ar.session, rq.client, DeviceGrant, now);
    DedupIdempotent(ar.requestedScope);
    DedupIdempotent(ar.requestedAudience);
  }

  /** A refresh takes over the grants as well. */
  lemma RefreshTakesOver(cfg: Config, st: State, rq: Requester, now: Time)
    requires RefreshFlow.Handle(cfg, st, rq, now).1 == None
    ensures var sig, rq' := cfg.signature(Get(rq.form, "refresh_token")), RefreshFlow.Handle(cfg, st, rq, now).2;
            && sig in st.refresh && TakesOver(cfg, rq, rq', st.refresh[sig].req, RefreshGrant, now)
            && var orig := st.refresh[sig].req;
               && (forall x :: x in rq'.grantedScope <==> x in rq.grantedScope || x in orig.grantedScope)
               && (forall x :: x in rq'.grantedAudience <==> x in rq.grantedAudience || x in orig.grantedAudience)
  {
    hide Lasts, WithExpiries, Dedup, AppendAll, HasGrant, NoRepeats, RefreshFlow.CheckRefresh, RefreshFlow.Reuse;
    var orig := st.refresh[cfg.signature(Get(rq.form, "refresh_token"))].req;
    ExpiriesLast(cfg, orig.session, rq.client, RefreshGrant, now);
    DedupIdempotent(orig.requestedScope);
    DedupIdempotent(orig.requestedAudience);
    AppendAllMembers(rq.grantedScope, orig.grantedScope);
    AppendAllMembers(rq.grantedAudience, orig.grantedAudience);
  }

  lemma PasswordTakesOver(cfg: Config, rq: Requester, now: Time)
    requires PasswordFlow.Handle(cfg, rq, now).0 == None
    ensures var rq' := PasswordFlow.Handle(cfg, rq, now).1;
            var subject := cfg.authenticate(Get(rq.form, "username"), Get(rq.form, "password")).0;
            && Lasts(cfg, rq.session.(subject := subject), rq'.session, rq.client, PasswordGrant, now)
            && rq' == rq.(form := rq'.form, session := rq'.session)
  {
    hide Lasts, WithExpiries, HasGrant, PasswordFlow.CheckPassword;
    var subject := cfg.authenticate(Get(rq.form, "username"), Get(rq.form, "password")).0;
    ExpiriesLast(cfg, rq.session.(subject := subject), rq.client, PasswordGrant, now);
  }

  /** A refused code or device request has taken over nothing of its authorization but what was asked for
      there, whatever operations fail. */
  lemma RefusedRequestsGainNothing(cfg: Config, st: State, rq: Requester, now: Time, plan: Plan)
    ensures var o := CodeFlow.HandleUnder(cfg, st, rq, now, plan);
            o.err.Some? ==> o.rq == rq.(requestedScope := o.rq.requestedScope,
                                        requestedAudience := o.rq.requestedAudience)
    ensures var o := DeviceFlow.HandleUnder(cfg, st, rq, now, plan);
            o.err.Some? ==> o.rq == rq.(requestedScope := o.rq.requestedScope,
                                        requestedAudience := o.rq.requestedAudience)
  {
    hide Dedup, WithExpiries, HasGrant, CodeFlow.ReplayUnder, DeviceFlow.SessionUnder, ValidateDevice,
      CodeFlow.CheckCode, ValidateCode;
  }

  /** A refused refresh has been granted no audience and only scopes that its client may use. */
  lemma RefusedRefreshGainsAllowedScopes(cfg: Config, transactional: bool, st: State, rq: Requester, now: Time,
                                         plan: Plan)
    ensures var o := RefreshFlow.HandleUnder(cfg, transactional, st, rq, now, plan);
            o.err.Some? ==>
              && o.rq.client == rq.client && o.rq.form == rq.form && o.rq.grantedAudience == rq.grantedAudience
              && forall x :: x in o.rq.grantedScope ==>
                   x in rq.grantedScope || cfg.scopeStrategy(rq.client.scopes, x)
  {
    hide Dedup, AppendAll, WithExpiries, HasGrant, RefreshFlow.ReuseOutcome, RefreshFlow.CheckRefresh, ValidateRefresh;
    var sig := cfg.signature(Get(rq.form, "refresh_token"));
    if sig in st.refresh {
      var orig := st.refresh[sig].req;
      var n := RefreshFlow.GrantedScopes(cfg, rq.client.scopes, orig.grantedScope);
      AppendAllMembers(rq.grantedScope, orig.grantedScope[..n]);
    }
  }
}
