/** What both phases answer in every reachable state, told from the log of the run and the families
    it names, whatever requests are under way. */
module Decisions {
  import opened Prelude
  import opened Requests
  import opened Store
  import opened Grants
  import opened Protocol
  import opened Families
  import opened Runs
  import opened Ledger
  import opened LetIn
  import Arguments
  import CodeFlow
  import DeviceFlow
  import PasswordFlow
  import RefreshFlow

  lemma Reached(cfg: Config, es: seq<Event>)
    requires Possible(cfg, START, es)
    ensures Inv(cfg, Run(cfg, START, es)) && Logged(Run(cfg, START, es))
  {
    hide Inv, Logged, Step, Enabled;
    StartInv(cfg);
    StartLogged();
    RunKeepsInv(cfg, START, es);
    RunKeepsLog(cfg, START, es);
  }

  // ---------------------------------------------------------------------------------------
  // Device codes (section 3.5 of RFC 8628)

  /** The session of a started device code. */
  lemma StartedSession(cfg: Config, w: World, i: nat)
    requires Inv(cfg, w) && Logged(w) && i < |w.log| && w.log[i].DeviceStarted?
    ensures var (code, dar) := (w.log[i].code, w.log[i].dar);
            && (code in w.st.devices <==> !DeviceSpent(w.log, code))
            && (code in w.st.devices ==>
                  && SessionOf(w.st.devices[code], dar)
                  && w.st.devices[code].userCode ==
                     match LastDecision(w.log, dar.id) { case None => Unused case Some(d) => d.state })
  {
    hide Inv, CodesLogged, StartsLogged, GrantsLogged, Justified;
    var code := w.log[i].code;
    if DeviceSpent(w.log, code) {
      var k :| 0 <= k < |w.log| && w.log[k].DeviceRedeemed? && w.log[k].code == code;
    }
    if code in w.st.devices {
      assert Follows(w.log, w.st.devices[code]);
    }
  }

  /** What a device is told that polls with a code it was given: an invalid grant once the code is
      redeemed; that the user is still to decide, also past the code's expiry; that access is denied
      after a last decision to reject; and after a last decision to accept, that the code has expired,
      that its MAC is bad, that it belongs to another client, or nothing of this. */
  lemma PollingInEveryRun(cfg: Config, es: seq<Event>, i: nat, rq: Requester, now: Time)
    requires Possible(cfg, START, es)
    requires var log := Run(cfg, START, es).log;
             i < |log| && log[i].DeviceStarted? && log[i].code == cfg.signature(Get(rq.form, "device_code"))
    requires HasGrant(rq.client, DEVICE_GRANT) && !cfg.rateLimited(Get(rq.form, "device_code"))
    ensures var w := Run(cfg, START, es);
            var dar := w.log[i].dar;
            var (st', err, _) := DeviceFlow.Handle(cfg, w.st, rq, now);
            && st' == w.st
            && if DeviceSpent(w.log, w.log[i].code) then err == Some(InvalidGrant)
               else
                 match LastDecision(w.log, dar.id)
                 case None => err == Some(AuthorizationPending)
                 case Some(Decision(Unused, _, _)) => err == Some(AuthorizationPending)
                 case Some(Decision(Rejected, _, _)) => err == Some(AccessDenied)
                 case Some(Decision(Accepted, _, _)) =>
                   err ==
                   if !InTime(dar.session, DeviceCode, dar.requestedAt + cfg.deviceLifespan, now) then
                     Some(DeviceExpiredToken)
                   else if cfg.mac(DeviceCode, Get(rq.form, "device_code")).Some? then
                     cfg.mac(DeviceCode, Get(rq.form, "device_code"))
                   else if dar.client.id != rq.client.id then Some(InvalidGrant)
                   else None
  {
    hide Inv, Logged, Run, Possible, DeviceFlow.Handle, HasGrant, DeviceSpent, LastDecision, InTime;
    Reached(cfg, es);
    StartedSession(cfg, Run(cfg, START, es), i);
    DeviceLetInExactly(cfg, Run(cfg, START, es).st, rq, now);
  }

  /** A device code that was never started is an invalid grant, unless it carries the signature of a
      user code. */
  lemma UnknownDeviceCode(cfg: Config, es: seq<Event>, rq: Requester, now: Time)
    requires Possible(cfg, START, es)
    requires HasGrant(rq.client, DEVICE_GRANT) && !cfg.rateLimited(Get(rq.form, "device_code"))
    requires var (w, sig) := (Run(cfg, START, es), cfg.signature(Get(rq.form, "device_code")));
             && (forall i :: 0 <= i < |w.log| && w.log[i].DeviceStarted? ==> w.log[i].code != sig)
             && (forall id :: id in w.families && w.families[id].origin.FromDevice? ==>
                   w.families[id].origin.userSig != sig)
    ensures DeviceFlow.Handle(cfg, Run(cfg, START, es).st, rq, now).1 == Some(InvalidGrant)
  {
    Reached(cfg, es);
    hide Run, Possible, DeviceFlow.Handle, HasGrant, Indexed, TokensApart, TokensConform, CodesKnown, OriginsUsed,
      AllPendingKnown, CodesLogged, DevicesLogged, GrantsLogged;
    DeviceLetInExactly(cfg, Run(cfg, START, es).st, rq, now);
  }

  /** The second phase of a device request reads the decision anew: tokens are issued if and only if
      the code is not redeemed yet, the last decision is to accept, and the code has not expired. */
  lemma DeviceRedemptionInEveryRun(cfg: Config, es: seq<Event>, pid: nat, i: nat, at: Generated, rt: Generated,
                                   now: Time)
    requires Possible(cfg, START, es)
    requires var w := Run(cfg, START, es); pid in w.pending && w.pending[pid].PendingDevice?
    requires var w := Run(cfg, START, es);
             i < |w.log| && w.log[i].DeviceStarted?
             && w.log[i].code == cfg.signature(Get(w.pending[pid].rq.form, "device_code"))
    ensures var w := Run(cfg, START, es);
            var (code, dar) := (w.log[i].code, w.log[i].dar);
            var mac := cfg.mac(DeviceCode, Get(w.pending[pid].rq.form, "device_code"));
            var (st', err, _) := DeviceFlow.Populate(cfg, w.st, w.pending[pid].rq, Some(at), Some(rt), now);
            && err ==
               (if DeviceSpent(w.log, code) || !AcceptedLast(w.log, dar.id) then Some(ServerError)
                else if !InTime(dar.session, DeviceCode, dar.requestedAt + cfg.deviceLifespan, now) then
                  Some(DeviceExpiredToken)
                else mac)
            && (err.Some? ==> st' == w.st)
  {
    hide Inv, Logged, Run, Possible, DeviceFlow.Populate, HasGrant, DeviceSpent, LastDecision, InTime;
    Reached(cfg, es);
    var w := Run(cfg, START, es);
    StartedSession(cfg, w, i);
    DeviceRedeemedExactly(cfg, w.st, w.pending[pid].rq, at, rt, now);
  }

  // ---------------------------------------------------------------------------------------
  // Authorization codes (section 4.1.3 of RFC 6749)

  /** An authorization the log records for a code. */
  ghost predicate IssuedAs(log: seq<Entry>, code: Sig, ar: Requester) {
    Authorized(code, ar) in log
  }

  lemma AuthorizedCode(w: World, code: Sig, ar: Requester)
    requires Logged(w)
    ensures IssuedAs(w.log, code, ar) <==> code in w.st.codes && w.st.codes[code].req == ar
    ensures code in w.st.codes ==> (w.st.codes[code].active <==> !CodeSpent(w.log, code))
  {
    hide DevicesLogged, StartsLogged, GrantsLogged;
    if CodeSpent(w.log, code) {
      var k :| 0 <= k < |w.log| && w.log[k].CodeRedeemed? && w.log[k].code == code;
    }
    if IssuedAs(w.log, code, ar) {
      var k :| 0 <= k < |w.log| && w.log[k] == Authorized(code, ar);
    }
  }

  /** In every reachable state a code request is let in if and only if its client has the grant and
      presents a code of an authorization that it may redeem and that nobody has redeemed. */
  lemma CodeLetInInEveryRun(cfg: Config, es: seq<Event>, rq: Requester, now: Time)
    requires Possible(cfg, START, es)
    ensures var w := Run(cfg, START, es);
            var code := cfg.signature(Get(rq.form, "code"));
            CodeFlow.Handle(cfg, w.st, rq, now).1 == None <==>
              && HasGrant(rq.client, CODE_GRANT) && !CodeSpent(w.log, code)
              && exists ar :: IssuedAs(w.log, code, ar) && MayRedeem(cfg, ar, rq, now)
  {
    Reached(cfg, es);
    hide Inv, Logged, Run, Possible, CodeFlow.Handle, HasGrant, CodeSpent, IssuedAs, MayRedeem;
    var w := Run(cfg, START, es);
    var code := cfg.signature(Get(rq.form, "code"));
    CodeLetInExactly(cfg, w.st, rq, now);
    forall ar
      ensures IssuedAs(w.log, code, ar) <==> code in w.st.codes && w.st.codes[code].req == ar
      ensures code in w.st.codes ==> (w.st.codes[code].active <==> !CodeSpent(w.log, code))
    {
      AuthorizedCode(w, code, ar);
    }
    if code in w.st.codes {
      AuthorizedCode(w, code, w.st.codes[code].req);
      assert IssuedAs(w.log, code, w.st.codes[code].req);
    }
  }

  /** The second phase of a code request issues tokens if and only if the code is not redeemed yet and
      its authorization has not expired; the MAC is checked again. */
  lemma CodeRedemptionInEveryRun(cfg: Config, es: seq<Event>, pid: nat, ar: Requester, at: Generated, rt: Generated,
                                 now: Time)
    requires Possible(cfg, START, es)
    requires var w := Run(cfg, START, es);
             && pid in w.pending && w.pending[pid].PendingCode?
             && IssuedAs(w.log, cfg.signature(Get(w.pending[pid].rq.form, "code")), ar)
    ensures var w := Run(cfg, START, es);
            var rq := w.pending[pid].rq;
            var code := cfg.signature(Get(rq.form, "code"));
            var (st', err, _) := CodeFlow.Populate(cfg, w.st, rq, Some(at), Some(rt), now);
            && err ==
               (if CodeSpent(w.log, code) then Some(ServerError)
                else if !InTime(ar.session, AuthorizeCode, rq.requestedAt + cfg.codeLifespan, now)
                        || cfg.mac(AuthorizeCode, Get(rq.form, "code")).Some? then Some(InvalidRequest)
                else None)
            && (err.Some? ==> st' == w.st)
  {
    hide Logged, Run, Possible, HasGrant, CodeSpent, IssuedAs, CodeFlow.Populate, Indexed, TokensApart, TokensConform,
      CodesKnown, DevicesKnown, OriginsUsed;
    Reached(cfg, es);
    var w := Run(cfg, START, es);
    AuthorizedCode(w, cfg.signature(Get(w.pending[pid].rq.form, "code")), ar);
    assert PendingKnown(cfg, w.pending[pid], w.families, w.st.codes, w.st.devices);
    CodeRedeemedExactly(cfg, w.st, w.pending[pid].rq, at, rt, now);
  }

  // ---------------------------------------------------------------------------------------
  // Refresh tokens (section 6 of RFC 6749)

  /** In every reachable state a refresh is let in if and only if its client has the grant, presents a
      live refresh token of a family of its own that has not expired and carries a good MAC, the
      family was granted a refresh scope if one is configured, and the client may still use every
      scope and the audience the family was granted. */
  lemma RefreshLetInInEveryRun(cfg: Config, es: seq<Event>, rq: Requester, now: Time)
    requires Possible(cfg, START, es)
    ensures var w := Run(cfg, START, es);
            var sig := cfg.signature(Get(rq.form, "refresh_token"));
            && (LiveRefresh(w.st, sig) ==>
                  w.st.refresh[sig].req.id in w.families && w.families[w.st.refresh[sig].req.id].granted.Some?)
            && (RefreshFlow.Handle(cfg, w.st, rq, now).1 == None <==>
                  && HasGrant(rq.client, REFRESH_GRANT)
                  && LiveRefresh(w.st, sig)
                  && (RefreshToken in w.st.refresh[sig].req.session.expiresAt ==>
                        now <= w.st.refresh[sig].req.session.expiresAt[RefreshToken])
                  && cfg.mac(RefreshToken, Get(rq.form, "refresh_token")) == None
                  && var f := w.families[w.st.refresh[sig].req.id];
                     var g := f.granted.value;
                     && f.client == rq.client.id
                     && (cfg.refreshScopes == [] || Arguments.HasSome(g.scopes, cfg.refreshScopes))
                     && (forall i :: 0 <= i < |g.scopes| ==> cfg.scopeStrategy(rq.client.scopes, g.scopes[i]))
                     && cfg.audienceStrategy(rq.client.audience, g.audience) == None)
  {
    Reached(cfg, es);
    hide Logged, Run, Possible, RefreshFlow.Handle, HasGrant, Arguments.HasSome, Indexed, TokensApart, CodesKnown,
      DevicesKnown, OriginsUsed, AllPendingKnown;
    var w := Run(cfg, START, es);
    var sig := cfg.signature(Get(rq.form, "refresh_token"));
    RefreshLetInExactly(cfg, w.st, rq, now);
    if sig in w.st.refresh {
      assert Conforms(w.families, w.st.refresh[sig].req);
    }
  }

  // ---------------------------------------------------------------------------------------
  // Passwords (section 4.3.2 of RFC 6749)

  /** A password request changes nothing unless its client has the grant and may use the scopes and the
      audience it asks for, and both credentials are given and authenticate; otherwise the tokens it
      is issued are those of the subject the credentials belong to. */
  lemma PasswordNeedsAuthentication(cfg: Config, w: World, rq: Requester, scopes: seq<string>, audience: seq<string>,
                                    at: Generated, rt: Generated, now: Time, half: bool)
    requires rt.sig != ""
    ensures var w' := DoPassword(cfg, w, rq, scopes, audience, at, rt, now, half);
            var (username, password) := (Get(rq.form, "username"), Get(rq.form, "password"));
            if !HasGrant(rq.client, PASSWORD_GRANT)
               || (exists i :: 0 <= i < |rq.requestedScope|
                               && !cfg.scopeStrategy(rq.client.scopes, rq.requestedScope[i]))
               || cfg.audienceStrategy(rq.client.audience, rq.requestedAudience).Some?
               || username == "" || password == "" || cfg.authenticate(username, password).1.Some?
            then w' == w
            else
              && LiveAccess(w'.st, at.sig)
              && var req := w'.st.access[at.sig];
                 && req.id == rq.id && req.client == rq.client
                 && req.session.subject == cfg.authenticate(username, password).0
                 && req.grantedScope == Dedup(scopes) && req.grantedAudience == Dedup(audience)
                 && Get(req.form, "password") == ""
  {
    hide HasGrant, Dedup, Lasts, MakeResponse, FirstGrant, AddFamily, RefreshAllowed;
    PasswordLetInExactly(cfg, rq, now);
    if PasswordFlow.Handle(cfg, rq, now).0 == None {
      PasswordTakesOver(cfg, rq, now);
    }
    hide PasswordFlow.Handle;
  }
}
