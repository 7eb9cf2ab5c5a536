/** What the log of a run can contain: a code yields tokens at most once, however the phases of
    competing requests interleave, and a device code only after its user code was accepted. */
module History {
  import opened Prelude
  import opened Requests
  import opened Store
  import opened Grants
  import opened Protocol
  import opened Families
  import opened Runs
  import opened Ledger
  import CodeFlow

  // ---------------------------------------------------------------------------------------
  // Results

  /** An authorization code yields tokens at most once, and so does a device code. */
  lemma CodesYieldTokensOnce(cfg: Config, es: seq<Event>, i: nat, j: nat)
    requires Possible(cfg, START, es)
    requires var log := Run(cfg, START, es).log; i < |log| && j < |log|
    ensures var log := Run(cfg, START, es).log;
            && (log[i].CodeRedeemed? && log[j].CodeRedeemed? && log[i].code == log[j].code ==> i == j)
            && (log[i].DeviceRedeemed? && log[j].DeviceRedeemed? && log[i].code == log[j].code ==> i == j)
  {
    hide Step, Enabled;
    StartInv(cfg);
    RunKeepsLog(cfg, START, es);
  }

  /** A device code yields tokens only when the last decision about its user code was to accept, and
      only to the client it was issued to. */
  lemma DeviceTokensNeedAcceptance(cfg: Config, es: seq<Event>, j: nat)
    requires Possible(cfg, START, es)
    requires var log := Run(cfg, START, es).log; j < |log| && log[j].DeviceRedeemed?
    ensures var log := Run(cfg, START, es).log;
            && (exists i :: 0 <= i < j && Decides(log[i], log[j].id) && log[i].decision.state == Accepted
                            && forall k :: i < k < j ==> !Decides(log[k], log[j].id))
            && (exists i :: 0 <= i < j && log[i].DeviceStarted? && log[i].code == log[j].code
                            && log[i].dar.id == log[j].id && log[i].dar.client.id == log[j].client)
  {
    hide Step, Enabled, Possible, Run, CodesLogged, DevicesLogged, StartsLogged, GrantsLogged;
    StartInv(cfg);
    StartLogged();
    RunKeepsLog(cfg, START, es);
    RedeemedWasAccepted(Run(cfg, START, es), j);
  }

  lemma RedeemedWasAccepted(w: World, j: nat)
    requires DevicesLogged(w.log, w.st.devices, w.used) && j < |w.log| && w.log[j].DeviceRedeemed?
    ensures var log := w.log;
            && (exists i :: 0 <= i < j && Decides(log[i], log[j].id) && log[i].decision.state == Accepted
                            && forall k :: i < k < j ==> !Decides(log[k], log[j].id))
            && (exists i :: 0 <= i < j && log[i].DeviceStarted? && log[i].code == log[j].code
                            && log[i].dar.id == log[j].id && log[i].dar.client.id == log[j].client)
  {
    var log := w.log;
    assert Justified(log, j);
    hide DevicesLogged, LastDecision;
    var before, id := log[..j], log[j].id;
    LastDecisionMeaning(before, id);
    var i1 :| Final(before, id, i1);
    assert log[i1] == before[i1];
    assert forall k :: i1 < k < j ==> log[k] == before[k];
    var i2 :| 0 <= i2 < |before| && before[i2].DeviceStarted? && before[i2].code == log[j].code
              && before[i2].dar.id == id && before[i2].dar.client.id == log[j].client;
    assert log[i2] == before[i2];
  }

  /** Every stored token, however many refreshes lie behind it, carries exactly the scopes, the
      audience and the subject that were granted where its family came from: by the authorization of
      its code, by the last decision before its device code was redeemed, or to the password request. */
  lemma TokensCarryWhatWasGranted(cfg: Config, es: seq<Event>, sig: Sig)
    requires Possible(cfg, START, es)
    requires var st := Run(cfg, START, es).st; sig in st.access || sig in st.refresh
    ensures var w := Run(cfg, START, es);
            var req := if sig in w.st.access then w.st.access[sig] else w.st.refresh[sig].req;
            var g := Granted(req.grantedScope, req.grantedAudience, req.session.subject);
            || (exists code :: GrantedByCode(w.log, req.id, code, g))
            || (exists code :: GrantedByDecision(w.log, req.id, code, g))
            || GrantedByPassword(w.log, req.id, g)
  {
    hide Step, Enabled, Indexed, TokensApart, CodesKnown, DevicesKnown, OriginsUsed, AllPendingKnown, CodesLogged,
      DevicesLogged, StartsLogged, GrantedByCode, GrantedByDecision, GrantedByPassword;
    StartInv(cfg);
    StartLogged();
    RunKeepsInv(cfg, START, es);
    RunKeepsLog(cfg, START, es);
    var w := Run(cfg, START, es);
    var req := if sig in w.st.access then w.st.access[sig] else w.st.refresh[sig].req;
    assert Conforms(w.families, req);
    assert GrantLogged(w.log, req.id, w.families[req.id]);
  }

  /** Presenting a spent authorization code changes no other family, and afterwards its own has no
      live token if and only if the presenting client may use the code grant or the family had none
      before. A client with that grant is refused with an invalid grant, whoever it is. */
  lemma ReplayedCodeEmptiesFamily(cfg: Config, es: seq<Event>, rq: Requester, now: Time)
    requires Possible(cfg, START, es)
    requires var sig := CodeFlow.PresentedSig(cfg, rq);
             var codes := Run(cfg, START, es).st.codes;
             sig in codes && !codes[sig].active
    ensures var st := Run(cfg, START, es).st;
            var (st', err, _) := CodeFlow.Handle(cfg, st, rq, now);
            var id := st.codes[CodeFlow.PresentedSig(cfg, rq)].req.id;
            && OnlyFamily(st, st', id)
            && (Dead(st', id) <==> HasGrant(rq.client, CODE_GRANT) || Dead(st, id))
            && err == if HasGrant(rq.client, CODE_GRANT) then Some(InvalidGrant) else Some(UnauthorizedClient)
  {
    hide Step, Enabled, Inv, Indexed, TokensApart, Dead, OnlyFamily, CodeFlow.Handle, HasGrant;
    StartInv(cfg);
    RunKeepsInv(cfg, START, es);
    InvIsApart(cfg, Run(cfg, START, es));
    ReplayEmptiesFamily(cfg, Run(cfg, START, es).st, rq, now);
  }

  lemma ReplayEmptiesFamily(cfg: Config, st: State, rq: Requester, now: Time)
    requires Indexed(st)
    requires var sig := CodeFlow.PresentedSig(cfg, rq); sig in st.codes && !st.codes[sig].active
    ensures var (st', err, _) := CodeFlow.Handle(cfg, st, rq, now);
            var id := st.codes[CodeFlow.PresentedSig(cfg, rq)].req.id;
            && OnlyFamily(st, st', id)
            && (Dead(st', id) <==> HasGrant(rq.client, CODE_GRANT) || Dead(st, id))
            && err == if HasGrant(rq.client, CODE_GRANT) then Some(InvalidGrant) else Some(UnauthorizedClient)
  {
    hide Indexed, Dead, Shrunk, CodeFlow.CheckCode, CodeFlow.Replay, CodeFlow.Hydrated, HasGrant, RevokeAccess,
      RevokeRefresh;
    var id := st.codes[CodeFlow.PresentedSig(cfg, rq)].req.id;
    KillEffect(st, id);
    ReplayIsKill(st, id);
  }

  /** The store with another session kept for a code. */
  function WithCodeSession(st: State, sig: Sig, session: Session): State
    requires sig in st.codes
  {
    st.(codes := st.codes[sig := st.codes[sig].(req := st.codes[sig].req.(session := session))])
  }

  /** The first phase does not look at an authorization's own expiry: with any other session stored
      for the code, in particular one that has long expired, it gives the same answer. */
  lemma FirstPhaseIgnoresExpiry(cfg: Config, st: State, rq: Requester, session: Session, now: Time)
    requires CodeFlow.PresentedSig(cfg, rq) in st.codes
    ensures CodeFlow.Handle(cfg, WithCodeSession(st, CodeFlow.PresentedSig(cfg, rq), session), rq, now).1
         == CodeFlow.Handle(cfg, st, rq, now).1
  {
    hide CodeFlow.Replay, CodeFlow.Hydrated, HasGrant, ValidateCode;
  }

  /** Every request that is let in would also be let in with a code that expired before. */
  lemma ExpiredCodeIsLetIn(cfg: Config, st: State, rq: Requester, expiry: Time, now: Time)
    requires CodeFlow.Handle(cfg, st, rq, now).1 == None && expiry < now
    ensures var sig := CodeFlow.PresentedSig(cfg, rq);
            && sig in st.codes
            && var st1 := WithCodeSession(st, sig, SetExpiresAt(st.codes[sig].req.session, AuthorizeCode, expiry));
               Expired(st1.codes[sig].req.session, AuthorizeCode, None, now)
                   && CodeFlow.Handle(cfg, st1, rq, now).1 == None
  {
    hide CodeFlow.Replay, CodeFlow.Hydrated, HasGrant, ValidateCode;
  }

  /** The second phase does look at it: a code past its authorization's expiry never yields tokens, even if
      its request was let into the second phase. */
  lemma ExpiredCodeYieldsNothing(cfg: Config, es: seq<Event>, pid: nat, at: Generated, rt: Generated, now: Time)
    requires Possible(cfg, START, es)
    requires var w := Run(cfg, START, es);
             && pid in w.pending && w.pending[pid].PendingCode?
             && var sig := CodeFlow.PresentedSig(cfg, w.pending[pid].rq);
                sig in w.st.codes
                && AuthorizeCode in w.st.codes[sig].req.session.expiresAt
                && w.st.codes[sig].req.session.expiresAt[AuthorizeCode] < now
    ensures var w := Run(cfg, START, es);
            var (st', err, _) := CodeFlow.Populate(cfg, w.st, w.pending[pid].rq, Some(at), Some(rt), now);
            err.Some? && st' == w.st
  {
    hide Step, Enabled, AccessIndexed, RefreshIndexed, Apart, TokensConform, CodesKnown, DevicesKnown;
    StartInv(cfg);
    RunKeepsInv(cfg, START, es);
    var w := Run(cfg, START, es);
    assert PendingKnown(cfg, w.pending[pid], w.families, w.st.codes, w.st.devices);
  }
}
