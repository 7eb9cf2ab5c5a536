/** What handlers leave behind when operations of the store fail on the way. */
module Failures {
  import opened Prelude
  import opened Requests
  import opened Store
  import opened Transactions
  import opened Grants
  import opened Protocol
  import opened Families
  import CodeFlow
  import DeviceFlow
  import PasswordFlow
  import Queries
  import RefreshFlow
  import Revocation

  /** It ends the family if and only if each revocation that did not happen had nothing to do. */
  lemma LostEndsFamily(st: State, id: ID, refresh: bool, access: bool)
    requires Indexed(st)
    ensures Dead(Lost(st, id, refresh, access), id) <==>
              && (refresh || forall s :: LiveRefresh(st, s) ==> st.refresh[s].req.id != id)
              && (access || forall s :: LiveAccess(st, s) ==> st.access[s].id != id)
  {
    hide Indexed, RevokeRefresh, RevokeAccess, OnlyFamily;
    RevokeRefreshEffect(st, id);
    RevokeAccessEffect(if refresh then RevokeRefresh(st, id).0 else st, id);
  }

  /** Reuse handling survives a store that cannot find what it is to revoke, but then it may leave
      live tokens behind although it reports success. It ends the family if and only if each
      revocation that failed had nothing to do. */
  lemma ToleratedFaultsMayLeaveTokens(st: State, sig: Sig, f1: Option<Error>, f2: Option<Error>)
    requires Indexed(st) && sig in st.refresh
    requires RefreshFlow.Tolerated(f1) && RefreshFlow.Tolerated(f2)
    ensures var id := st.refresh[sig].req.id;
            Dead(RefreshFlow.ReuseUnder(st, sig, id, f1, f2), id)
            <==> && (f1.None? || forall s :: LiveRefresh(st, s) && st.refresh[s].req.id == id ==> s == sig)
                 && (f2.None? || forall s :: LiveAccess(st, s) ==> st.access[s].id != id)
  {
    hide Indexed, RevokeRefresh, RevokeAccess, OnlyFamily, Dead;
    DeleteRefreshEffect(st, sig);
    LostEndsFamily(DeleteRefresh(st, sig), st.refresh[sig].req.id, f1.None?, f2.None?);
  }

  /** A replayed code is refused whatever becomes of the revocations. They end the family if and only
      if each that failed had nothing to do. */
  lemma ReplayFaultsMayLeaveTokens(st: State, id: ID, f1: Option<Error>, f2: Option<Error>)
    requires Indexed(st)
    ensures Dead(CodeFlow.ReplayUnder(st, id, f1, f2), id)
            <==> && (f1.None? || forall s :: LiveAccess(st, s) ==> st.access[s].id != id)
                 && (f2.None? || forall s :: LiveRefresh(st, s) ==> st.refresh[s].req.id != id)
  {
    hide Indexed, Dead, Deactivated, Without;
    LostEndsFamily(st, id, f2.None?, f1.None?);
    assert CodeFlow.ReplayUnder(st, id, f1, f2) == Lost(st, id, f2.None?, f1.None?);
  }

  // ---------------------------------------------------------------------------------------
  // Revocation

  /** The plan's entry for the lookup of the presented token in its own kind. */
  function LookupFault(hint: Option<TokenType>, asAccess: bool, plan: Plan): Option<Error> {
    if (hint == Some(AccessToken)) == asAccess then Head(plan) else Head(Rest(plan))
  }

  /** The plan's entry for the revocation of that kind, when the lookup succeeds. */
  function RevocationFault(hint: Option<TokenType>, asAccess: bool, plan: Plan): Option<Error> {
    var rest := if (hint == Some(AccessToken)) == asAccess then Rest(plan) else Rest(Rest(plan));
    if asAccess then Head(Rest(rest)) else Head(rest)
  }

  /** An error that revocation takes for an answer: the token is gone already. */
  predicate TakenForGone(fault: Option<Error>) {
    fault == Some(NotFound) || fault == Some(InactiveToken)
  }

  /** The lookup of the presented token, or else its revocation, failed like that. */
  predicate Spared(hint: Option<TokenType>, asAccess: bool, plan: Plan) {
    var lookup := LookupFault(hint, asAccess, plan);
    TakenForGone(lookup) || (lookup == None && TakenForGone(RevocationFault(hint, asAccess, plan)))
  }

  /** When revocation reports success, the presented token is still live if and only if it was and
      the lookup that should have found it, or the revocation of its kind, failed with an error that
      is taken for an answer. No other failing operation leaves it live. */
  lemma ReportedRevocationMayLeaveToken(cfg: Config, st: State, used: set<Sig>, token: string, hint: Option<TokenType>,
                                        client: Client, plan: Plan)
    requires Indexed(st) && TokensApart(st, used)
    requires Revocation.RevokeUnder(cfg, st, token, hint, client, plan).1 == None
    ensures var sig := cfg.signature(token);
            var st' := Revocation.RevokeUnder(cfg, st, token, hint, client, plan).0;
            && (LiveAccess(st', sig) <==> LiveAccess(st, sig) && Spared(hint, true, plan))
            && (LiveRefresh(st', sig) <==> LiveRefresh(st, sig) && Spared(hint, false, plan))
  {
    hide Indexed, RevokeRefresh, RevokeAccess, OnlyFamily, Shrunk;
    var sig := cfg.signature(token);
    Queries.DiscoveryIsLiveness(st, used, sig);
    if sig in st.access {
      EndUnderEffect(st, sig, st.access[sig].id, Revocation.AfterDiscovery(st, sig, hint == Some(AccessToken), plan));
    }
    if LiveRefresh(st, sig) {
      EndUnderEffect(st, sig, st.refresh[sig].req.id,
        Revocation.AfterDiscovery(st, sig, hint == Some(AccessToken), plan));
    }
  }

  /** Each revocation takes away the token of its kind, if it happens. */
  lemma EndUnderEffect(st: State, sig: Sig, id: ID, plan: Plan)
    requires Indexed(st)
    ensures var st' := Revocation.EndUnder(st, id, plan).0;
            && (sig in st.access && st.access[sig].id == id ==> (LiveAccess(st', sig) <==> Head(Rest(plan)).Some?))
            && (LiveRefresh(st, sig) && st.refresh[sig].req.id == id ==> (LiveRefresh(st', sig) <==> Head(plan).Some?))
            && (!LiveAccess(st, sig) ==> !LiveAccess(st', sig)) && (!LiveRefresh(st, sig) ==> !LiveRefresh(st', sig))
  {
    hide Indexed, RevokeRefresh, RevokeAccess, Revocation.RevocationError;
    RevokeRefreshEffect(st, id);
    RevokeAccessEffect(if Head(plan).Some? then st else RevokeRefresh(st, id).0, id);
  }

  /** So success is reported over a failed operation: a client revokes its live refresh token, the
      lookup finds it, its revocation fails with "not found", and the token stays live. */
  lemma RevocationReportedOverFailure(cfg: Config, st: State, used: set<Sig>, token: string, client: Client)
    requires Indexed(st) && TokensApart(st, used)
    requires LiveRefresh(st, cfg.signature(token)) && st.refresh[cfg.signature(token)].req.client.id == client.id
    ensures var (st', err) := Revocation.RevokeUnder(cfg, st, token, Some(RefreshToken), client,
                                                     [None, Some(NotFound)]);
            err == None && LiveRefresh(st', cfg.signature(token))
  {
    hide Indexed, TokensApart, RevokeRefresh, RevokeAccess;
    var plan := [None, Some(NotFound)];
    assert Rest(plan) == [Some(NotFound)];
    ReportedRevocationMayLeaveToken(cfg, st, used, token, Some(RefreshToken), client, plan);
  }

  /** Another client's token is refused whatever fails afterwards; any other error asks the client to try
      again, and then some operation failed otherwise than by not finding anything. */
  lemma RevocationErrors(cfg: Config, st: State, used: set<Sig>, token: string, hint: Option<TokenType>,
                         client: Client, plan: Plan)
    requires Indexed(st) && TokensApart(st, used)
    ensures var sig := cfg.signature(token);
            var (st', err) := Revocation.RevokeUnder(cfg, st, token, hint, client, plan);
            && (err == Some(UnauthorizedClient) <==>
                  || (LookupFault(hint, true, plan) == None && LiveAccess(st, sig)
                      && st.access[sig].client.id != client.id)
                  || (LookupFault(hint, false, plan) == None && LiveRefresh(st, sig)
                      && st.refresh[sig].req.client.id != client.id))
            && (err == Some(UnauthorizedClient) ==> st' == st)
            && (err.Some? && err != Some(UnauthorizedClient) ==>
                  && err == Some(TemporarilyUnavailable)
                  && exists i :: 0 <= i < |plan| && plan[i].Some? && !TakenForGone(plan[i]))
  {
    hide Indexed, RevokeAccess, Deactivated;
    Queries.DiscoveryIsLiveness(st, used, cfg.signature(token));
    TroubleIsPlanned(plan);
  }

  /** A failure that is not taken for an answer, among the first four operations, is in the plan. */
  lemma TroubleIsPlanned(plan: Plan)
    ensures forall f :: f in {Head(plan), Head(Rest(plan)), Head(Rest(Rest(plan))), Head(Rest(Rest(Rest(plan))))}
                        && f.Some? && !TakenForGone(f) ==>
              exists i :: 0 <= i < |plan| && plan[i].Some? && !TakenForGone(plan[i])
  {
    if |plan| > 1 { assert Rest(plan)[0] == plan[1]; }
    if |plan| > 2 { assert Rest(Rest(plan))[0] == plan[2]; }
    if |plan| > 3 { assert Rest(Rest(Rest(plan)))[0] == plan[3]; }
  }

  /** A first phase whose lookup fails changes nothing; a failure to find is an invalid grant, any other a
      server error. */
  lemma FailingLookups(cfg: Config, transactional: bool, st: State, rq: Requester, now: Time, plan: Plan)
    requires Head(plan).Some?
    ensures var told := if Head(plan) == Some(NotFound) then Some(InvalidGrant) else Some(ServerError);
            && CodeFlow.HandleUnder(cfg, st, rq, now, plan).st == st
            && RefreshFlow.HandleUnder(cfg, transactional, st, rq, now, plan).st == st
            && DeviceFlow.HandleUnder(cfg, st, rq, now, plan).st == st
            && (HasGrant(rq.client, CODE_GRANT) ==> CodeFlow.HandleUnder(cfg, st, rq, now, plan).err == told)
            && (HasGrant(rq.client, REFRESH_GRANT) ==>
                  RefreshFlow.HandleUnder(cfg, transactional, st, rq, now, plan).err == told)
            && (HasGrant(rq.client, DEVICE_GRANT) && !cfg.rateLimited(Get(rq.form, "device_code")) ==>
                  DeviceFlow.HandleUnder(cfg, st, rq, now, plan).err == told)
  {
    hide HasGrant;
  }

  // ---------------------------------------------------------------------------------------
  // Handlers under failures are steps of the state machine. (A second phase on a transactional store
  // either succeeds or, by its contract, leaves the store as it was, which is `Abort`.)

  lemma CodePhaseIsStep(cfg: Config, w: World, pid: nat, rq: Requester, now: Time, plan: Plan)
    ensures var o := CodeFlow.HandleUnder(cfg, w.st, rq, now, plan);
            var w' := Await(w, pid, o.st, o.err, PendingCode(o.rq));
            || w' == w || w' == DoHandleCode(cfg, w, pid, rq, now)
            || exists id, refresh, access :: w' == DoLose(w, id, None, refresh, access)
  {
    hide CodeFlow.CheckCode, CodeFlow.Hydrated, CodeFlow.Refused, CodeFlow.Replay, CodeFlow.ReplayUnder, HasGrant,
      DoLose;
    var sig := CodeFlow.PresentedSig(cfg, rq);
    if sig in w.st.codes {
      ReplayIsStep(w, w.st.codes[sig].req.id, Head(Rest(plan)), Head(Rest(Rest(plan))));
    }
  }

  lemma ReplayIsStep(w: World, id: ID, f1: Option<Error>, f2: Option<Error>)
    ensures w.(st := CodeFlow.ReplayUnder(w.st, id, f1, f2)) == DoLose(w, id, None, f2.None?, f1.None?)
  {
    hide Deactivated, Without;
  }

  lemma DevicePhaseIsStep(cfg: Config, w: World, pid: nat, rq: Requester, now: Time, plan: Plan)
    ensures var o := DeviceFlow.HandleUnder(cfg, w.st, rq, now, plan);
            var w' := Await(w, pid, o.st, o.err, PendingDevice(o.rq));
            w' == w || w' == DoHandleDevice(cfg, w, pid, rq, now)
  {
    hide DeviceFlow.Session, DeviceFlow.Hydrated, ValidateDevice, HasGrant;
  }

  lemma RefreshPhaseIsStep(cfg: Config, w: World, pid: nat, rq: Requester, now: Time, plan: Plan)
    ensures var o := RefreshFlow.HandleUnder(cfg, true, w.st, rq, now, plan);
            var w' := Await(w, pid, o.st, o.err, PendingRefresh(o.rq));
            || w' == w || w' == DoHandleRefresh(cfg, w, pid, rq, now)
            || exists id, presented, refresh, access :: w' == DoLose(w, id, presented, refresh, access)
  {
    hide RefreshFlow.CheckRefresh, RefreshFlow.Renewed, RefreshFlow.Refused, HasGrant, RefreshFlow.ReuseOutcome, DoLose;
    var sig := RefreshFlow.PresentedSig(cfg, rq);
    if sig in w.st.refresh {
      ReuseIsStep(w, sig, w.st.refresh[sig].req.id, Rest(plan));
    }
  }

  lemma ReuseIsStep(w: World, sig: Sig, id: ID, plan: Plan)
    ensures var st' := RefreshFlow.ReuseOutcome(true, w.st, sig, id, plan).0;
            var rest := Rest(Rest(plan));
            st' == w.st || w.(st := st') == DoLose(w, id, Some(sig), Head(rest).None?, Head(Rest(rest)).None?)
    ensures RefreshFlow.ReuseOutcome(true, w.st, sig, id, plan).1.Some? ==>
            RefreshFlow.ReuseOutcome(true, w.st, sig, id, plan).0 == w.st
  {
    hide RevokeRefresh, RevokeAccess, DeleteRefresh, RefreshFlow.StorageError;
  }

  lemma RevocationIsStep(cfg: Config, w: World, token: string, hint: Option<TokenType>, client: Client, plan: Plan)
    ensures var w' := w.(st := Revocation.RevokeUnder(cfg, w.st, token, hint, client, plan).0);
            w' == w || exists id, refresh, access :: w' == DoLose(w, id, None, refresh, access)
  {
    hide RevokeRefresh, RevokeAccess, Revocation.RevocationError;
    var sig, accessFirst := cfg.signature(token), hint == Some(AccessToken);
    var rest := Revocation.AfterDiscovery(w.st, sig, accessFirst, plan);
    forall id
      ensures w.(st := Revocation.EndUnder(w.st, id, rest).0)
              == DoLose(w, id, None, Head(rest).None?, Head(Rest(rest)).None?)
    {
    }
  }

  lemma PasswordPhaseIsStep(cfg: Config, w: World, rq0: Requester, scopes: seq<string>, audience: seq<string>,
                            at: Generated, rt: Generated, now: Time, plan: Plan)
    requires PasswordFlow.Handle(cfg, rq0, now).0 == None
    ensures var rq := PasswordRequest(cfg, rq0, scopes, audience, now);
            var st' := PasswordFlow.PopulateUnder(cfg, w.st, rq, Some(at), Some(rt), now, plan).0;
            || st' == w.st
            || st' == DoPassword(cfg, w, rq0, scopes, audience, at, rt, now, false).st
            || st' == DoPassword(cfg, w, rq0, scopes, audience, at, rt, now, true).st
  {
    hide PasswordFlow.Handle, RefreshAllowed, Sanitized, MakeResponse, FirstGrant, AddFamily, PasswordRequest;
  }
}
