/** What becomes of a family that has no live token: it stays ended exactly as long as no refresh
    request of it is waiting for its second phase. */
module Lineage {
  import opened Prelude
  import opened Requests
  import opened Store
  import opened Grants
  import opened Protocol
  import opened Families
  import opened Runs
  import CodeFlow
  import DeviceFlow
  import RefreshFlow
  import Revocation

  // ---------------------------------------------------------------------------------------
  // Ended families, under every interleaving

  /** The family has been granted, has no live token, and no refresh of it is under way. */
  ghost predicate Over(w: World, id: ID) {
    && id in w.families && w.families[id].granted.Some?
    && Dead(w.st, id)
    && (forall pid :: pid in w.pending && w.pending[pid].PendingRefresh? ==> w.pending[pid].rq.id != id)
  }

  lemma ShrunkStaysDead(st: State, st': State, id: ID)
    requires Shrunk(st, st') && Dead(st, id)
    ensures Dead(st', id)
  {
  }

  lemma IssueElsewhereStaysDead(st: State, req: Requester, at: Sig, rt: Option<Generated>, id: ID)
    requires Dead(st, id) && req.id != id
    ensures Dead(CodeFlow.Issue(st, req, at, rt), id)
  {
  }

  lemma KillStaysDead(st: State, f: ID, id: ID)
    requires Indexed(st) && Dead(st, id)
    ensures Dead(CodeFlow.Replay(st, f), id) && Dead(RevokeAccess(RevokeRefresh(st, f).0, f), id)
  {
    hide RevokeAccess, RevokeRefresh, Dead, AccessIndexed, RefreshIndexed, Shrunk, OnlyFamily, CodeFlow.Replay;
    KillEffect(st, f);
    ReplayIsKill(st, f);
    ShrunkStaysDead(st, CodeFlow.Replay(st, f), id);
  }

  lemma ReuseStaysDead(st: State, sig: Sig, id: ID)
    requires Indexed(st) && Dead(st, id) && sig in st.refresh
    ensures Dead(RefreshFlow.Reuse(st, sig, st.refresh[sig].req.id), id)
  {
    hide RefreshFlow.Reuse, Dead, AccessIndexed, RefreshIndexed, Shrunk, OnlyFamily;
    ReuseEffect(st, sig);
    ShrunkStaysDead(st, RefreshFlow.Reuse(st, sig, st.refresh[sig].req.id), id);
  }

  lemma HandleCodeStaysOver(cfg: Config, w: World, id: ID, pid: nat, rq: Requester, now: Time)
    requires Indexed(w.st) && Over(w, id)
    ensures Over(DoHandleCode(cfg, w, pid, rq, now), id)
  {
    hide Indexed, Dead, CodeFlow.CheckCode, HasGrant, CodeFlow.Replay, CodeFlow.Hydrated;
    var sig := CodeFlow.PresentedSig(cfg, rq);
    if sig in w.st.codes {
      KillStaysDead(w.st, w.st.codes[sig].req.id, id);
    }
  }

  lemma HandleRefreshStaysOver(cfg: Config, w: World, id: ID, pid: nat, rq: Requester, now: Time)
    requires Indexed(w.st) && Over(w, id)
    ensures Over(DoHandleRefresh(cfg, w, pid, rq, now), id)
  {
    hide AccessIndexed, RefreshIndexed, RefreshFlow.CheckRefresh, HasGrant, RefreshFlow.Reuse, WithExpiries;
    var sig := RefreshFlow.PresentedSig(cfg, rq);
    if sig in w.st.refresh {
      assert w.st.refresh[sig].active ==> w.st.refresh[sig].req.id != id;
      hide Dead;
      ReuseStaysDead(w.st, sig, id);
    }
  }

  lemma RevokeStaysOver(cfg: Config, w: World, id: ID, token: string, hint: Option<TokenType>, client: Client)
    requires Indexed(w.st) && Over(w, id)
    ensures Over(DoRevoke(cfg, w, token, hint, client), id)
  {
    hide Indexed, Dead, RevokeRefresh, RevokeAccess, Revocation.Revoke;
    RevokeShape(cfg, w.st, token, hint, client);
    var sig := cfg.signature(token);
    if sig in w.st.access {
      KillStaysDead(w.st, w.st.access[sig].id, id);
    }
    if sig in w.st.refresh {
      KillStaysDead(w.st, w.st.refresh[sig].req.id, id);
    }
  }

  lemma PopulateCodeStaysOver(cfg: Config, w: World, id: ID, pid: nat, at: Generated, rt: Generated, now: Time)
    requires Inv(cfg, w) && Over(w, id) && pid in w.pending && w.pending[pid].PendingCode?
    ensures Over(DoPopulateCode(cfg, w, pid, at, rt, now), id)
  {
    hide Inv, DoPopulateCode, CodeFlow.Issue, Sanitized, CanIssueRefresh, SigOf;
    PendingCodeFacts(cfg, w, pid);
    PopulateCodeShape(cfg, w, pid, at, rt, now);
    var rq := w.pending[pid].rq;
    var sig := CodeFlow.PresentedSig(cfg, rq);
    if rq.id != id {
      var ar := w.st.codes[sig].req;
      SanitizedKeepsId(Granting(rq, ar));
      IssueElsewhereStaysDead(InvalidateCode(w.st, sig).0, Sanitized(Granting(rq, ar), {}), at.sig,
                              CodeIssues(cfg, ar, rt), id);
    }
  }

  lemma SanitizedKeepsId(rq: Requester)
    ensures Sanitized(rq, {}).id == rq.id && Sanitized(rq, {}).client == rq.client
  {
  }

  lemma PopulateDeviceStaysOver(cfg: Config, w: World, id: ID, pid: nat, at: Generated, rt: Generated, now: Time)
    requires Inv(cfg, w) && Over(w, id) && pid in w.pending && w.pending[pid].PendingDevice?
    ensures Over(DoPopulateDevice(cfg, w, pid, at, rt, now), id)
  {
    hide Inv, DoPopulateDevice, CodeFlow.Issue, Sanitized, CanIssueRefresh, SigOf;
    PendingDeviceFacts(cfg, w, pid);
    PopulateDeviceShape(cfg, w, pid, at, rt, now);
    var rq := w.pending[pid].rq;
    var sig := DeviceFlow.PresentedSig(cfg, rq);
    if sig in w.st.devices && rq.id != id {
      var granted := Granting(rq, w.st.devices[sig].req);
      SanitizedKeepsId(granted);
      IssueElsewhereStaysDead(InvalidateDevice(w.st, sig), Sanitized(granted, {}), at.sig,
                              CodeIssues(cfg, granted, rt), id);
    }
  }

  lemma PasswordStaysOver(cfg: Config, w: World, id: ID, rq0: Requester, scopes: seq<string>, audience: seq<string>,
                          at: Generated, rt: Generated, now: Time, half: bool)
    requires Over(w, id) && rq0.id !in w.families && rt.sig != ""
    ensures Over(DoPassword(cfg, w, rq0, scopes, audience, at, rt, now, half), id)
  {
    PasswordShape(cfg, w, rq0, scopes, audience, at, rt, now, half);
    hide DoPassword, PasswordRequest, CodeFlow.Issue, Sanitized, RefreshAllowed, SigOf, NoRepeats;
    var rq := PasswordRequest(cfg, rq0, scopes, audience, now);
    SanitizedKeepsId(rq);
    IssueElsewhereStaysDead(w.st, Sanitized(rq, {}), at.sig, PasswordIssues(cfg, rq, rt, half), id);
  }

  lemma PopulateRefreshStaysOver(cfg: Config, w: World, id: ID, pid: nat, at: Generated, rt: Generated, now: Time)
    requires Inv(cfg, w) && Over(w, id) && pid in w.pending && w.pending[pid].PendingRefresh? && rt.sig != ""
    ensures Over(DoPopulateRefresh(cfg, w, pid, at, rt, now), id)
  {
    InvIsApart(cfg, w);
    PopulateRefreshShape(cfg, w, pid, at, rt, now);
    hide Inv, Indexed, DoPopulateRefresh, CodeFlow.Issue, Sanitized, RevokeRefresh, RevokeAccess, Rotate;
    var rq := w.pending[pid].rq;
    var st1 := RevokeAccess(RevokeRefresh(w.st, rq.id).0, rq.id);
    KillEffect(w.st, rq.id);
    ShrunkStaysDead(w.st, st1, id);
    SanitizedKeepsId(rq);
    IssueElsewhereStaysDead(st1, Sanitized(rq, {}), at.sig, Some(rt), id);
  }

  lemma SpendStaysOver(w: World, id: ID, pid: nat, at: Generated, rt: Generated)
    requires Over(w, id)
    ensures Over(Spend(w, pid, at, rt), id)
  {
    hide Dead;
  }

  lemma LoseStaysOver(w: World, id: ID, f: ID, presented: Option<Sig>, refresh: bool, access: bool)
    requires Indexed(w.st) && Over(w, id)
    ensures Over(DoLose(w, f, presented, refresh, access), id)
  {
    hide Indexed, DoLose, Shrunk, Dead;
    LostIsShrunk(w, f, presented, refresh, access);
    ShrunkStaysDead(w.st, DoLose(w, f, presented, refresh, access).st, id);
  }

  lemma OtherStepsStayOver(cfg: Config, w: World, id: ID, e: Event)
    requires Over(w, id) && Enabled(cfg, w, e)
    requires e.Authorize? || e.StartDevice? || e.Decide? || e.HandleDevice?
    ensures Over(Step(cfg, w, e), id)
  {
    hide DecideUserCode, DeviceFlow.Session, ValidateDevice, DeviceFlow.Hydrated, HasGrant;
  }

  lemma StepStaysOver(cfg: Config, w: World, id: ID, e: Event)
    requires Inv(cfg, w) && Over(w, id) && Enabled(cfg, w, e)
    ensures Over(Step(cfg, w, e), id)
  {
    if e.Authorize? || e.StartDevice? || e.Decide? || e.HandleDevice? {
      hide Inv, Over, Step, Enabled;
      OtherStepsStayOver(cfg, w, id, e);
    } else {
      InvIsApart(cfg, w);
      hide Inv, Indexed, TokensApart, Over, DoPopulateCode, DoPopulateDevice, DoPassword, DoPopulateRefresh,
        DoHandleCode, DoHandleRefresh, DoRevoke, DoLose, Spend;
      match e
      case HandleCode(pid, rq, now) => HandleCodeStaysOver(cfg, w, id, pid, rq, now);
      case PopulateCode(pid, at, rt, now) => PopulateCodeStaysOver(cfg, w, id, pid, at, rt, now);
      case PopulateDevice(pid, at, rt, now) => PopulateDeviceStaysOver(cfg, w, id, pid, at, rt, now);
      case Password(rq, scopes, audience, at, rt, now, half) =>
        OverMeansKnown(w, id); PasswordStaysOver(cfg, w, id, rq, scopes, audience, at, rt, now, half);
      case HandleRefresh(pid, rq, now) => HandleRefreshStaysOver(cfg, w, id, pid, rq, now);
      case PopulateRefresh(pid, at, rt, now) => PopulateRefreshStaysOver(cfg, w, id, pid, at, rt, now);
      case Revoke(token, hint, client) => RevokeStaysOver(cfg, w, id, token, hint, client);
      case Abort(pid, at, rt) => SpendStaysOver(w, id, pid, at, rt);
      case Lose(f, presented, refresh, access) => LoseStaysOver(w, id, f, presented, refresh, access);
    }
  }

  lemma OverMeansKnown(w: World, id: ID)
    requires Over(w, id)
    ensures id in w.families
  {
  }

  /** A dead family of which no refresh is under way never holds a live token again, whatever
      happens and however it interleaves. */
  lemma {:induction false} OverIsForever(cfg: Config, w: World, id: ID, es: seq<Event>)
    requires Inv(cfg, w) && Over(w, id) && Possible(cfg, w, es)
    ensures Over(Run(cfg, w, es), id)
    ensures Dead(Run(cfg, w, es).st, id)
    decreases |es|
  {
    hide Inv, Step, Enabled;
    if es != [] {
      StepKeepsInv(cfg, w, es[0]);
      StepStaysOver(cfg, w, id, es[0]);
      OverIsForever(cfg, Step(cfg, w, es[0]), id, es[1..]);
    }
  }

  /** Without the last condition of `Over` this fails, and exactly so: the second phase of a refresh
      that was let in before the family died brings it back to life if and only if the token its
      index names is still stored (inactive or not). Reuse detection of the newest token deletes
      it; revocation and code replay do not. */
  lemma WaitingRefreshRevives(cfg: Config, w: World, pid: nat, at: Generated, rt: Generated, now: Time)
    requires Inv(cfg, w) && pid in w.pending && w.pending[pid].PendingRefresh? && BothNew(w, at, rt)
    requires Dead(w.st, w.pending[pid].rq.id)
    ensures var id := w.pending[pid].rq.id;
            !Dead(DoPopulateRefresh(cfg, w, pid, at, rt, now).st, id)
            <==> (id in w.st.refreshIdx ==> w.st.refreshIdx[id] in w.st.refresh)
  {
    PopulateRefreshShape(cfg, w, pid, at, rt, now);
    var rq := w.pending[pid].rq;
    hide Inv, DoPopulateRefresh, Deactivated, Without, Sanitized, RefreshFlow.PresentedSig;
    SanitizedKeepsId(rq);
    if Rotate(w.st, rq.id).1.None? {
      var st' := DoPopulateRefresh(cfg, w, pid, at, rt, now).st;
      assert at.sig in st'.access && st'.access[at.sig].id == rq.id;
    }
  }

  /** The race in full: a refresh passes its first phase, the client then revokes the very token it
      presented and is told it succeeded, and the second phase issues new tokens all the same. */
  lemma RevocationLosesTheRace(cfg: Config, w: World, pid: nat, rq: Requester, hint: Option<TokenType>,
                               at: Generated, rt: Generated, now: Time, later: Time)
    requires Inv(cfg, w) && Ungranted(rq) && pid !in w.pending && BothNew(w, at, rt)
    requires RefreshFlow.Handle(cfg, w.st, rq, now).1 == None
    ensures var token := Get(rq.form, "refresh_token");
            var w1 := DoHandleRefresh(cfg, w, pid, rq, now);
            var id := w.st.refresh[cfg.signature(token)].req.id;
            var w2 := DoRevoke(cfg, w1, token, hint, rq.client);
            && Revocation.Revoke(cfg, w1.st, token, hint, rq.client).1 == None
            && Dead(w2.st, id)
            && !Dead(DoPopulateRefresh(cfg, w2, pid, at, rt, later).st, id)
  {
    var token := Get(rq.form, "refresh_token");
    var w1 := DoHandleRefresh(cfg, w, pid, rq, now);
    var w2 := DoRevoke(cfg, w1, token, hint, rq.client);
    HandleRefreshKeepsInv(cfg, w, pid, rq, now);
    RevokeKeepsInv(cfg, w1, token, hint, rq.client);
    LetIn(cfg, w, pid, rq, now);
    hide Inv, Dead, DoHandleRefresh, DoPopulateRefresh, Revocation.Revoke, DoRevoke, RefreshFlow.Handle;
    LiveRefreshRevoked(cfg, w1, token, hint, rq.client);
    RevokeKeepsPending(cfg, w1, token, hint, rq.client);
    WaitingRefreshRevives(cfg, w2, pid, at, rt, later);
  }

  lemma LetIn(cfg: Config, w: World, pid: nat, rq: Requester, now: Time)
    requires RefreshFlow.Handle(cfg, w.st, rq, now).1 == None
    ensures var w1 := DoHandleRefresh(cfg, w, pid, rq, now);
            var sig := cfg.signature(Get(rq.form, "refresh_token"));
            && LiveRefresh(w.st, sig)
            && w.st.refresh[sig].req.client.id == rq.client.id
            && w1.st == w.st && w1.used == w.used
            && pid in w1.pending && w1.pending[pid].PendingRefresh? && w1.pending[pid].rq.id == w.st.refresh[sig].req.id
  {
  }

  lemma RevokeKeepsPending(cfg: Config, w: World, token: string, hint: Option<TokenType>, client: Client)
    ensures var w' := DoRevoke(cfg, w, token, hint, client);
            w'.pending == w.pending && w'.used == w.used && w'.families == w.families
  {
  }

  lemma LiveRefreshRevoked(cfg: Config, w: World, token: string, hint: Option<TokenType>, client: Client)
    requires Inv(cfg, w) && LiveRefresh(w.st, cfg.signature(token))
    requires w.st.refresh[cfg.signature(token)].req.client.id == client.id
    ensures var st' := DoRevoke(cfg, w, token, hint, client).st;
            var id := w.st.refresh[cfg.signature(token)].req.id;
            && Revocation.Revoke(cfg, w.st, token, hint, client).1 == None
            && Dead(st', id)
            && id in st'.refreshIdx && st'.refreshIdx[id] in st'.refresh
  {
    InvIsApart(cfg, w);
    var sig := cfg.signature(token);
    var id := w.st.refresh[sig].req.id;
    assert Points(w.st.refreshIdx, id, sig) && sig !in w.st.access;
    KillEffect(w.st, id);
    hide Inv, Indexed, TokensApart, Dead, OnlyFamily, RevokeAccess, Deactivated;
  }

  // ---------------------------------------------------------------------------------------
  // Two refreshes of one token

  lemma LetInExactly(cfg: Config, w: World, pid: nat, rq: Requester, now: Time)
    requires RefreshFlow.Handle(cfg, w.st, rq, now).1 == None
    ensures var w1 := DoHandleRefresh(cfg, w, pid, rq, now);
            var sig := RefreshFlow.PresentedSig(cfg, rq);
            && sig in w.st.refresh && w.st.refresh[sig].active
            && pid in w1.pending
            && var rq1 := w1.pending[pid].rq;
               && w1 == w.(pending := w.pending[pid := PendingRefresh(rq1)])
               && rq1.id == w.st.refresh[sig].req.id && RefreshFlow.PresentedSig(cfg, rq1) == sig
  {
    hide RefreshFlow.CheckRefresh, RefreshFlow.Reuse, HasGrant, WithExpiries;
  }

  /** A second phase that finds the token its family's index entry names stored issues tokens. */
  lemma PopulateIssues(cfg: Config, w: World, pid: nat, at: Generated, rt: Generated, now: Time)
    requires pid in w.pending && rt.sig != ""
    requires var id := w.pending[pid].rq.id; id in w.st.refreshIdx && w.st.refreshIdx[id] in w.st.refresh
    ensures var rq := w.pending[pid].rq;
            var w' := DoPopulateRefresh(cfg, w, pid, at, rt, now);
            && w'.log == w.log + [Refreshed(rq.id, RefreshFlow.PresentedSig(cfg, rq), rt.sig)]
            && w'.pending == w.pending - {pid}
            && LiveRefresh(w'.st, rt.sig)
            && rq.id in w'.st.refreshIdx && w'.st.refreshIdx[rq.id] == rt.sig
  {
    hide DoPopulateRefresh, Sanitized, RevokeAccess, Deactivated, RefreshFlow.PresentedSig;
    PopulateRefreshShape(cfg, w, pid, at, rt, now);
    SanitizedKeepsId(w.pending[pid].rq);
  }

  /** When phases interleave, refreshes need not form a chain: from every reachable state in which two
      refreshes that present the same token are both let in, both of them issue tokens. */
  lemma OneTokenRefreshedTwice(cfg: Config, w: World, p1: nat, rq1: Requester, now1: Time, p2: nat, rq2: Requester,
                               now2: Time, at1: Generated, rt1: Generated, at2: Generated, rt2: Generated,
                               then1: Time, then2: Time)
    requires Inv(cfg, w) && p1 != p2
    requires RefreshFlow.Handle(cfg, w.st, rq1, now1).1 == None && RefreshFlow.Handle(cfg, w.st, rq2, now2).1 == None
    requires RefreshFlow.PresentedSig(cfg, rq1) == RefreshFlow.PresentedSig(cfg, rq2)
    requires rt1.sig != "" && rt2.sig != ""
    ensures var sig := RefreshFlow.PresentedSig(cfg, rq1);
            var id := w.st.refresh[sig].req.id;
            var w2 := DoHandleRefresh(cfg, DoHandleRefresh(cfg, w, p1, rq1, now1), p2, rq2, now2);
            && p1 in w2.pending
            && var w3 := DoPopulateRefresh(cfg, w2, p1, at1, rt1, then1);
               && p2 in w3.pending
               && var w4 := DoPopulateRefresh(cfg, w3, p2, at2, rt2, then2);
                  && w4.log == w.log + [Refreshed(id, sig, rt1.sig), Refreshed(id, sig, rt2.sig)]
                  && LiveRefresh(w3.st, rt1.sig) && LiveRefresh(w4.st, rt2.sig)
  {
    hide Inv, Indexed, TokensApart, DoHandleRefresh, DoPopulateRefresh, RefreshFlow.Handle, RefreshFlow.PresentedSig;
    InvIsApart(cfg, w);
    LetInExactly(cfg, w, p1, rq1, now1);
    var w1 := DoHandleRefresh(cfg, w, p1, rq1, now1);
    LetInExactly(cfg, w1, p2, rq2, now2);
    var w2 := DoHandleRefresh(cfg, w1, p2, rq2, now2);
    LiveIsPointed(w.st, RefreshFlow.PresentedSig(cfg, rq1));
    PopulateIssues(cfg, w2, p1, at1, rt1, then1);
    PopulateIssues(cfg, DoPopulateRefresh(cfg, w2, p1, at1, rt1, then1), p2, at2, rt2, then2);
  }

  lemma LiveIsPointed(st: State, sig: Sig)
    requires Indexed(st) && LiveRefresh(st, sig)
    ensures var id := st.refresh[sig].req.id; id in st.refreshIdx && st.refreshIdx[id] == sig
  {
    assert Points(st.refreshIdx, st.refresh[sig].req.id, sig);
  }
}
