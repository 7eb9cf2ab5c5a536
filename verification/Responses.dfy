/** What the second phases hand out and what they store with it (section 5.1 of RFC 6749): the tokens
    in the response are the ones that were stored, with the scopes and the expiry stored with them. */
module Responses {
  import opened Prelude
  import opened Requests
  import opened Store
  import opened Grants
  import opened Protocol
  import opened Families
  import opened Runs
  import opened Decisions
  import opened Conservation
  import Arguments
  import CodeFlow
  import DeviceFlow
  import Expiry
  import PasswordFlow
  import RefreshFlow

  /** The response names the access token that was stored, the scopes stored with it, and the whole
      seconds to the expiry stored with it, or else the grant's lifespan. */
  ghost predicate HandsOutAccess(cfg: Config, grant: Grant, resp: Response, st: State, at: Generated, now: Time) {
    && resp.accessToken == at.token
    && LiveAccess(st, at.sig)
    && var stored := st.access[at.sig];
       && resp.scopes == stored.grantedScope
       && resp.expiresIn == Expiry.WholeSeconds(
            if AccessToken in stored.session.expiresAt then stored.session.expiresAt[AccessToken] - now
            else cfg.lifespan(stored.client, grant, AccessToken))
  }

  /** The refresh token is handed out and stored with the same request, or neither. A generated token
      and its signature are empty together. */
  ghost predicate HandsOutRefresh(resp: Response, st: State, st': State, at: Generated, rt: Generated, issued: bool) {
    && resp.refreshToken == (if issued then Some(rt.token) else None)
    && (issued ==> LiveRefresh(st', rt.sig) && LiveAccess(st', at.sig)
                   && st'.refresh[rt.sig] == RefreshRecord(true, at.sig, st'.access[at.sig]))
    && (!issued ==> st'.refresh == st.refresh)
  }

  predicate Whole(t: Generated) {
    t.token != "" && t.sig != ""
  }

  /** What storing new tokens and filling in the response have in common, whatever the grant. */
  lemma HandedOut(cfg: Config, st1: State, rq: Requester, grant: Grant, at: Generated, rt: Generated, issued: bool,
                  now: Time)
    requires Whole(rt)
    ensures var r := if issued then Some(rt) else None;
            var st' := CodeFlow.Issue(st1, Sanitized(rq, {}), at.sig, r);
            && HandsOutAccess(cfg, grant, MakeResponse(cfg, rq, grant, at, r, now), st', at, now)
            && HandsOutRefresh(MakeResponse(cfg, rq, grant, at, r, now), st1, st', at, rt, issued)
            && st'.codes == st1.codes && st'.devices == st1.devices
            && st'.access[at.sig] == Sanitized(rq, {})
  {
  }

  /** Whether a refresh token was issued is seen from the refresh tokens only. */
  lemma SameRefreshTokens(st: State, sig: Sig, at: Generated, rt: Generated)
    ensures forall resp, st', issued ::
              HandsOutRefresh(resp, st, st', at, rt, issued)
              <==> HandsOutRefresh(resp, InvalidateCode(st, sig).0, st', at, rt, issued)
    ensures forall resp, st', issued ::
              HandsOutRefresh(resp, st, st', at, rt, issued)
              <==> HandsOutRefresh(resp, InvalidateDevice(st, sig), st', at, rt, issued)
  {
  }

  /** A code's tokens: a refresh token is issued if and only if the client of the authorization may
      refresh and was granted a refresh scope, if one is configured; the code is spent. */
  lemma CodeResponse(cfg: Config, st: State, rq: Requester, at: Generated, rt: Generated, now: Time)
    requires Whole(rt) && CodeFlow.Populate(cfg, st, rq, Some(at), Some(rt), now).1 == None
    ensures var (st', _, resp) := CodeFlow.Populate(cfg, st, rq, Some(at), Some(rt), now);
            var sig := cfg.signature(Get(rq.form, "code"));
            && resp.Some? && sig in st.codes && sig in st'.codes && !st'.codes[sig].active
            && var ar := st.codes[sig].req;
               && HandsOutAccess(cfg, CodeGrant, resp.value, st', at, now)
               && HandsOutRefresh(resp.value, st, st', at, rt,
                    (cfg.refreshScopes == [] || Arguments.HasSome(ar.grantedScope, cfg.refreshScopes))
                    && Arguments.InSlice("refresh_token", ar.client.grantTypes))
               && st'.access[at.sig].id == rq.id && st'.access[at.sig].client == rq.client
               && st'.access[at.sig].session == rq.session
               && (forall x :: x in st'.access[at.sig].grantedScope <==> x in rq.grantedScope || x in ar.grantedScope)
               && (forall x ::
                     x in st'.access[at.sig].grantedAudience <==> x in rq.grantedAudience || x in ar.grantedAudience)
  {
    hide Arguments.InSlice, Arguments.HasSome, ValidateCode, CodeFlow.Issue, MakeResponse, HandsOutAccess,
      HandsOutRefresh, AppendAll;
    var sig := cfg.signature(Get(rq.form, "code"));
    var ar := st.codes[sig].req;
    HandedOut(cfg, InvalidateCode(st, sig).0, Granting(rq, ar), CodeGrant, at, rt,
              CanIssueRefresh(cfg, ar.grantedScope, ar.client), now);
    SameRefreshTokens(st, sig, at, rt);
    AppendAllMembers(rq.grantedScope, ar.grantedScope);
    AppendAllMembers(rq.grantedAudience, ar.grantedAudience);
  }

  /** A device code's tokens: the refresh token depends on what the request holds once the session's
      grants are added; the code is gone. */
  lemma DeviceResponse(cfg: Config, st: State, rq: Requester, at: Generated, rt: Generated, now: Time)
    requires Whole(rt) && DeviceFlow.Populate(cfg, st, rq, Some(at), Some(rt), now).1 == None
    ensures var (st', _, resp) := DeviceFlow.Populate(cfg, st, rq, Some(at), Some(rt), now);
            var sig := cfg.signature(Get(rq.form, "device_code"));
            && resp.Some? && sig in st.devices && sig !in st'.devices
            && var ar := st.devices[sig].req;
               && HandsOutAccess(cfg, DeviceGrant, resp.value, st', at, now)
               && HandsOutRefresh(resp.value, st, st', at, rt,
                    (cfg.refreshScopes == []
                     || Arguments.HasSome(st'.access[at.sig].grantedScope, cfg.refreshScopes))
                    && Arguments.InSlice("refresh_token", rq.client.grantTypes))
               && st'.access[at.sig].id == rq.id && st'.access[at.sig].client == rq.client
               && st'.access[at.sig].session == rq.session
               && (forall x :: x in st'.access[at.sig].grantedScope <==> x in rq.grantedScope || x in ar.grantedScope)
               && (forall x ::
                     x in st'.access[at.sig].grantedAudience <==> x in rq.grantedAudience || x in ar.grantedAudience)
  {
    hide Arguments.InSlice, Arguments.HasSome, ValidateDevice, CodeFlow.Issue, MakeResponse, HandsOutAccess,
      HandsOutRefresh, AppendAll;
    var sig := cfg.signature(Get(rq.form, "device_code"));
    var ar := st.devices[sig].req;
    var granted := Granting(rq, ar);
    HandedOut(cfg, InvalidateDevice(st, sig), granted, DeviceGrant, at, rt,
              CanIssueRefresh(cfg, granted.grantedScope, granted.client), now);
    SameRefreshTokens(st, sig, at, rt);
    AppendAllMembers(rq.grantedScope, ar.grantedScope);
    AppendAllMembers(rq.grantedAudience, ar.grantedAudience);
  }

  /** A password's tokens. Unlike the other grants, this one hands a refresh token also to a client
      that may not refresh. */
  lemma PasswordResponse(cfg: Config, st: State, rq: Requester, at: Generated, rt: Generated, now: Time)
    requires Whole(rt)
    ensures var (st', err, resp) := PasswordFlow.Populate(cfg, st, rq, Some(at), Some(rt), now);
            && err == None && resp.Some?
            && HandsOutAccess(cfg, PasswordGrant, resp.value, st', at, now)
            && HandsOutRefresh(resp.value, st, st', at, rt,
                 cfg.refreshScopes == [] || Arguments.HasSome(rq.grantedScope, cfg.refreshScopes))
            && st'.access[at.sig].id == rq.id && st'.access[at.sig].client == rq.client
            && st'.access[at.sig].session == rq.session
            && st'.access[at.sig].grantedScope == rq.grantedScope
            && st'.access[at.sig].grantedAudience == rq.grantedAudience
  {
    hide Arguments.HasSome, MakeResponse, HandsOutAccess, HandsOutRefresh;
    HandedOut(cfg, st, rq, PasswordGrant, at, rt, RefreshAllowed(cfg, rq.grantedScope), now);
  }

  /** A refresh's tokens. */
  lemma RefreshResponse(cfg: Config, st: State, rq: Requester, at: Generated, rt: Generated, now: Time)
    requires RefreshFlow.Populate(cfg, st, rq, Some(at), Some(rt), now).1 == None
    ensures var (st', _, resp) := RefreshFlow.Populate(cfg, st, rq, Some(at), Some(rt), now);
            && resp.Some?
            && HandsOutAccess(cfg, RefreshGrant, resp.value, st', at, now)
            && resp.value.refreshToken == Some(rt.token)
            && LiveRefresh(st', rt.sig)
            && st'.refresh[rt.sig] == RefreshRecord(true, at.sig, st'.access[at.sig])
            && st'.access[at.sig].id == rq.id && st'.access[at.sig].client == rq.client
            && st'.access[at.sig].session == rq.session
            && st'.access[at.sig].grantedScope == rq.grantedScope
            && st'.access[at.sig].grantedAudience == rq.grantedAudience
  {
    hide Deactivated, Without;
  }

  // ---------------------------------------------------------------------------------------
  // The presented token of a waiting refresh belongs to its family for as long as it is stored.

  ghost predicate PresentedKnown(cfg: Config, w: World) {
    forall pid :: pid in w.pending && w.pending[pid].PendingRefresh? ==>
      var sig := RefreshFlow.PresentedSig(cfg, w.pending[pid].rq);
      sig in w.used && (sig in w.st.refresh ==> w.st.refresh[sig].req.id == w.pending[pid].rq.id)
  }

  /** A request waits as before, or has just been let in. */
  lemma PendingFrom(cfg: Config, w: World, e: Event, pid: nat)
    requires Enabled(cfg, w, e) && pid in Step(cfg, w, e).pending && Step(cfg, w, e).pending[pid].PendingRefresh?
    ensures (pid in w.pending && Step(cfg, w, e).pending[pid] == w.pending[pid])
            || (e.HandleRefresh? && e.pid == pid && RefreshFlow.Handle(cfg, w.st, e.rq, e.now).1 == None)
    ensures w.used <= Step(cfg, w, e).used
  {
    hide CodeFlow.Handle, DeviceFlow.Handle, RefreshFlow.Handle, CodeFlow.Populate, DeviceFlow.Populate,
      RefreshFlow.Populate, PasswordFlow.Handle, PasswordFlow.Populate, BothNew, Genuine, Ungranted, AddFamily,
      FirstGrant, Granting, PasswordRequest, CodeIssues, DecideUserCode, PasswordGranted, PasswordIssues;
  }

  lemma StepKeepsPresented(cfg: Config, w: World, e: Event)
    requires Inv(cfg, w) && Enabled(cfg, w, e) && PresentedKnown(cfg, w)
    ensures PresentedKnown(cfg, Step(cfg, w, e))
  {
    StepFrugal(cfg, w, e);
    InvIsApart(cfg, w);
    var w' := Step(cfg, w, e);
    forall pid | pid in w'.pending && w'.pending[pid].PendingRefresh?
      ensures var sig := RefreshFlow.PresentedSig(cfg, w'.pending[pid].rq);
              sig in w'.used && (sig in w'.st.refresh ==> w'.st.refresh[sig].req.id == w'.pending[pid].rq.id)
    {
      PendingFrom(cfg, w, e, pid);
      if !(pid in w.pending && w'.pending[pid] == w.pending[pid]) {
        NewlyLetIn(cfg, w, pid, e.rq, e.now);
      }
    }
    hide Inv, Indexed, Step, Enabled;
  }

  lemma NewlyLetIn(cfg: Config, w: World, pid: nat, rq: Requester, now: Time)
    requires RefreshFlow.Handle(cfg, w.st, rq, now).1 == None && TokensApart(w.st, w.used)
    ensures var w' := DoHandleRefresh(cfg, w, pid, rq, now);
            && pid in w'.pending && w'.used == w.used && w'.st == w.st
            && var sig := RefreshFlow.PresentedSig(cfg, w'.pending[pid].rq);
               sig in w.used && sig in w.st.refresh && w.st.refresh[sig].req.id == w'.pending[pid].rq.id
  {
    hide RefreshFlow.CheckRefresh, RefreshFlow.Reuse, HasGrant, WithExpiries;
  }

  lemma {:induction false} RunKeepsPresented(cfg: Config, w: World, es: seq<Event>)
    requires Inv(cfg, w) && PresentedKnown(cfg, w) && Possible(cfg, w, es)
    ensures PresentedKnown(cfg, Run(cfg, w, es))
    decreases |es|
  {
    hide Inv, PresentedKnown, Step, Enabled;
    if es != [] {
      StepKeepsInv(cfg, w, es[0]);
      StepKeepsPresented(cfg, w, es[0]);
      RunKeepsPresented(cfg, Step(cfg, w, es[0]), es[1..]);
    }
  }

  /** After a refresh in any reachable state both tokens in the response are live, and the one that was
      presented is not: the client's next refresh with the token it was given is no reuse. */
  lemma RefreshHandsOutLiveTokens(cfg: Config, es: seq<Event>, pid: nat, at: Generated, rt: Generated, now: Time)
    requires Possible(cfg, START, es)
    requires var w := Run(cfg, START, es); pid in w.pending && w.pending[pid].PendingRefresh? && BothNew(w, at, rt)
    requires cfg.signature(at.token) == at.sig && cfg.signature(rt.token) == rt.sig
    requires var w := Run(cfg, START, es);
             RefreshFlow.Populate(cfg, w.st, w.pending[pid].rq, Some(at), Some(rt), now).1 == None
    ensures var w := Run(cfg, START, es);
            var rq := w.pending[pid].rq;
            var (st', _, resp) := RefreshFlow.Populate(cfg, w.st, rq, Some(at), Some(rt), now);
            && resp.Some? && resp.value.refreshToken.Some?
            && LiveAccess(st', cfg.signature(resp.value.accessToken))
            && LiveRefresh(st', cfg.signature(resp.value.refreshToken.value))
            && !LiveRefresh(st', cfg.signature(Get(rq.form, "refresh_token")))
  {
    hide Run, Possible, Step, Enabled, RefreshFlow.Populate, Inv;
    Reached(cfg, es);
    StartInv(cfg);
    RunKeepsPresented(cfg, START, es);
    RotatedAway(cfg, Run(cfg, START, es), pid, at, rt, now);
  }

  lemma RotatedAway(cfg: Config, w: World, pid: nat, at: Generated, rt: Generated, now: Time)
    requires Inv(cfg, w) && PresentedKnown(cfg, w)
    requires pid in w.pending && w.pending[pid].PendingRefresh? && BothNew(w, at, rt)
    requires RefreshFlow.Populate(cfg, w.st, w.pending[pid].rq, Some(at), Some(rt), now).1 == None
    ensures var rq := w.pending[pid].rq;
            var (st', _, resp) := RefreshFlow.Populate(cfg, w.st, rq, Some(at), Some(rt), now);
            && resp.Some? && resp.value.accessToken == at.token && resp.value.refreshToken == Some(rt.token)
            && LiveAccess(st', at.sig) && LiveRefresh(st', rt.sig)
            && !LiveRefresh(st', RefreshFlow.PresentedSig(cfg, rq))
  {
    InvIsApart(cfg, w);
    hide Inv, Indexed, TokensApart;
    var rq := w.pending[pid].rq;
    RefreshResponse(cfg, w.st, rq, at, rt, now);
    KillEffect(w.st, rq.id);
    ReplayIsKill(w.st, rq.id);
    hide RevokeAccess, RevokeRefresh, Sanitized, MakeResponse, HandsOutAccess, OnlyFamily;
  }
}
