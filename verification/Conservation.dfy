/** What a family was granted stays what it was granted, and what introspection affirms of a
    refreshed token is within what the client was allowed when it refreshed. */
module Conservation {
  import opened Prelude
  import opened Requests
  import opened Store
  import opened Grants
  import opened Protocol
  import opened Families
  import opened Runs
  import CodeFlow
  import DeviceFlow
  import RefreshFlow
  import Revocation
  import Introspection
  import Queries
  import ScopeStrategies

  // ---------------------------------------------------------------------------------------
  // What one step can do to tokens and families

  /** Every stored token was stored before with the same content, or its signature is new; no
      refresh token that was inactive is active again. */
  ghost predicate TokensFrom(st: State, st': State, used: set<Sig>) {
    && (forall s :: s in st'.access ==> (s in st.access && st'.access[s] == st.access[s]) || s !in used)
    && (forall s :: s in st'.refresh ==> 
          || (s in st.refresh && st'.refresh[s].req == st.refresh[s].req
               && (st'.refresh[s].active ==> st.refresh[s].active))
          || s !in used)
  }

  ghost predicate GrantsPersist(families: map<ID, Family>, families': map<ID, Family>) {
    forall id :: id in families && families[id].granted.Some? ==> id in families' && families'[id] == families[id]
  }

  lemma ShrunkTokens(st: State, st': State, used: set<Sig>)
    requires Shrunk(st, st')
    ensures TokensFrom(st, st', used)
  {
  }

  lemma IssueTokens(st: State, st1: State, req: Requester, at: Sig, rt: Option<Generated>, used: set<Sig>)
    requires TokensFrom(st, st1, used)
    requires at !in used && (rt.Some? ==> rt.value.sig !in used)
    ensures TokensFrom(st, CodeFlow.Issue(st1, req, at, rt), used)
  {
  }

  lemma KillTokens(st: State, id: ID, used: set<Sig>)
    requires Indexed(st)
    ensures TokensFrom(st, RevokeAccess(RevokeRefresh(st, id).0, id), used)
    ensures TokensFrom(st, CodeFlow.Replay(st, id), used)
  {
    KillEffect(st, id);
    ReplayIsKill(st, id);
    hide RevokeAccess, RevokeRefresh, Indexed, CodeFlow.Replay;
  }

  lemma CodesKeepTokens(st: State, st': State, used: set<Sig>)
    requires st'.access == st.access && st'.refresh == st.refresh
    ensures TokensFrom(st, st', used)
  {
  }

  lemma FirstGrantPersists(families: map<ID, Family>, rq: Requester)
    requires rq.id in families && families[rq.id].granted == None
    ensures GrantsPersist(families, FirstGrant(families, rq))
  {
  }

  /** The effect of a step on stored tokens and recorded grants. */
  ghost predicate Frugal(w: World, w': World) {
    TokensFrom(w.st, w'.st, w.used) && GrantsPersist(w.families, w'.families) && w.used <= w'.used
  }

  lemma PopulateCodeFrugal(cfg: Config, w: World, pid: nat, at: Generated, rt: Generated, now: Time)
    requires Inv(cfg, w) && pid in w.pending && w.pending[pid].PendingCode? && BothNew(w, at, rt)
    ensures Frugal(w, DoPopulateCode(cfg, w, pid, at, rt, now))
  {
    hide Inv, TokensFrom, CodeFlow.Issue, Sanitized, CanIssueRefresh, SigOf, DoPopulateCode, CodeFlow.PresentedSig,
      FirstGrant;
    PendingCodeFacts(cfg, w, pid);
    PopulateCodeShape(cfg, w, pid, at, rt, now);
    var rq := w.pending[pid].rq;
    var sig := CodeFlow.PresentedSig(cfg, rq);
    var ar, st1 := w.st.codes[sig].req, InvalidateCode(w.st, sig).0;
    var granted := Granting(rq, ar);
    CodesKeepTokens(w.st, w.st, w.used);
    CodesKeepTokens(w.st, st1, w.used);
    IssueTokens(w.st, st1, Sanitized(granted, {}), at.sig, CodeIssues(cfg, ar, rt), w.used);
    if DoPopulateCode(cfg, w, pid, at, rt, now) != Spend(w, pid, at, rt) {
      FirstGrantPersists(w.families, granted);
    }
  }

  lemma PopulateDeviceFrugal(cfg: Config, w: World, pid: nat, at: Generated, rt: Generated, now: Time)
    requires Inv(cfg, w) && pid in w.pending && w.pending[pid].PendingDevice? && BothNew(w, at, rt)
    ensures Frugal(w, DoPopulateDevice(cfg, w, pid, at, rt, now))
  {
    hide Inv, TokensFrom, CodeFlow.Issue, Sanitized, CanIssueRefresh, SigOf, DoPopulateDevice,
      DeviceFlow.PresentedSig, FirstGrant;
    PendingDeviceFacts(cfg, w, pid);
    PopulateDeviceShape(cfg, w, pid, at, rt, now);
    var rq := w.pending[pid].rq;
    var sig := DeviceFlow.PresentedSig(cfg, rq);
    CodesKeepTokens(w.st, w.st, w.used);
    if DoPopulateDevice(cfg, w, pid, at, rt, now) != Spend(w, pid, at, rt) {
      var granted, st1 := Granting(rq, w.st.devices[sig].req), InvalidateDevice(w.st, sig);
      CodesKeepTokens(w.st, st1, w.used);
      IssueTokens(w.st, st1, Sanitized(granted, {}), at.sig, CodeIssues(cfg, granted, rt), w.used);
      FirstGrantPersists(w.families, granted);
    }
  }

  lemma PasswordFrugal(cfg: Config, w: World, rq0: Requester, scopes: seq<string>, audience: seq<string>,
                       at: Generated, rt: Generated, now: Time, half: bool)
    requires BothNew(w, at, rt) && rq0.id !in w.families
    ensures Frugal(w, DoPassword(cfg, w, rq0, scopes, audience, at, rt, now, half))
  {
    hide TokensFrom, CodeFlow.Issue, Sanitized, RefreshAllowed, SigOf, DoPassword, PasswordRequest, NoRepeats;
    PasswordShape(cfg, w, rq0, scopes, audience, at, rt, now, half);
    var rq := PasswordRequest(cfg, rq0, scopes, audience, now);
    CodesKeepTokens(w.st, w.st, w.used);
    IssueTokens(w.st, w.st, Sanitized(rq, {}), at.sig, PasswordIssues(cfg, rq, rt, half), w.used);
  }

  lemma PopulateRefreshFrugal(cfg: Config, w: World, pid: nat, at: Generated, rt: Generated, now: Time)
    requires Indexed(w.st) && pid in w.pending && BothNew(w, at, rt)
    ensures Frugal(w, DoPopulateRefresh(cfg, w, pid, at, rt, now))
  {
    PopulateRefreshShape(cfg, w, pid, at, rt, now);
    var rq := w.pending[pid].rq;
    KillTokens(w.st, rq.id, w.used);
    hide TokensFrom, CodeFlow.Issue, Sanitized, DoPopulateRefresh, RevokeAccess, RevokeRefresh, Rotate,
      RefreshFlow.PresentedSig, AccessIndexed, RefreshIndexed;
    CodesKeepTokens(w.st, w.st, w.used);
    IssueTokens(w.st, RevokeAccess(RevokeRefresh(w.st, rq.id).0, rq.id), Sanitized(rq, {}), at.sig, Some(rt), w.used);
  }

  lemma HandleCodeFrugal(cfg: Config, w: World, pid: nat, rq: Requester, now: Time)
    requires Indexed(w.st)
    ensures Frugal(w, DoHandleCode(cfg, w, pid, rq, now))
  {
    hide CodeFlow.Replay, CodeFlow.CheckCode, CodeFlow.Hydrated, HasGrant, TokensFrom, AccessIndexed, RefreshIndexed;
    CodesKeepTokens(w.st, w.st, w.used);
    var sig := CodeFlow.PresentedSig(cfg, rq);
    if sig in w.st.codes {
      KillTokens(w.st, w.st.codes[sig].req.id, w.used);
    }
  }

  lemma HandleRefreshFrugal(cfg: Config, w: World, pid: nat, rq: Requester, now: Time)
    requires Indexed(w.st)
    ensures Frugal(w, DoHandleRefresh(cfg, w, pid, rq, now))
  {
    hide RefreshFlow.Reuse, RefreshFlow.CheckRefresh, RefreshFlow.Renewed, HasGrant, TokensFrom, AccessIndexed,
      RefreshIndexed, Shrunk;
    CodesKeepTokens(w.st, w.st, w.used);
    var sig := RefreshFlow.PresentedSig(cfg, rq);
    if sig in w.st.refresh {
      ReuseEffect(w.st, sig);
      ShrunkTokens(w.st, RefreshFlow.Reuse(w.st, sig, w.st.refresh[sig].req.id), w.used);
    }
  }

  lemma RevokeFrugal(cfg: Config, w: World, token: string, hint: Option<TokenType>, client: Client)
    requires Indexed(w.st)
    ensures Frugal(w, DoRevoke(cfg, w, token, hint, client))
  {
    hide RevokeAccess, RevokeRefresh, TokensFrom, AccessIndexed, RefreshIndexed, Revocation.Revoke;
    RevokeShape(cfg, w.st, token, hint, client);
    CodesKeepTokens(w.st, w.st, w.used);
    var sig := cfg.signature(token);
    if sig in w.st.access { KillTokens(w.st, w.st.access[sig].id, w.used); }
    if sig in w.st.refresh { KillTokens(w.st, w.st.refresh[sig].req.id, w.used); }
  }

  lemma SpendFrugal(w: World, pid: nat, at: Generated, rt: Generated)
    ensures Frugal(w, Spend(w, pid, at, rt))
  {
  }

  lemma LoseFrugal(w: World, id: ID, presented: Option<Sig>, refresh: bool, access: bool)
    requires Indexed(w.st)
    ensures Frugal(w, DoLose(w, id, presented, refresh, access))
  {
    hide Indexed, DoLose, Shrunk, TokensFrom;
    LostIsShrunk(w, id, presented, refresh, access);
    ShrunkTokens(w.st, DoLose(w, id, presented, refresh, access).st, w.used);
  }

  lemma HandleDeviceFrugal(cfg: Config, w: World, pid: nat, rq: Requester, now: Time)
    ensures Frugal(w, DoHandleDevice(cfg, w, pid, rq, now))
  {
    hide DeviceFlow.Hydrated, DeviceFlow.Session, ValidateDevice, HasGrant;
  }

  lemma StartsFrugal(w: World, code: Sig, user: Sig, req: Requester)
    requires req.id !in w.families
    ensures Frugal(w, DoAuthorize(w, code, req))
    ensures Frugal(w, DoStartDevice(w, code, user, req))
  {
  }

  lemma DecideFrugal(w: World, id: ID, decision: UserCodeState, scopes: seq<string>, audience: seq<string>)
    ensures Frugal(w, DoDecide(w, id, decision, scopes, audience))
  {
    hide DecideUserCode;
  }

  /** No step changes a stored token or a recorded grant; new tokens have new signatures. */
  lemma StepFrugal(cfg: Config, w: World, e: Event)
    requires Inv(cfg, w) && Enabled(cfg, w, e)
    ensures Frugal(w, Step(cfg, w, e))
  {
    InvIsApart(cfg, w);
    hide Inv, Indexed, TokensApart, Frugal, DoAuthorize, DoStartDevice, DoDecide, DoPopulateCode, DoPopulateDevice,
      DoPassword, DoPopulateRefresh, DoHandleCode, DoHandleDevice, DoHandleRefresh, DoRevoke, DoLose, Spend;
    match e
    case Authorize(code, ar) => StartsFrugal(w, code, code, ar);
    case StartDevice(d, u, dar) => StartsFrugal(w, d, u, dar);
    case Decide(id, decision, scopes, audience) => DecideFrugal(w, id, decision, scopes, audience);
    case HandleCode(pid, rq, now) => HandleCodeFrugal(cfg, w, pid, rq, now);
    case PopulateCode(pid, at, rt, now) => PopulateCodeFrugal(cfg, w, pid, at, rt, now);
    case HandleDevice(pid, rq, now) => HandleDeviceFrugal(cfg, w, pid, rq, now);
    case PopulateDevice(pid, at, rt, now) => PopulateDeviceFrugal(cfg, w, pid, at, rt, now);
    case Password(rq, scopes, audience, at, rt, now, half) =>
      PasswordFrugal(cfg, w, rq, scopes, audience, at, rt, now, half);
    case HandleRefresh(pid, rq, now) => HandleRefreshFrugal(cfg, w, pid, rq, now);
    case PopulateRefresh(pid, at, rt, now) => PopulateRefreshFrugal(cfg, w, pid, at, rt, now);
    case Revoke(token, hint, client) => RevokeFrugal(cfg, w, token, hint, client);
    case Abort(pid, at, rt) => SpendFrugal(w, pid, at, rt);
    case Lose(id, presented, refresh, access) => LoseFrugal(w, id, presented, refresh, access);
  }

  lemma TokensFromTransitive(st: State, st1: State, st2: State, used: set<Sig>, used1: set<Sig>)
    requires TokensFrom(st, st1, used) && TokensFrom(st1, st2, used1) && used <= used1
    ensures TokensFrom(st, st2, used)
  {
  }

  lemma {:induction false} RunPersists(cfg: Config, w: World, es: seq<Event>)
    requires Inv(cfg, w) && Possible(cfg, w, es)
    ensures Inv(cfg, Run(cfg, w, es))
    ensures GrantsPersist(w.families, Run(cfg, w, es).families)
    ensures TokensFrom(w.st, Run(cfg, w, es).st, w.used)
    decreases |es|
  {
    if es != [] {
      var w1 := Step(cfg, w, es[0]);
      StepKeepsInv(cfg, w, es[0]);
      StepFrugal(cfg, w, es[0]);
      hide Inv, Step, Enabled, TokensFrom;
      RunPersists(cfg, w1, es[1..]);
      TokensFromTransitive(w.st, w1.st, Run(cfg, w1, es[1..]).st, w.used, w1.used);
    } else {
      ShrunkTokens(w.st, w.st, w.used);
    }
  }

  /** Any two tokens of one family, however far apart in a run and however many refreshes lie
      between, have the same client, the same scopes and the same audience. */
  lemma FamilyIsConserved(cfg: Config, before: seq<Event>, after: seq<Event>, s1: Sig, s2: Sig)
    requires Possible(cfg, START, before) && Possible(cfg, Run(cfg, START, before), after)
    requires var st1 := Run(cfg, START, before).st; s1 in st1.access || s1 in st1.refresh
    requires var st2 := Run(cfg, Run(cfg, START, before), after).st; s2 in st2.access || s2 in st2.refresh
    ensures var t1 := Queries.Owner(Run(cfg, START, before).st, s1);
            var t2 := Queries.Owner(Run(cfg, Run(cfg, START, before), after).st, s2);
            t1.id == t2.id ==>
              && t1.client.id == t2.client.id
              && t1.grantedScope == t2.grantedScope
              && t1.grantedAudience == t2.grantedAudience
  {
    hide Step, Enabled, Inv, TokensFrom, Run, Possible, NoRepeats;
    StartInv(cfg);
    RunKeepsInv(cfg, START, before);
    var w1 := Run(cfg, START, before);
    RunPersists(cfg, w1, after);
    var w2 := Run(cfg, w1, after);
    StoredConforms(cfg, w1, s1);
    StoredConforms(cfg, w2, s2);
  }

  lemma StoredConforms(cfg: Config, w: World, s: Sig)
    requires Inv(cfg, w) && (s in w.st.access || s in w.st.refresh)
    ensures Conforms(w.families, Queries.Owner(w.st, s))
  {
  }

  /** A token that is no longer live, be it rotated, revoked, reused or taken down with its family,
      is never live again and introspection never affirms it again, whatever happens afterwards and
      however it interleaves. */
  lemma DeadTokensStayDead(cfg: Config, before: seq<Event>, after: seq<Event>, token: string, hint: Option<TokenType>,
                           rq: Requester, scopes: seq<string>, now: Time)
    requires Possible(cfg, START, before) && Possible(cfg, Run(cfg, START, before), after)
    requires var w := Run(cfg, START, before);
             cfg.signature(token) in w.used && !Queries.Live(w.st, cfg.signature(token))
    ensures var st := Run(cfg, Run(cfg, START, before), after).st;
            && !Queries.Live(st, cfg.signature(token))
            && Introspection.Introspect(cfg, false, st, token, hint, rq, scopes, now).Inactive?
  {
    hide Step, Enabled, Inv, Introspection.Introspect;
    StartInv(cfg);
    RunKeepsInv(cfg, START, before);
    var w1 := Run(cfg, START, before);
    RunPersists(cfg, w1, after);
    var w2 := Run(cfg, w1, after);
    InvIsApart(cfg, w2);
    hide Indexed, TokensApart, Run, Possible;
    Queries.IntrospectionExact(cfg, w2.st, w2.used, token, hint, rq, scopes, now);
  }

  // ---------------------------------------------------------------------------------------
  // Refreshed tokens stay within the client's scopes

  ghost predicate TokenCovered(cfg: Config, renewed: map<Sig, Client>, s: Sig, req: Requester) {
    s in renewed ==> req.client == renewed[s] && AllScopesMatch(cfg, req.client.scopes, req.grantedScope)
  }

  ghost predicate TokensCovered(cfg: Config, st: State, renewed: map<Sig, Client>, used: set<Sig>) {
    && renewed.Keys <= used
    && (forall s :: s in st.access ==> TokenCovered(cfg, renewed, s, st.access[s]))
    && (forall s :: s in st.refresh ==> TokenCovered(cfg, renewed, s, st.refresh[s].req))
  }

  ghost predicate PendingCovered(cfg: Config, pending: map<nat, Pending>) {
    forall pid :: pid in pending && pending[pid].PendingRefresh? ==>
      AllScopesMatch(cfg, pending[pid].rq.client.scopes, pending[pid].rq.grantedScope)
  }

  ghost predicate Covered(cfg: Config, w: World) {
    TokensCovered(cfg, w.st, w.renewed, w.used) && PendingCovered(cfg, w.pending)
  }

  lemma FrugalKeepsCovered(cfg: Config, w: World, w': World)
    requires Covered(cfg, w) && TokensFrom(w.st, w'.st, w.used) && w'.renewed == w.renewed && w.used <= w'.used
    ensures TokensCovered(cfg, w'.st, w'.renewed, w'.used)
  {
    hide AllScopesMatch;
    forall s | s in w'.st.access
      ensures TokenCovered(cfg, w'.renewed, s, w'.st.access[s])
    {
      assert s in w.st.access ==> TokenCovered(cfg, w.renewed, s, w.st.access[s]);
    }
    forall s | s in w'.st.refresh
      ensures TokenCovered(cfg, w'.renewed, s, w'.st.refresh[s].req)
    {
      assert s in w.st.refresh ==> TokenCovered(cfg, w.renewed, s, w.st.refresh[s].req);
    }
  }

  lemma HandleRefreshKeepsCovered(cfg: Config, w: World, pid: nat, rq: Requester, now: Time)
    requires Inv(cfg, w) && Covered(cfg, w) && Ungranted(rq)
    ensures PendingCovered(cfg, DoHandleRefresh(cfg, w, pid, rq, now).pending)
  {
    var sig := RefreshFlow.PresentedSig(cfg, rq);
    var (st, err, rq') := RefreshFlow.Handle(cfg, w.st, rq, now);
    if err.None? {
      var orig := w.st.refresh[sig].req;
      assert Conforms(w.families, orig) by {
        hide AccessIndexed, RefreshIndexed, Apart, CodesKnown, DevicesKnown, AllPendingKnown, OriginsUsed;
      }
      hide Inv;
      RenewedConforms(cfg, w.families, rq, orig, now);
    }
  }

  lemma IssueKeepsCovered(cfg: Config, st: State, req: Requester, at: Sig, rt: Generated, renewed: map<Sig, Client>,
                          used: set<Sig>)
    requires TokensCovered(cfg, st, renewed, used)
    requires at !in st.access && at !in st.refresh && rt.sig !in st.access && rt.sig !in st.refresh
    requires AllScopesMatch(cfg, req.client.scopes, req.grantedScope) && rt.sig != ""
    ensures TokensCovered(cfg, CodeFlow.Issue(st, req, at, Some(rt)), renewed[at := req.client][rt.sig := req.client],
                          used + {at, rt.sig})
  {
    var st' := CodeFlow.Issue(st, req, at, Some(rt));
    assert st'.access == st.access[at := req];
    assert st'.refresh == st.refresh[rt.sig := RefreshRecord(true, at, req)];
    hide AllScopesMatch, CodeFlow.Issue;
    var renewed' := renewed[at := req.client][rt.sig := req.client];
    forall s | s in st'.access
      ensures TokenCovered(cfg, renewed', s, st'.access[s])
    {
      assert s in st.access ==> TokenCovered(cfg, renewed, s, st.access[s]);
    }
    forall s | s in st'.refresh
      ensures TokenCovered(cfg, renewed', s, st'.refresh[s].req)
    {
      assert s in st.refresh ==> TokenCovered(cfg, renewed, s, st.refresh[s].req);
    }
  }

  lemma KillKeepsCovered(cfg: Config, st: State, id: ID, renewed: map<Sig, Client>, used: set<Sig>)
    requires Indexed(st) && TokensApart(st, used) && TokensCovered(cfg, st, renewed, used)
    ensures var st' := RevokeAccess(RevokeRefresh(st, id).0, id);
            && TokensCovered(cfg, st', renewed, used)
            && (forall s :: s in st'.access || s in st'.refresh ==> s in used)
  {
    KillEffect(st, id);
    hide RevokeAccess, RevokeRefresh, AllScopesMatch, AccessIndexed, RefreshIndexed;
  }

  lemma PopulateRefreshKeepsCovered(cfg: Config, w: World, pid: nat, at: Generated, rt: Generated, now: Time)
    requires Inv(cfg, w) && Covered(cfg, w) && pid in w.pending && w.pending[pid].PendingRefresh? && BothNew(w, at, rt)
    ensures Covered(cfg, DoPopulateRefresh(cfg, w, pid, at, rt, now))
  {
    PopulateRefreshShape(cfg, w, pid, at, rt, now);
    InvIsApart(cfg, w);
    var rq := w.pending[pid].rq;
    KillKeepsCovered(cfg, w.st, rq.id, w.renewed, w.used);
    hide Inv, CodeFlow.Issue, DoPopulateRefresh, RevokeAccess, RevokeRefresh, Rotate, RefreshFlow.PresentedSig,
      AccessIndexed, RefreshIndexed, Apart, AllScopesMatch, TokenCovered;
    var w1, w' := Spend(w, pid, at, rt), DoPopulateRefresh(cfg, w, pid, at, rt, now);
    var st1 := RevokeAccess(RevokeRefresh(w.st, rq.id).0, rq.id);
    if w' != w1 {
      assert AllScopesMatch(cfg, rq.client.scopes, rq.grantedScope);
      IssueKeepsCovered(cfg, st1, Sanitized(rq, {}), at.sig, rt, w.renewed, w.used);
    }
  }

  lemma PendingShape(cfg: Config, w: World, e: Event)
    requires Enabled(cfg, w, e) && PendingCovered(cfg, w.pending)
    requires !e.HandleRefresh? && !e.PopulateRefresh?
    ensures PendingCovered(cfg, Step(cfg, w, e).pending)
    ensures Step(cfg, w, e).renewed == w.renewed && w.used <= Step(cfg, w, e).used
  {
    hide CodeFlow.Handle, DeviceFlow.Handle, CodeFlow.Populate, DeviceFlow.Populate, Revocation.Revoke, AllScopesMatch,
      DecideUserCode, Granting, CodeIssues, PasswordRequest, PasswordIssues, SigOf, FirstGrant, AddFamily;
  }

  lemma StepKeepsCovered(cfg: Config, w: World, e: Event)
    requires Inv(cfg, w) && Covered(cfg, w) && Enabled(cfg, w, e)
    ensures Covered(cfg, Step(cfg, w, e))
  {
    if e.PopulateRefresh? {
      hide Inv, Covered, DoPopulateRefresh;
      PopulateRefreshKeepsCovered(cfg, w, e.pid, e.at, e.rt, e.now);
    } else if e.HandleRefresh? {
      StepFrugal(cfg, w, e);
      HandleRefreshKeepsCovered(cfg, w, e.pid, e.rq, e.now);
      hide Inv, RefreshFlow.Handle, TokensFrom, TokensCovered;
      FrugalKeepsCovered(cfg, w, Step(cfg, w, e));
    } else {
      StepFrugal(cfg, w, e);
      hide Inv, Step, Enabled, TokensFrom, TokensCovered, PendingCovered;
      PendingShape(cfg, w, e);
      FrugalKeepsCovered(cfg, w, Step(cfg, w, e));
    }
  }

  lemma {:induction false} RunKeepsCovered(cfg: Config, w: World, es: seq<Event>)
    requires Inv(cfg, w) && Covered(cfg, w) && Possible(cfg, w, es)
    ensures Covered(cfg, Run(cfg, w, es))
    decreases |es|
  {
    hide Inv, Step, Enabled, Covered;
    if es != [] {
      StepKeepsInv(cfg, w, es[0]);
      StepKeepsCovered(cfg, w, es[0]);
      RunKeepsCovered(cfg, Step(cfg, w, es[0]), es[1..]);
    }
  }

  /** The request a live token resolves to in an introspection. */
  ghost predicate Affirms(cfg: Config, st: State, token: string, hint: Option<TokenType>, rq: Requester,
                          scopes: seq<string>, now: Time)
  {
    Introspection.Introspect(cfg, false, st, token, hint, rq, scopes, now).Active?
  }

  /** Whatever non-empty scope introspection affirms of a token issued by a refresh is covered by
      the scopes its client had when it refreshed, because the strategies are transitive. */
  lemma AffirmedScopesAreAllowed(cfg: Config, es: seq<Event>, token: string, hint: Option<TokenType>,
                                 rq: Requester, scopes: seq<string>, i: nat, now: Time)
    requires Possible(cfg, START, es)
    requires ScopeStrategies.Transitive(cfg.scopeStrategy)
    requires cfg.signature(token) in Run(cfg, START, es).renewed
    requires Affirms(cfg, Run(cfg, START, es).st, token, hint, rq, scopes, now)
    requires i < |scopes| && scopes[i] != ""
    ensures cfg.scopeStrategy(Run(cfg, START, es).renewed[cfg.signature(token)].scopes, scopes[i])
  {
    hide Step, Enabled;
    StartInv(cfg);
    RunKeepsCovered(cfg, START, es);
    var w := Run(cfg, START, es);
    var sig := cfg.signature(token);
    hide Inv, Possible, Run;
    AffirmedIsStored(cfg, w.st, token, hint, rq, scopes, now);
    var req := if sig in w.st.access && Introspection.ScopesCovered(cfg, w.st.access[sig].grantedScope, scopes)
               then w.st.access[sig] else w.st.refresh[sig].req;
    assert TokenCovered(cfg, w.renewed, sig, req);
    assert cfg.scopeStrategy(req.grantedScope, scopes[i]);
    assert ScopeStrategies.CoversAll(cfg.scopeStrategy, req.client.scopes, req.grantedScope);
  }

  lemma AffirmedIsStored(cfg: Config, st: State, token: string, hint: Option<TokenType>, rq: Requester,
                         scopes: seq<string>, now: Time)
    requires Affirms(cfg, st, token, hint, rq, scopes, now)
    ensures var sig := cfg.signature(token);
            || (sig in st.access && Introspection.ScopesCovered(cfg, st.access[sig].grantedScope, scopes))
            || (sig in st.refresh && Introspection.ScopesCovered(cfg, st.refresh[sig].req.grantedScope, scopes))
  {
    hide Introspection.ScopesCovered, ValidateAccess, ValidateRefresh, Merged;
  }

  /** Each of the library's own strategies is transitive, so for them the result holds as it is. */
  lemma AffirmedScopesAreAllowedByOwnStrategies(cfg: Config, es: seq<Event>, token: string, hint: Option<TokenType>,
                                                rq: Requester, scopes: seq<string>, i: nat, now: Time)
    requires Possible(cfg, START, es)
    requires || cfg.scopeStrategy == ScopeStrategies.Exact
             || cfg.scopeStrategy == ScopeStrategies.Hierarchic
             || cfg.scopeStrategy == ScopeStrategies.Wildcard
    requires cfg.signature(token) in Run(cfg, START, es).renewed
    requires Affirms(cfg, Run(cfg, START, es).st, token, hint, rq, scopes, now)
    requires i < |scopes| && scopes[i] != ""
    ensures cfg.scopeStrategy(Run(cfg, START, es).renewed[cfg.signature(token)].scopes, scopes[i])
  {
    hide Possible, Run, Affirms;
    ScopeStrategies.StrategiesAreTransitive();
    AffirmedScopesAreAllowed(cfg, es, token, hint, rq, scopes, i, now);
  }
}
