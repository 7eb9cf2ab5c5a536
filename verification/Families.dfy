/** The invariant of the token store and why every store operation keeps it: a family has at most
    one stored access token and at most one active refresh token, and the request-ID indexes point
    at exactly those; every token of a family carries the family's client, scopes and audience;
    tokens exist only once the code they came from is spent. */
module Families {
  import opened Prelude
  import opened Requests
  import opened Store
  import opened Grants
  import opened Protocol
  import CodeFlow
  import RefreshFlow
  import DeviceFlow

  // ---------------------------------------------------------------------------------------
  // Liveness

  ghost predicate LiveAccess(st: State, sig: Sig) {
    sig in st.access
  }

  ghost predicate LiveRefresh(st: State, sig: Sig) {
    sig in st.refresh && st.refresh[sig].active
  }

  /** No token of this family is accepted any more. */
  ghost predicate Dead(st: State, id: ID) {
    && (forall s :: s in st.access ==> st.access[s].id != id)
    && (forall s :: s in st.refresh && st.refresh[s].active ==> st.refresh[s].req.id != id)
  }

  // ---------------------------------------------------------------------------------------
  // The indexes

  ghost predicate Points(idx: map<ID, Sig>, id: ID, s: Sig) {
    id in idx && idx[id] == s
  }

  /** Each stored token is the one its family's index entry names, and an entry that names a
      stored token names one of its own family. An entry may outlive its token. */
  ghost predicate AccessIndexed(access: map<Sig, Requester>, idx: map<ID, Sig>) {
    && (forall s :: s in access ==> Points(idx, access[s].id, s))
    && (forall id, s :: Points(idx, id, s) && s in access ==> access[s].id == id)
  }

  ghost predicate RefreshIndexed(refresh: map<Sig, RefreshRecord>, idx: map<ID, Sig>) {
    && (forall s :: s in refresh && refresh[s].active ==> Points(idx, refresh[s].req.id, s))
    && (forall id, s :: Points(idx, id, s) && s in refresh ==> refresh[s].req.id == id)
  }

  ghost predicate Indexed(st: State) {
    AccessIndexed(st.access, st.accessIdx) && RefreshIndexed(st.refresh, st.refreshIdx)
  }

  /** Stored and indexed signatures have been generated, and none is both kinds of token. */
  ghost predicate Apart(access: map<Sig, Requester>, refresh: map<Sig, RefreshRecord>,
                        accessIdx: map<ID, Sig>, refreshIdx: map<ID, Sig>, used: set<Sig>) {
    && (forall s :: s in access ==> s in used && s !in refresh)
    && (forall s :: s in refresh ==> s in used)
    && (forall id, s :: Points(accessIdx, id, s) ==> s in used)
    && (forall id, s :: Points(refreshIdx, id, s) ==> s in used)
  }

  ghost predicate TokensApart(st: State, used: set<Sig>) {
    Apart(st.access, st.refresh, st.accessIdx, st.refreshIdx, used)
  }

  /** What the index invariant gives: at most one live token of each kind per family. */
  lemma AtMostOneLive(st: State, s1: Sig, s2: Sig)
    requires Indexed(st)
    ensures LiveAccess(st, s1) && LiveAccess(st, s2) && st.access[s1].id == st.access[s2].id ==> s1 == s2
    ensures LiveRefresh(st, s1) && LiveRefresh(st, s2) && st.refresh[s1].req.id == st.refresh[s2].req.id ==> s1 == s2
  {
    if LiveAccess(st, s1) && LiveAccess(st, s2) && st.access[s1].id == st.access[s2].id {
      assert Points(st.accessIdx, st.access[s1].id, s1) && Points(st.accessIdx, st.access[s2].id, s2);
    }
    if LiveRefresh(st, s1) && LiveRefresh(st, s2) && st.refresh[s1].req.id == st.refresh[s2].req.id {
      assert Points(st.refreshIdx, st.refresh[s1].req.id, s1) && Points(st.refreshIdx, st.refresh[s2].req.id, s2);
    }
  }

  // ---------------------------------------------------------------------------------------
  // Operations that only take tokens away

  ghost predicate Shrunk(st: State, st': State) {
    && st' == st.(access := st'.access, refresh := st'.refresh)
    && (forall s :: s in st'.access ==> s in st.access && st'.access[s] == st.access[s])
    && (forall s :: s in st'.refresh ==>
          s in st.refresh && st'.refresh[s].req == st.refresh[s].req
          && (st'.refresh[s].active ==> st.refresh[s].active))
  }

  /** Nothing of another family is touched. */
  ghost predicate OnlyFamily(st: State, st': State, id: ID) {
    && (forall s :: s in st.access && st.access[s].id != id ==> s in st'.access && st'.access[s] == st.access[s])
    && (forall s :: s in st.refresh && st.refresh[s].req.id != id ==>
         s in st'.refresh && st'.refresh[s] == st.refresh[s])
  }

  lemma DeactivatedIndexed(refresh: map<Sig, RefreshRecord>, idx: map<ID, Sig>, id: ID)
    requires RefreshIndexed(refresh, idx)
    ensures var refresh' := Deactivated(refresh, idx, id);
            && RefreshIndexed(refresh', idx)
            && refresh'.Keys == refresh.Keys
            && (forall s :: s in refresh' ==> refresh'[s].req == refresh[s].req)
            && (forall s :: s in refresh' ==> (refresh'[s].active <==> refresh[s].active && refresh[s].req.id != id))
            && (forall s :: s in refresh && refresh[s].req.id != id ==> refresh'[s] == refresh[s])
  {
    var refresh' := Deactivated(refresh, idx, id);
    forall s | s in refresh
      ensures refresh'[s].active <==> refresh[s].active && refresh[s].req.id != id
    {
      assert refresh[s].active ==> Points(idx, refresh[s].req.id, s);
      assert id in idx && s == idx[id] ==> Points(idx, id, s);
    }
    forall s | s in refresh && refresh[s].req.id != id
      ensures refresh'[s] == refresh[s]
    {
      assert id in idx && s == idx[id] ==> Points(idx, id, s);
    }
  }

  lemma RevokeRefreshEffect(st: State, id: ID)
    requires Indexed(st)
    ensures var st' := RevokeRefresh(st, id).0;
            && Shrunk(st, st') && Indexed(st') && OnlyFamily(st, st', id)
            && st'.access == st.access && st'.refresh.Keys == st.refresh.Keys
            && (forall s :: s in st'.refresh && st'.refresh[s].active ==> st'.refresh[s].req.id != id)
  {
    DeactivatedIndexed(st.refresh, st.refreshIdx, id);
    hide Deactivated, AccessIndexed, RefreshIndexed;
  }

  lemma DropAccessIndexed(access: map<Sig, Requester>, idx: map<ID, Sig>, id: ID)
    requires AccessIndexed(access, idx)
    ensures var access' := Without(access, idx, id);
            && AccessIndexed(access', idx)
            && (forall s :: s in access' ==> s in access && access'[s] == access[s] && access'[s].id != id)
            && (forall s :: s in access && access[s].id != id ==> s in access')
  {
    var access' := Without(access, idx, id);
    forall s | s in access
      ensures access[s].id == id <==> s !in access'
    {
      assert Points(idx, access[s].id, s);
      assert id in idx && s == idx[id] ==> Points(idx, id, s);
    }
    forall s | s in access'
      ensures Points(idx, access'[s].id, s)
    {
      assert Points(idx, access[s].id, s);
    }
  }

  lemma RevokeAccessEffect(st: State, id: ID)
    requires Indexed(st)
    ensures var st' := RevokeAccess(st, id);
            && Shrunk(st, st') && Indexed(st') && OnlyFamily(st, st', id)
            && st'.refresh == st.refresh
            && (forall s :: s in st'.access ==> st'.access[s].id != id)
  {
    DropAccessIndexed(st.access, st.accessIdx, id);
    hide Without, AccessIndexed, RefreshIndexed;
  }

  lemma DeleteRefreshEffect(st: State, sig: Sig)
    requires Indexed(st) && sig in st.refresh
    ensures var st' := DeleteRefresh(st, sig);
            Shrunk(st, st') && Indexed(st') && OnlyFamily(st, st', st.refresh[sig].req.id)
  {
  }

  /** The order of the two revocations makes no difference. */
  lemma ReplayIsKill(st: State, id: ID)
    ensures CodeFlow.Replay(st, id) == RevokeAccess(RevokeRefresh(st, id).0, id)
    ensures Rotate(st, id).1 == None ==> Rotate(st, id).0 == RevokeAccess(RevokeRefresh(st, id).0, id)
  {
    hide Deactivated, Without;
  }

  /** Rotation, revocation of a token, replay of a code and reuse of a refresh token all end the
      whole family and nothing else. */
  lemma KillEffect(st: State, id: ID)
    requires Indexed(st)
    ensures var st' := RevokeAccess(RevokeRefresh(st, id).0, id);
            && Shrunk(st, st') && Indexed(st') && OnlyFamily(st, st', id) && Dead(st', id)
            && st'.refresh.Keys == st.refresh.Keys
  {
    hide Deactivated, Without, AccessIndexed, RefreshIndexed;
    RevokeRefreshEffect(st, id);
    RevokeAccessEffect(RevokeRefresh(st, id).0, id);
  }

  lemma ReuseEffect(st: State, sig: Sig)
    requires Indexed(st) && sig in st.refresh
    ensures var id := st.refresh[sig].req.id;
            var st' := RefreshFlow.Reuse(st, sig, id);
            && Shrunk(st, st') && Indexed(st') && OnlyFamily(st, st', id) && Dead(st', id)
            && st'.refresh.Keys == st.refresh.Keys - {sig}
  {
    DeleteRefreshEffect(st, sig);
    KillEffect(DeleteRefresh(st, sig), st.refresh[sig].req.id);
  }

  // ---------------------------------------------------------------------------------------
  // Families

  ghost predicate Conforms(families: map<ID, Family>, req: Requester) {
    && req.id in families
    && families[req.id].granted == Some(Granted(req.grantedScope, req.grantedAudience, req.session.subject))
    && families[req.id].client == req.client.id
    && NoRepeats(req.grantedScope) && NoRepeats(req.grantedAudience)
  }

  ghost predicate TokensConform(access: map<Sig, Requester>, refresh: map<Sig, RefreshRecord>,
                                families: map<ID, Family>)
  {
    && (forall s :: s in access ==> Conforms(families, access[s]))
    && (forall s :: s in refresh ==> Conforms(families, refresh[s].req))
  }

  ghost predicate CodesKnown(codes: map<Sig, CodeRecord>, families: map<ID, Family>, used: set<Sig>) {
    forall s :: s in codes ==>
      var id := codes[s].req.id;
      && s in used
      && id in families
      && families[id].origin == FromCode(s)
      && families[id].client == codes[s].req.client.id
      && (codes[s].active <==> families[id].granted == None)
  }

  ghost predicate DevicesKnown(devices: map<Sig, DeviceRecord>, families: map<ID, Family>) {
    forall s :: s in devices ==>
      var id := devices[s].req.id;
      && id in families
      && families[id].origin.FromDevice?
      && families[id].client == devices[s].req.client.id
      && s in {families[id].origin.deviceSig, families[id].origin.userSig}
      && (s == families[id].origin.deviceSig ==> families[id].granted == None)
  }

  ghost predicate OriginsUsed(families: map<ID, Family>, used: set<Sig>, genuine: set<Sig>) {
    && genuine <= used
    && forall id :: id in families && families[id].origin.FromDevice? ==>
         && families[id].origin.deviceSig in used
         && families[id].origin.userSig in used && families[id].origin.userSig !in genuine
  }

  ghost predicate PendingKnown(cfg: Config, p: Pending, families: map<ID, Family>,
                               codes: map<Sig, CodeRecord>, devices: map<Sig, DeviceRecord>) {
    var rq := p.rq;
    && rq.id in families
    && families[rq.id].client == rq.client.id
    && match p
       case PendingCode(_) =>
         var sig := CodeFlow.PresentedSig(cfg, rq);
         && Ungranted(rq) && sig in codes && codes[sig].req.id == rq.id
         && rq.session.subject == codes[sig].req.session.subject
         && (AuthorizeCode in codes[sig].req.session.expiresAt <==> AuthorizeCode in rq.session.expiresAt)
         && (AuthorizeCode in rq.session.expiresAt ==>
               rq.session.expiresAt[AuthorizeCode] == codes[sig].req.session.expiresAt[AuthorizeCode])
       case PendingDevice(_) =>
         var sig := DeviceFlow.PresentedSig(cfg, rq);
         && Ungranted(rq)
         && families[rq.id].origin.FromDevice? && families[rq.id].origin.deviceSig == sig
         && (sig in devices ==>
               devices[sig].req.id == rq.id && devices[sig].req.session.subject == rq.session.subject)
       case PendingRefresh(_) => Conforms(families, rq)
  }

  ghost predicate AllPendingKnown(cfg: Config, pending: map<nat, Pending>, families: map<ID, Family>,
                                  codes: map<Sig, CodeRecord>, devices: map<Sig, DeviceRecord>) {
    forall pid :: pid in pending ==> PendingKnown(cfg, pending[pid], families, codes, devices)
  }

  ghost predicate Inv(cfg: Config, w: World) {
    && Indexed(w.st)
    && TokensApart(w.st, w.used)
    && TokensConform(w.st.access, w.st.refresh, w.families)
    && CodesKnown(w.st.codes, w.families, w.used)
    && DevicesKnown(w.st.devices, w.families)
    && OriginsUsed(w.families, w.used, w.genuine)
    && AllPendingKnown(cfg, w.pending, w.families, w.st.codes, w.st.devices)
  }

  lemma StartInv(cfg: Config)
    ensures Inv(cfg, START)
  {
  }

  lemma ShrunkKeepsApart(st: State, st': State, used: set<Sig>, families: map<ID, Family>)
    requires Shrunk(st, st') && TokensApart(st, used) && TokensConform(st.access, st.refresh, families)
    ensures TokensApart(st', used) && TokensConform(st'.access, st'.refresh, families)
  {
  }

  lemma ShrunkKeepsInv(cfg: Config, w: World, st': State)
    requires Inv(cfg, w) && Shrunk(w.st, st') && Indexed(st')
    ensures Inv(cfg, w.(st := st'))
  {
    ShrunkKeepsApart(w.st, st', w.used, w.families);
    assert st'.codes == w.st.codes && st'.devices == w.st.devices;
    hide Indexed, TokensApart, TokensConform, CodesKnown, DevicesKnown, OriginsUsed, AllPendingKnown, Shrunk;
  }

  lemma CreateAccessIndexed(access: map<Sig, Requester>, idx: map<ID, Sig>, at: Sig, req: Requester)
    requires AccessIndexed(access, idx)
    requires at !in access && (forall s :: s in access ==> access[s].id != req.id)
    requires forall id, s :: Points(idx, id, s) ==> s != at
    ensures AccessIndexed(access[at := req], idx[req.id := at])
  {
    var access', idx' := access[at := req], idx[req.id := at];
    forall s | s in access'
      ensures Points(idx', access'[s].id, s)
    {
      assert s != at ==> Points(idx, access[s].id, s);
    }
    forall id, s | Points(idx', id, s) && s in access'
      ensures access'[s].id == id
    {
      assert id != req.id ==> Points(idx, id, s);
    }
  }

  lemma CreateRefreshIndexed(refresh: map<Sig, RefreshRecord>, idx: map<ID, Sig>, rt: Sig, rec: RefreshRecord)
    requires RefreshIndexed(refresh, idx)
    requires rt !in refresh && (forall s :: s in refresh && refresh[s].active ==> refresh[s].req.id != rec.req.id)
    requires forall id, s :: Points(idx, id, s) ==> s != rt
    ensures RefreshIndexed(refresh[rt := rec], idx[rec.req.id := rt])
  {
    var refresh', idx' := refresh[rt := rec], idx[rec.req.id := rt];
    forall s | s in refresh' && refresh'[s].active
      ensures Points(idx', refresh'[s].req.id, s)
    {
      assert s != rt ==> Points(idx, refresh[s].req.id, s);
    }
    forall id, s | Points(idx', id, s) && s in refresh'
      ensures refresh'[s].req.id == id
    {
      assert id != rec.req.id ==> Points(idx, id, s);
    }
  }

  /** A family without live tokens receives new ones under unused signatures. */
  lemma IssueIndexed(st: State, req: Requester, at: Sig, rt: Option<Generated>, used: set<Sig>, used': set<Sig>)
    requires Indexed(st) && TokensApart(st, used) && Dead(st, req.id)
    requires at !in used && (rt.Some? ==> rt.value.sig !in used && rt.value.sig != at)
    requires used <= used' && at in used' && (rt.Some? ==> rt.value.sig in used')
    ensures Indexed(CodeFlow.Issue(st, req, at, rt))
    ensures TokensApart(CodeFlow.Issue(st, req, at, rt), used')
  {
    var st1 := CreateAccess(st, at, req);
    CreateAccessIndexed(st.access, st.accessIdx, at, req);
    forall id, s | Points(st1.accessIdx, id, s)
      ensures s in used'
    {
      assert id != req.id ==> Points(st.accessIdx, id, s);
    }
    if rt.Some? && rt.value.sig != "" {
      var st2 := CreateRefresh(st1, rt.value.sig, at, req);
      CreateRefreshIndexed(st1.refresh, st1.refreshIdx, rt.value.sig, RefreshRecord(true, at, req));
      forall id, s | Points(st2.refreshIdx, id, s)
        ensures s in used'
      {
        assert id != req.id ==> Points(st.refreshIdx, id, s);
      }
    }
  }

  lemma CreateConforms(access: map<Sig, Requester>, refresh: map<Sig, RefreshRecord>, families: map<ID, Family>,
                       at: Sig, req: Requester, rt: Sig)
    requires TokensConform(access, refresh, families) && Conforms(families, req)
    ensures TokensConform(access[at := req], refresh, families)
    ensures TokensConform(access[at := req], refresh[rt := RefreshRecord(true, at, req)], families)
  {
    hide Conforms;
  }

  lemma IssueConforms(st: State, req: Requester, at: Sig, rt: Option<Generated>, families: map<ID, Family>)
    requires TokensConform(st.access, st.refresh, families) && Conforms(families, req)
    ensures var st' := CodeFlow.Issue(st, req, at, rt); TokensConform(st'.access, st'.refresh, families)
  {
    hide Conforms;
    CreateConforms(st.access, st.refresh, families, at, req, if rt.Some? then rt.value.sig else "");
    hide TokensConform;
  }

  /** No token exists for a family whose code or device code is still to be redeemed. */
  lemma UngrantedIsDead(st: State, families: map<ID, Family>, id: ID)
    requires TokensConform(st.access, st.refresh, families)
    requires id in families ==> families[id].granted == None
    ensures Dead(st, id)
    ensures forall s :: s in st.refresh ==> st.refresh[s].req.id != id
  {
  }
}
