/** Every step of the protocol keeps the invariant, so every run does. */
module Runs {
  import opened Prelude
  import opened Requests
  import opened Store
  import opened Grants
  import opened Protocol
  import opened Families
  import CodeFlow
  import DeviceFlow
  import PasswordFlow
  import RefreshFlow
  import Revocation

  // ---------------------------------------------------------------------------------------
  // How the parts of the invariant survive a change of the registry

  lemma MoreUsed(st: State, families: map<ID, Family>, used: set<Sig>, used': set<Sig>, genuine: set<Sig>,
                 genuine': set<Sig>)
    requires TokensApart(st, used) && CodesKnown(st.codes, families, used) && OriginsUsed(families, used, genuine)
    requires used <= used' && genuine' <= used' && genuine <= genuine' && genuine' - genuine <= used' - used
    ensures TokensApart(st, used') && CodesKnown(st.codes, families, used') && OriginsUsed(families, used', genuine')
  {
  }

  lemma SpendKeepsInv(cfg: Config, w: World, pid: nat, at: Generated, rt: Generated)
    requires Inv(cfg, w) && BothNew(w, at, rt)
    ensures Inv(cfg, Spend(w, pid, at, rt))
  {
    var w' := Spend(w, pid, at, rt);
    assert AllPendingKnown(cfg, w'.pending, w.families, w.st.codes, w.st.devices);
    hide Indexed, TokensApart, TokensConform, CodesKnown, DevicesKnown, OriginsUsed, AllPendingKnown;
    MoreUsed(w.st, w.families, w.used, w'.used, w.genuine, w'.genuine);
  }

  lemma AddFamilyKeepsTokens(access: map<Sig, Requester>, refresh: map<Sig, RefreshRecord>, families: map<ID, Family>,
                             id: ID, origin: Origin, client: string)
    requires TokensConform(access, refresh, families) && id !in families
    ensures TokensConform(access, refresh, AddFamily(families, id, origin, client))
  {
  }

  lemma AddFamilyKeepsCodes(codes: map<Sig, CodeRecord>, devices: map<Sig, DeviceRecord>, families: map<ID, Family>,
                            used: set<Sig>, id: ID, origin: Origin, client: string)
    requires CodesKnown(codes, families, used) && DevicesKnown(devices, families) && id !in families
    ensures CodesKnown(codes, AddFamily(families, id, origin, client), used)
    ensures DevicesKnown(devices, AddFamily(families, id, origin, client))
  {
  }

  lemma AddFamilyKeepsPending(cfg: Config, pending: map<nat, Pending>, codes: map<Sig, CodeRecord>,
                              devices: map<Sig, DeviceRecord>, families: map<ID, Family>, id: ID, origin: Origin,
                              client: string)
    requires AllPendingKnown(cfg, pending, families, codes, devices) && id !in families
    ensures AllPendingKnown(cfg, pending, AddFamily(families, id, origin, client), codes, devices)
  {
    forall pid | pid in pending
      ensures PendingKnown(cfg, pending[pid], AddFamily(families, id, origin, client), codes, devices)
    {
      assert PendingKnown(cfg, pending[pid], families, codes, devices);
    }
  }

  /** A new, ungranted family changes nothing that is known about the others. */
  lemma AddFamilyKeeps(cfg: Config, w: World, id: ID, origin: Origin, client: string)
    requires Inv(cfg, w) && id !in w.families
    ensures var families := AddFamily(w.families, id, origin, client);
            && TokensConform(w.st.access, w.st.refresh, families)
            && CodesKnown(w.st.codes, families, w.used)
            && DevicesKnown(w.st.devices, families)
            && AllPendingKnown(cfg, w.pending, families, w.st.codes, w.st.devices)
  {
    hide AccessIndexed, RefreshIndexed, Apart, TokensConform, CodesKnown, DevicesKnown, OriginsUsed, AllPendingKnown,
      AddFamily;
    AddFamilyKeepsTokens(w.st.access, w.st.refresh, w.families, id, origin, client);
    AddFamilyKeepsCodes(w.st.codes, w.st.devices, w.families, w.used, id, origin, client);
    AddFamilyKeepsPending(cfg, w.pending, w.st.codes, w.st.devices, w.families, id, origin, client);
  }

  lemma AwaitKeepsInv(cfg: Config, w: World, pid: nat, p: Pending)
    requires Inv(cfg, w) && PendingKnown(cfg, p, w.families, w.st.codes, w.st.devices)
    ensures Inv(cfg, w.(pending := w.pending[pid := p]))
  {
    hide Indexed, TokensApart, TokensConform, CodesKnown, DevicesKnown, OriginsUsed, PendingKnown;
  }

  /** Recording a family's first grant, its code or device code being spent in the same breath. */
  ghost predicate Spent(codes: map<Sig, CodeRecord>, codes': map<Sig, CodeRecord>,
                        devices: map<Sig, DeviceRecord>, devices': map<Sig, DeviceRecord>,
                        families: map<ID, Family>, id: ID) {
    && codes'.Keys == codes.Keys
    && (forall s :: s in codes' ==> codes'[s].req == codes[s].req)
    && (forall s :: s in codes' ==> (codes'[s].active <==> codes[s].active && codes'[s].req.id != id))
    && (forall s :: s in devices' ==> s in devices && devices'[s] == devices[s])
    && id in families && families[id].granted == None
    && (families[id].origin.FromDevice? ==> families[id].origin.deviceSig !in devices')
  }

  lemma FirstGrantKeepsCodes(codes: map<Sig, CodeRecord>, codes': map<Sig, CodeRecord>,
                             devices: map<Sig, DeviceRecord>, devices': map<Sig, DeviceRecord>,
                             families: map<ID, Family>, used: set<Sig>, rq: Requester)
    requires CodesKnown(codes, families, used) && DevicesKnown(devices, families)
    requires Spent(codes, codes', devices, devices', families, rq.id)
    ensures CodesKnown(codes', FirstGrant(families, rq), used)
    ensures DevicesKnown(devices', FirstGrant(families, rq))
  {
  }

  lemma FirstGrantKeepsTokens(access: map<Sig, Requester>, refresh: map<Sig, RefreshRecord>,
                              families: map<ID, Family>, rq: Requester)
    requires TokensConform(access, refresh, families)
    requires rq.id in families && families[rq.id].granted == None
    ensures TokensConform(access, refresh, FirstGrant(families, rq))
  {
    assert forall s :: s in access ==> Conforms(families, access[s]);
    assert forall s :: s in refresh ==> Conforms(families, refresh[s].req);
  }

  lemma FirstGrantKeepsPending(cfg: Config, pending: map<nat, Pending>, codes: map<Sig, CodeRecord>,
                               codes': map<Sig, CodeRecord>, devices: map<Sig, DeviceRecord>,
                               devices': map<Sig, DeviceRecord>, families: map<ID, Family>, rq: Requester)
    requires AllPendingKnown(cfg, pending, families, codes, devices)
    requires Spent(codes, codes', devices, devices', families, rq.id)
    ensures AllPendingKnown(cfg, pending, FirstGrant(families, rq), codes', devices')
  {
    forall p | p in pending
      ensures PendingKnown(cfg, pending[p], FirstGrant(families, rq), codes', devices')
    {
      assert PendingKnown(cfg, pending[p], families, codes, devices);
    }
  }

  lemma FirstGrantKeepsOrigins(families: map<ID, Family>, rq: Requester, used: set<Sig>, genuine: set<Sig>)
    requires OriginsUsed(families, used, genuine)
    ensures OriginsUsed(FirstGrant(families, rq), used, genuine)
  {
  }

  lemma FirstGrantKeepsInv(cfg: Config, w: World, st: State, rq: Requester)
    requires Inv(cfg, w)
    requires Spent(w.st.codes, st.codes, w.st.devices, st.devices, w.families, rq.id)
    requires st == w.st.(codes := st.codes, devices := st.devices)
    ensures Inv(cfg, w.(st := st, families := FirstGrant(w.families, rq)))
    ensures Dead(st, rq.id)
  {
    UngrantedIsDead(w.st, w.families, rq.id);
    hide AccessIndexed, RefreshIndexed, Apart, TokensConform, CodesKnown, DevicesKnown, OriginsUsed, AllPendingKnown,
      FirstGrant;
    FirstGrantKeepsCodes(w.st.codes, st.codes, w.st.devices, st.devices, w.families, w.used, rq);
    FirstGrantKeepsTokens(w.st.access, w.st.refresh, w.families, rq);
    FirstGrantKeepsPending(cfg, w.pending, w.st.codes, st.codes, w.st.devices, st.devices, w.families, rq);
    FirstGrantKeepsOrigins(w.families, rq, w.used, w.genuine);
  }

  /** Storing new tokens of a family that has no live one. */
  lemma IssueKeepsInv(cfg: Config, w: World, req: Requester, at: Sig, rt: Option<Generated>, fromUsed: set<Sig>)
    requires Inv(cfg, w) && Dead(w.st, req.id) && Conforms(w.families, req)
    requires TokensApart(w.st, fromUsed) && fromUsed <= w.used
    requires at !in fromUsed && at in w.used
    requires rt.Some? ==> rt.value.sig !in fromUsed && rt.value.sig != at && rt.value.sig in w.used
    ensures Inv(cfg, w.(st := CodeFlow.Issue(w.st, req, at, rt)))
  {
    hide Indexed, TokensApart, TokensConform, CodesKnown, DevicesKnown, OriginsUsed, AllPendingKnown, Conforms, Dead;
    IssueIndexed(w.st, req, at, rt, fromUsed, w.used);
    IssueConforms(w.st, req, at, rt, w.families);
  }

  lemma GrantedConforms(families: map<ID, Family>, rq: Requester, ar: Requester)
    requires rq.id in families && families[rq.id].client == rq.client.id && Ungranted(rq)
    ensures Conforms(FirstGrant(families, Granting(rq, ar)), Sanitized(Granting(rq, ar), {}))
  {
    AppendAllMembers([], ar.grantedScope);
    AppendAllMembers([], ar.grantedAudience);
  }

  // ---------------------------------------------------------------------------------------
  // Starts

  lemma AuthorizeKeepsInv(cfg: Config, w: World, code: Sig, ar: Requester)
    requires Inv(cfg, w) && code !in w.used && ar.id !in w.families
    ensures Inv(cfg, DoAuthorize(w, code, ar))
  {
    var w' := DoAuthorize(w, code, ar);
    AddFamilyKeeps(cfg, w, ar.id, FromCode(code), ar.client.id);
    MoreUsed(w.st, w.families, w.used, w'.used, w.genuine, w'.genuine);
    assert OriginsUsed(w'.families, w'.used, w'.genuine);
    AuthorizeKeepsPending(cfg, w.pending, w'.families, w.st.codes, w.st.devices, code, ar, w.used);
    hide AccessIndexed, RefreshIndexed, TokensConform, DevicesKnown, OriginsUsed, AllPendingKnown;
  }

  lemma AuthorizeKeepsPending(cfg: Config, pending: map<nat, Pending>, families: map<ID, Family>,
                              codes: map<Sig, CodeRecord>, devices: map<Sig, DeviceRecord>, code: Sig, ar: Requester,
                              used: set<Sig>)
    requires AllPendingKnown(cfg, pending, families, codes, devices)
    requires code !in codes
    ensures AllPendingKnown(cfg, pending, families, codes[code := CodeRecord(true, ar)], devices)
  {
    forall pid | pid in pending
      ensures PendingKnown(cfg, pending[pid], families, codes[code := CodeRecord(true, ar)], devices)
    {
      assert PendingKnown(cfg, pending[pid], families, codes, devices);
    }
  }

  lemma StartDeviceKeepsDevices(devices: map<Sig, DeviceRecord>, families: map<ID, Family>, used: set<Sig>,
                                genuine: set<Sig>, d: Sig, u: Sig, dar: Requester)
    requires DevicesKnown(devices, families) && OriginsUsed(families, used, genuine)
    requires d != u && d !in used && u !in used && dar.id !in families
    ensures var families' := AddFamily(families, dar.id, FromDevice(d, u), dar.client.id);
            var rec := DeviceRecord(UserCodeState.Unused, dar);
            && DevicesKnown(devices[d := rec][u := rec], families')
            && OriginsUsed(families', used + {d, u}, genuine + {d})
  {
  }

  lemma StartDeviceKeepsPending(cfg: Config, w: World, d: Sig, u: Sig, dar: Requester)
    requires OriginsUsed(w.families, w.used, w.genuine)
             && AllPendingKnown(cfg, w.pending, w.families, w.st.codes, w.st.devices)
    requires d !in w.used && u !in w.used && dar.id !in w.families
    ensures var w' := DoStartDevice(w, d, u, dar);
            AllPendingKnown(cfg, w.pending, w'.families, w.st.codes, w'.st.devices)
  {
    var w' := DoStartDevice(w, d, u, dar);
    forall pid | pid in w.pending
      ensures PendingKnown(cfg, w.pending[pid], w'.families, w.st.codes, w'.st.devices)
    {
      assert PendingKnown(cfg, w.pending[pid], w.families, w.st.codes, w.st.devices);
    }
  }

  lemma StartDeviceKeepsInv(cfg: Config, w: World, d: Sig, u: Sig, dar: Requester)
    requires Inv(cfg, w) && d != u && d !in w.used && u !in w.used && dar.id !in w.families
    ensures Inv(cfg, DoStartDevice(w, d, u, dar))
  {
    hide AccessIndexed, RefreshIndexed, Apart, TokensConform, CodesKnown, DevicesKnown, OriginsUsed, AllPendingKnown,
      AddFamily;
    var w' := DoStartDevice(w, d, u, dar);
    StartDeviceKeepsPending(cfg, w, d, u, dar);
    AddFamilyKeeps(cfg, w, dar.id, FromDevice(d, u), dar.client.id);
    StartDeviceKeepsDevices(w.st.devices, w.families, w.used, w.genuine, d, u, dar);
    StartDeviceKeepsUsed(w, w'.families, w'.used);
  }

  lemma StartDeviceKeepsUsed(w: World, families: map<ID, Family>, used: set<Sig>)
    requires TokensApart(w.st, w.used) && CodesKnown(w.st.codes, families, w.used) && w.used <= used
    ensures TokensApart(w.st, used) && CodesKnown(w.st.codes, families, used)
  {
  }

  lemma DecideShape(w: World, id: ID, decision: UserCodeState, scopes: seq<string>, audience: seq<string>)
    ensures var w' := DoDecide(w, id, decision, scopes, audience);
            && w' == w.(st := w.st.(devices := w'.st.devices), log := w'.log)
            && w'.st.devices.Keys == w.st.devices.Keys
            && forall s :: s in w'.st.devices ==>
                 && w'.st.devices[s].req.id == w.st.devices[s].req.id
                 && w'.st.devices[s].req.client == w.st.devices[s].req.client
                 && w'.st.devices[s].req.session == w.st.devices[s].req.session
  {
  }

  lemma DecideKeepsInv(cfg: Config, w: World, id: ID, decision: UserCodeState, scopes: seq<string>,
                       audience: seq<string>)
    requires Inv(cfg, w)
    ensures Inv(cfg, DoDecide(w, id, decision, scopes, audience))
  {
    hide AccessIndexed, RefreshIndexed, Apart, TokensConform, CodesKnown, DevicesKnown, OriginsUsed, AllPendingKnown,
      DoDecide;
    DecideShape(w, id, decision, scopes, audience);
    DecideKeepsDevices(cfg, w, DoDecide(w, id, decision, scopes, audience).st.devices);
  }

  lemma DecideKeepsDevices(cfg: Config, w: World, devices: map<Sig, DeviceRecord>)
    requires Inv(cfg, w)
    requires forall s :: s in devices ==> s in w.st.devices && devices[s].req.id == w.st.devices[s].req.id
                                          && devices[s].req.client == w.st.devices[s].req.client
                                          && devices[s].req.session == w.st.devices[s].req.session
    ensures DevicesKnown(devices, w.families)
    ensures AllPendingKnown(cfg, w.pending, w.families, w.st.codes, devices)
  {
    hide AccessIndexed, RefreshIndexed, Apart, TokensConform, CodesKnown;
    forall pid | pid in w.pending
      ensures PendingKnown(cfg, w.pending[pid], w.families, w.st.codes, devices)
    {
      assert PendingKnown(cfg, w.pending[pid], w.families, w.st.codes, w.st.devices);
    }
  }

  // ---------------------------------------------------------------------------------------
  // First phases

  lemma HandleCodeKeepsInv(cfg: Config, w: World, pid: nat, rq: Requester, now: Time)
    requires Inv(cfg, w) && Ungranted(rq)
    ensures Inv(cfg, DoHandleCode(cfg, w, pid, rq, now))
  {
    hide CodeFlow.Replay, AccessIndexed, RefreshIndexed, Apart, TokensConform, DevicesKnown, AllPendingKnown,
      OriginsUsed;
    var (st, err, rq') := CodeFlow.Handle(cfg, w.st, rq, now);
    var sig := CodeFlow.PresentedSig(cfg, rq);
    if err.None? {
      assert sig == CodeFlow.PresentedSig(cfg, rq');
      AwaitKeepsInv(cfg, w, pid, PendingCode(rq'));
    } else if st != w.st {
      ReplayKeepsInv(cfg, w, w.st.codes[sig].req.id);
    }
  }

  lemma ReplayKeepsInv(cfg: Config, w: World, id: ID)
    requires Inv(cfg, w)
    ensures Inv(cfg, w.(st := CodeFlow.Replay(w.st, id)))
    ensures Inv(cfg, w.(st := RevokeAccess(RevokeRefresh(w.st, id).0, id)))
  {
    assert Indexed(w.st);
    hide Inv, Indexed, Shrunk;
    KillEffect(w.st, id);
    ReplayIsKill(w.st, id);
    ShrunkKeepsInv(cfg, w, CodeFlow.Replay(w.st, id));
  }

  /** The presented signature is a device code's and not the user code's: only the former can
      carry a MAC that verifies. */
  lemma HandleDeviceKeepsInv(cfg: Config, w: World, pid: nat, rq: Requester, now: Time)
    requires Inv(cfg, w) && Ungranted(rq)
    requires Genuine(cfg, w, rq)
    ensures Inv(cfg, DoHandleDevice(cfg, w, pid, rq, now))
  {
    hide AccessIndexed, RefreshIndexed, Apart, TokensConform, CodesKnown, AllPendingKnown, WithExpiries, Dedup,
      HasGrant;
    var (st, err, rq') := DeviceFlow.Handle(cfg, w.st, rq, now);
    if err.None? {
      ExpiriesKeepSubject(cfg, w.st.devices[DeviceFlow.PresentedSig(cfg, rq)].req.session, rq.client, DeviceGrant, now);
      assert DeviceFlow.PresentedSig(cfg, rq) == DeviceFlow.PresentedSig(cfg, rq');
      AwaitKeepsInv(cfg, w, pid, PendingDevice(rq'));
    }
  }

  lemma HandleRefreshKeepsInv(cfg: Config, w: World, pid: nat, rq: Requester, now: Time)
    requires Inv(cfg, w) && Ungranted(rq)
    ensures Inv(cfg, DoHandleRefresh(cfg, w, pid, rq, now))
  {
    var (st, err, rq') := RefreshFlow.Handle(cfg, w.st, rq, now);
    var sig := RefreshFlow.PresentedSig(cfg, rq);
    if err.None? {
      AwaitKeepsInv(cfg, w, pid, PendingRefresh(rq')) by {
        hide AccessIndexed, RefreshIndexed, Apart, CodesKnown, DevicesKnown, AllPendingKnown;
        RenewedConforms(cfg, w.families, rq, w.st.refresh[sig].req, now);
      }
    } else if st != w.st {
      ReuseKeepsInv(cfg, w, sig) by {
        hide Inv, RefreshFlow.Reuse, RefreshFlow.CheckRefresh;
      }
    }
  }

  lemma ReuseKeepsInv(cfg: Config, w: World, sig: Sig)
    requires Inv(cfg, w) && sig in w.st.refresh
    ensures Inv(cfg, w.(st := RefreshFlow.Reuse(w.st, sig, w.st.refresh[sig].req.id)))
  {
    assert Indexed(w.st);
    hide Inv, Indexed, Shrunk, RefreshFlow.Reuse;
    ReuseEffect(w.st, sig);
    ShrunkKeepsInv(cfg, w, RefreshFlow.Reuse(w.st, sig, w.st.refresh[sig].req.id));
  }

  /** Conservation: a refresh request takes over exactly the family's scopes and audience. */
  lemma RenewedConforms(cfg: Config, families: map<ID, Family>, rq: Requester, orig: Requester, now: Time)
    requires Conforms(families, orig) && Ungranted(rq) && orig.client.id == rq.client.id
    ensures Conforms(families, RefreshFlow.Renewed(cfg, rq, orig, now))
    ensures RefreshFlow.Renewed(cfg, rq, orig, now).grantedScope == orig.grantedScope
  {
    DedupIdempotent(orig.grantedScope);
    DedupIdempotent(orig.grantedAudience);
  }

  /** A revocation leaves the store alone or ends the family of the token it found. */
  lemma RevokeShape(cfg: Config, st: State, token: string, hint: Option<TokenType>, client: Client)
    ensures var st' := Revocation.Revoke(cfg, st, token, hint, client).0;
            var sig := cfg.signature(token);
            || st' == st
            || (sig in st.access && st' == RevokeAccess(RevokeRefresh(st, st.access[sig].id).0, st.access[sig].id))
            || (sig in st.refresh
                 && st' == RevokeAccess(RevokeRefresh(st, st.refresh[sig].req.id).0, st.refresh[sig].req.id))
  {
    hide RevokeRefresh, RevokeAccess, Revocation.RevocationError;
  }

  lemma RevokeKeepsInv(cfg: Config, w: World, token: string, hint: Option<TokenType>, client: Client)
    requires Inv(cfg, w)
    ensures Inv(cfg, DoRevoke(cfg, w, token, hint, client))
  {
    hide Inv, RevokeRefresh, RevokeAccess, Revocation.Revoke, CodeFlow.Replay;
    RevokeShape(cfg, w.st, token, hint, client);
    var sig := cfg.signature(token);
    if sig in w.st.access { ReplayKeepsInv(cfg, w, w.st.access[sig].id); }
    if sig in w.st.refresh { ReplayKeepsInv(cfg, w, w.st.refresh[sig].req.id); }
  }

  lemma LoseKeepsInv(cfg: Config, w: World, id: ID, presented: Option<Sig>, refresh: bool, access: bool)
    requires Inv(cfg, w)
    ensures Inv(cfg, DoLose(w, id, presented, refresh, access))
  {
    hide Inv, Indexed, Shrunk, DoLose;
    InvIsApart(cfg, w);
    LostIsShrunk(w, id, presented, refresh, access);
    ShrunkKeepsInv(cfg, w, DoLose(w, id, presented, refresh, access).st);
  }

  lemma ShrunkTransitive(st: State, st1: State, st2: State)
    requires Shrunk(st, st1) && Shrunk(st1, st2)
    ensures Shrunk(st, st2)
  {
  }

  /** Whatever part of the revocations happens, tokens are only taken away. */
  lemma PartlyRevoked(st: State, id: ID, refresh: bool, access: bool)
    requires Indexed(st)
    ensures Shrunk(st, Lost(st, id, refresh, access)) && Indexed(Lost(st, id, refresh, access))
  {
    hide Indexed, Shrunk, OnlyFamily, RevokeRefresh, RevokeAccess;
    var st1 := if refresh then RevokeRefresh(st, id).0 else st;
    RevokeRefreshEffect(st, id);
    RevokeAccessEffect(st1, id);
    assert Shrunk(st, st) by { NothingShrinks(st); }
    NothingShrinks(st1);
    ShrunkTransitive(st, st1, Lost(st, id, refresh, access));
  }

  lemma NothingShrinks(st: State)
    ensures Shrunk(st, st)
  {
  }

  lemma LostIsShrunk(w: World, id: ID, presented: Option<Sig>, refresh: bool, access: bool)
    requires Indexed(w.st)
    ensures var w' := DoLose(w, id, presented, refresh, access);
            Shrunk(w.st, w'.st) && Indexed(w'.st) && w' == w.(st := w'.st)
  {
    hide Indexed, Shrunk, OnlyFamily, Lost;
    var st0 := if presented.Some? then DeleteRefresh(w.st, presented.value) else w.st;
    NothingShrinks(w.st);
    if presented.Some? {
      if presented.value in w.st.refresh {
        DeleteRefreshEffect(w.st, presented.value);
      } else {
        assert st0 == w.st by { assert w.st.refresh - {presented.value} == w.st.refresh; }
      }
    }
    PartlyRevoked(st0, id, refresh, access);
    ShrunkTransitive(w.st, st0, Lost(st0, id, refresh, access));
  }

  // ---------------------------------------------------------------------------------------
  // Second phases

  /** What the invariant tells about a waiting code request. */
  lemma PendingCodeFacts(cfg: Config, w: World, pid: nat)
    requires Inv(cfg, w) && pid in w.pending && w.pending[pid].PendingCode?
    ensures var rq := w.pending[pid].rq;
            var sig := CodeFlow.PresentedSig(cfg, rq);
            && Ungranted(rq) && rq.id in w.families && w.families[rq.id].client == rq.client.id
            && sig in w.st.codes && w.st.codes[sig].req.id == rq.id
            && w.st.codes[sig].req.client.id == rq.client.id
            && (w.st.codes[sig].active ==>
                  Spent(w.st.codes, InvalidateCode(w.st, sig).0.codes, w.st.devices, w.st.devices, w.families, rq.id))
  {
    hide AccessIndexed, RefreshIndexed, Apart, TokensConform, DevicesKnown;
    assert PendingKnown(cfg, w.pending[pid], w.families, w.st.codes, w.st.devices);
  }

  lemma PendingDeviceFacts(cfg: Config, w: World, pid: nat)
    requires Inv(cfg, w) && pid in w.pending && w.pending[pid].PendingDevice?
    ensures var rq := w.pending[pid].rq;
            var sig := DeviceFlow.PresentedSig(cfg, rq);
            && Ungranted(rq) && rq.id in w.families && w.families[rq.id].client == rq.client.id
            && (sig in w.st.devices ==>
                  && w.st.devices[sig].req.id == rq.id
                  && w.st.devices[sig].req.client.id == rq.client.id
                  && Spent(w.st.codes, w.st.codes, w.st.devices, InvalidateDevice(w.st, sig).devices, w.families,
                           rq.id))
  {
    hide AccessIndexed, RefreshIndexed, Apart, TokensConform;
    assert PendingKnown(cfg, w.pending[pid], w.families, w.st.codes, w.st.devices);
  }

  lemma InvIsApart(cfg: Config, w: World)
    requires Inv(cfg, w)
    ensures TokensApart(w.st, w.used) && Indexed(w.st)
  {
  }

  /** A first issue: the family's grant is recorded and its first tokens are stored. */
  lemma FirstIssueKeepsInv(cfg: Config, w: World, fromUsed: set<Sig>, st1: State, granted: Requester, at: Sig,
                           rt: Option<Generated>)
    requires Inv(cfg, w)
    requires Spent(w.st.codes, st1.codes, w.st.devices, st1.devices, w.families, granted.id)
    requires st1 == w.st.(codes := st1.codes, devices := st1.devices)
    requires Conforms(FirstGrant(w.families, granted), Sanitized(granted, {}))
    requires TokensApart(w.st, fromUsed) && fromUsed <= w.used && at !in fromUsed && at in w.used
    requires rt.Some? ==> rt.value.sig !in fromUsed && rt.value.sig != at && rt.value.sig in w.used
    ensures Inv(cfg, w.(st := CodeFlow.Issue(st1, Sanitized(granted, {}), at, rt),
                        families := FirstGrant(w.families, granted)))
  {
    hide Inv, Apart, Dead, Conforms, CodeFlow.Issue, Spent, FirstGrant;
    FirstGrantKeepsInv(cfg, w, st1, granted);
    IssueKeepsInv(cfg, w.(st := st1, families := FirstGrant(w.families, granted)), Sanitized(granted, {}), at, rt,
                  fromUsed);
  }

  /** The invariant says nothing about the log or about which tokens a refresh issued. */
  lemma LogIrrelevant(cfg: Config, w: World, w': World)
    requires Inv(cfg, w) && w' == w.(log := w'.log, renewed := w'.renewed)
    ensures Inv(cfg, w')
  {
    hide Indexed, TokensApart, TokensConform, CodesKnown, DevicesKnown, OriginsUsed, AllPendingKnown;
  }

  /** What a successful second phase of a code request does to the world. */
  lemma PopulateCodeShape(cfg: Config, w: World, pid: nat, at: Generated, rt: Generated, now: Time)
    requires pid in w.pending
    ensures var rq := w.pending[pid].rq;
            var sig := CodeFlow.PresentedSig(cfg, rq);
            var w1 := Spend(w, pid, at, rt);
            var w' := DoPopulateCode(cfg, w, pid, at, rt, now);
            w' == w1 || (
              && sig in w.st.codes && w.st.codes[sig].active
              && var ar := w.st.codes[sig].req;
                 var granted := Granting(rq, ar);
                 w' == w1.(st := CodeFlow.Issue(InvalidateCode(w.st, sig).0, Sanitized(granted, {}), at.sig,
                                                CodeIssues(cfg, ar, rt)),
                           families := FirstGrant(w.families, granted),
                           log := w.log + [CodeRedeemed(rq.id, sig, rq.client.id, SigOf(CodeIssues(cfg, ar, rt)))]))
  {
    hide CodeFlow.Issue, FirstGrant, CanIssueRefresh, CodeFlow.PresentedSig, Sanitized, Granting, MakeResponse;
  }

  lemma PopulateCodeKeepsInv(cfg: Config, w: World, pid: nat, at: Generated, rt: Generated, now: Time)
    requires Inv(cfg, w) && pid in w.pending && w.pending[pid].PendingCode? && BothNew(w, at, rt)
    ensures Inv(cfg, DoPopulateCode(cfg, w, pid, at, rt, now))
  {
    PendingCodeFacts(cfg, w, pid);
    SpendKeepsInv(cfg, w, pid, at, rt);
    InvIsApart(cfg, w);
    PopulateCodeShape(cfg, w, pid, at, rt, now);
    hide Inv, Apart, Indexed, Conforms, CodeFlow.Issue, FirstGrant, DoPopulateCode, Spent;
    var rq := w.pending[pid].rq;
    var sig := CodeFlow.PresentedSig(cfg, rq);
    var w1, w' := Spend(w, pid, at, rt), DoPopulateCode(cfg, w, pid, at, rt, now);
    if w' != w1 {
      var ar := w.st.codes[sig].req;
      GrantedConforms(w.families, rq, ar);
      var st1, granted := InvalidateCode(w.st, sig).0, Granting(rq, ar);
      FirstIssueKeepsInv(cfg, w1, w.used, st1, granted, at.sig, CodeIssues(cfg, ar, rt));
      LogIrrelevant(cfg, w'.(log := w.log), w');
    }
  }

  lemma PopulateDeviceShape(cfg: Config, w: World, pid: nat, at: Generated, rt: Generated, now: Time)
    requires pid in w.pending
    ensures var rq := w.pending[pid].rq;
            var sig := DeviceFlow.PresentedSig(cfg, rq);
            var w1 := Spend(w, pid, at, rt);
            var w' := DoPopulateDevice(cfg, w, pid, at, rt, now);
            w' == w1 || (
              && sig in w.st.devices && w.st.devices[sig].userCode == Accepted
              && var granted := Granting(rq, w.st.devices[sig].req);
                 w' == w1.(st := CodeFlow.Issue(InvalidateDevice(w.st, sig), Sanitized(granted, {}), at.sig,
                                                CodeIssues(cfg, granted, rt)),
                           families := FirstGrant(w.families, granted),
                           log := w.log + [DeviceRedeemed(rq.id, sig, rq.client.id,
                                                          SigOf(CodeIssues(cfg, granted, rt)))]))
  {
    hide CodeFlow.Issue, FirstGrant, CanIssueRefresh, DeviceFlow.PresentedSig, Sanitized, Granting, MakeResponse,
      ValidateDevice;
  }

  lemma PopulateDeviceKeepsInv(cfg: Config, w: World, pid: nat, at: Generated, rt: Generated, now: Time)
    requires Inv(cfg, w) && pid in w.pending && w.pending[pid].PendingDevice? && BothNew(w, at, rt)
    ensures Inv(cfg, DoPopulateDevice(cfg, w, pid, at, rt, now))
  {
    PendingDeviceFacts(cfg, w, pid);
    SpendKeepsInv(cfg, w, pid, at, rt);
    InvIsApart(cfg, w);
    PopulateDeviceShape(cfg, w, pid, at, rt, now);
    hide Inv, Apart, Indexed, Conforms, CodeFlow.Issue, FirstGrant, DoPopulateDevice, Spent;
    var rq := w.pending[pid].rq;
    var sig := DeviceFlow.PresentedSig(cfg, rq);
    var w1, w' := Spend(w, pid, at, rt), DoPopulateDevice(cfg, w, pid, at, rt, now);
    if w' != w1 {
      var ar := w.st.devices[sig].req;
      GrantedConforms(w.families, rq, ar);
      var st1, granted := InvalidateDevice(w.st, sig), Granting(rq, ar);
      FirstIssueKeepsInv(cfg, w1, w.used, st1, granted, at.sig, CodeIssues(cfg, granted, rt));
      LogIrrelevant(cfg, w'.(log := w.log), w');
    }
  }

  lemma PasswordShape(cfg: Config, w: World, rq0: Requester, scopes: seq<string>, audience: seq<string>,
                      at: Generated, rt: Generated, now: Time, half: bool)
    requires rt.sig != ""
    ensures var rq := PasswordRequest(cfg, rq0, scopes, audience, now);
            var w' := DoPassword(cfg, w, rq0, scopes, audience, at, rt, now, half);
            && rq.id == rq0.id && rq.client == rq0.client
            && NoRepeats(rq.grantedScope) && NoRepeats(rq.grantedAudience)
            && (w' == w ||
                w' == w.(st := CodeFlow.Issue(w.st, Sanitized(rq, {}), at.sig, PasswordIssues(cfg, rq, rt, half)),
                         families := FirstGrant(AddFamily(w.families, rq.id, FromPassword, rq.client.id), rq),
                         used := w.used + {at.sig, rt.sig},
                         genuine := w.genuine + {at.sig, rt.sig},
                         log := w.log + [PasswordIssued(rq.id, PasswordGranted(cfg, rq0, scopes, audience),
                                                        SigOf(PasswordIssues(cfg, rq, rt, half)))]))
  {
    hide FirstGrant, AddFamily, RefreshAllowed, MakeResponse, PasswordFlow.CheckPassword, Sanitized, NoRepeats;
    DedupIdempotent(scopes);
    DedupIdempotent(audience);
  }

  lemma PasswordFacts(cfg: Config, w: World, rq: Requester)
    requires Inv(cfg, w) && rq.id !in w.families
    requires NoRepeats(rq.grantedScope) && NoRepeats(rq.grantedAudience)
    ensures var families := AddFamily(w.families, rq.id, FromPassword, rq.client.id);
            && Spent(w.st.codes, w.st.codes, w.st.devices, w.st.devices, families, rq.id)
            && Conforms(FirstGrant(families, rq), Sanitized(rq, {}))
            && OriginsUsed(families, w.used, w.genuine)
  {
    hide AccessIndexed, RefreshIndexed, Apart, TokensConform, AllPendingKnown;
  }

  lemma PasswordKeepsInv(cfg: Config, w: World, rq0: Requester, scopes: seq<string>, audience: seq<string>,
                         at: Generated, rt: Generated, now: Time, half: bool)
    requires Inv(cfg, w) && BothNew(w, at, rt) && rq0.id !in w.families
    ensures Inv(cfg, DoPassword(cfg, w, rq0, scopes, audience, at, rt, now, half))
  {
    hide Inv, DoPassword, PasswordRequest, FirstGrant, CodeFlow.Issue, Sanitized, NoRepeats, RefreshAllowed, AddFamily;
    PasswordShape(cfg, w, rq0, scopes, audience, at, rt, now, half);
    var rq := PasswordRequest(cfg, rq0, scopes, audience, now);
    var w' := DoPassword(cfg, w, rq0, scopes, audience, at, rt, now, half);
    if w' != w {
      var families := AddFamily(w.families, rq.id, FromPassword, rq.client.id);
      var w2 := w.(families := families, used := w'.used, genuine := w'.genuine);
      NewPasswordFamily(cfg, w, w2, rq, at, rt);
      FirstIssueKeepsInv(cfg, w2, w.used, w.st, rq, at.sig, PasswordIssues(cfg, rq, rt, half));
      LogIrrelevant(cfg, w'.(log := w.log), w');
    }
  }

  /** A password grant starts its family and generates its signatures. */
  lemma NewPasswordFamily(cfg: Config, w: World, w2: World, rq: Requester, at: Generated, rt: Generated)
    requires Inv(cfg, w) && BothNew(w, at, rt) && rq.id !in w.families
    requires NoRepeats(rq.grantedScope) && NoRepeats(rq.grantedAudience)
    requires w2 == w.(families := AddFamily(w.families, rq.id, FromPassword, rq.client.id),
                      used := w.used + {at.sig, rt.sig}, genuine := w.genuine + {at.sig, rt.sig})
    ensures Inv(cfg, w2) && TokensApart(w2.st, w.used)
    ensures Spent(w.st.codes, w.st.codes, w.st.devices, w.st.devices, w2.families, rq.id)
    ensures Conforms(FirstGrant(w2.families, rq), Sanitized(rq, {}))
  {
    hide Indexed, TokensApart, TokensConform, CodesKnown, DevicesKnown, AllPendingKnown, Conforms, Spent, FirstGrant,
      AddFamily, Sanitized, NoRepeats;
    PasswordFacts(cfg, w, rq);
    AddFamilyKeeps(cfg, w, rq.id, FromPassword, rq.client.id);
    MoreUsed(w.st, w2.families, w.used, w2.used, w.genuine, w2.genuine);
  }

  lemma PopulateRefreshShape(cfg: Config, w: World, pid: nat, at: Generated, rt: Generated, now: Time)
    requires pid in w.pending && rt.sig != ""
    ensures var rq := w.pending[pid].rq;
            var w1 := Spend(w, pid, at, rt);
            var w' := DoPopulateRefresh(cfg, w, pid, at, rt, now);
            var st1 := RevokeAccess(RevokeRefresh(w.st, rq.id).0, rq.id);
            if Rotate(w.st, rq.id).1.Some? then w' == w1
            else w' == w1.(st := CodeFlow.Issue(st1, Sanitized(rq, {}), at.sig, Some(rt)),
                           renewed := w.renewed[at.sig := rq.client][rt.sig := rq.client],
                           log := w.log + [Refreshed(rq.id, RefreshFlow.PresentedSig(cfg, rq), rt.sig)])
  {
    hide Sanitized, MakeResponse, RevokeAccess, RevokeRefresh, RefreshFlow.PresentedSig;
  }

  lemma PopulateRefreshKeepsInv(cfg: Config, w: World, pid: nat, at: Generated, rt: Generated, now: Time)
    requires Inv(cfg, w) && pid in w.pending && w.pending[pid].PendingRefresh? && BothNew(w, at, rt)
    ensures Inv(cfg, DoPopulateRefresh(cfg, w, pid, at, rt, now))
  {
    var rq := w.pending[pid].rq;
    assert Conforms(w.families, Sanitized(rq, {})) by {
      assert PendingKnown(cfg, w.pending[pid], w.families, w.st.codes, w.st.devices);
    }
    SpendKeepsInv(cfg, w, pid, at, rt);
    InvIsApart(cfg, w);
    PopulateRefreshShape(cfg, w, pid, at, rt, now);
    hide Inv, Indexed, Apart, Conforms, Shrunk, OnlyFamily, Dead, CodeFlow.Issue, DoPopulateRefresh, RevokeRefresh,
      RevokeAccess, Rotate;
    var w1, w' := Spend(w, pid, at, rt), DoPopulateRefresh(cfg, w, pid, at, rt, now);
    if w' != w1 {
      var st1 := RevokeAccess(RevokeRefresh(w.st, rq.id).0, rq.id);
      KillEffect(w.st, rq.id);
      ShrunkKeepsInv(cfg, w1, st1);
      ShrunkKeepsInv(cfg, w, st1);
      InvIsApart(cfg, w.(st := st1));
      IssueKeepsInv(cfg, w1.(st := st1), Sanitized(rq, {}), at.sig, Some(rt), w.used);
      LogIrrelevant(cfg, w'.(log := w.log, renewed := w.renewed), w');
    }
  }

  // ---------------------------------------------------------------------------------------
  // Runs

  /** The invariant is kept by every step, whatever the interleaving. */
  lemma StepKeepsInv(cfg: Config, w: World, e: Event)
    requires Inv(cfg, w) && Enabled(cfg, w, e)
    ensures Inv(cfg, Step(cfg, w, e))
  {
    hide Inv, DoAuthorize, DoStartDevice, DoDecide, DoHandleCode, DoPopulateCode, DoHandleDevice, DoPopulateDevice,
      DoPassword, DoHandleRefresh, DoPopulateRefresh, DoRevoke, DoLose, Spend;
    match e
    case Authorize(code, ar) => AuthorizeKeepsInv(cfg, w, code, ar);
    case StartDevice(d, u, dar) => StartDeviceKeepsInv(cfg, w, d, u, dar);
    case Decide(id, decision, scopes, audience) => DecideKeepsInv(cfg, w, id, decision, scopes, audience);
    case HandleCode(pid, rq, now) => HandleCodeKeepsInv(cfg, w, pid, rq, now);
    case PopulateCode(pid, at, rt, now) => PopulateCodeKeepsInv(cfg, w, pid, at, rt, now);
    case HandleDevice(pid, rq, now) => HandleDeviceKeepsInv(cfg, w, pid, rq, now);
    case PopulateDevice(pid, at, rt, now) => PopulateDeviceKeepsInv(cfg, w, pid, at, rt, now);
    case Password(rq, scopes, audience, at, rt, now, half) =>
      PasswordKeepsInv(cfg, w, rq, scopes, audience, at, rt, now, half);
    case HandleRefresh(pid, rq, now) => HandleRefreshKeepsInv(cfg, w, pid, rq, now);
    case PopulateRefresh(pid, at, rt, now) => PopulateRefreshKeepsInv(cfg, w, pid, at, rt, now);
    case Revoke(token, hint, client) => RevokeKeepsInv(cfg, w, token, hint, client);
    case Abort(pid, at, rt) => SpendKeepsInv(cfg, w, pid, at, rt);
    case Lose(id, presented, refresh, access) => LoseKeepsInv(cfg, w, id, presented, refresh, access);
  }

  lemma {:induction false} RunKeepsInv(cfg: Config, w: World, es: seq<Event>)
    requires Inv(cfg, w) && Possible(cfg, w, es)
    ensures Inv(cfg, Run(cfg, w, es))
    decreases |es|
  {
    hide Inv, Step, Enabled;
    if es != [] {
      StepKeepsInv(cfg, w, es[0]);
      RunKeepsInv(cfg, Step(cfg, w, es[0]), es[1..]);
    }
  }

  /** In every run, under every interleaving of the phases: each request ID has at most one stored
      access token and at most one active refresh token, its index entries name those, and an entry
      that names a stored token names one of its own family. */
  lemma AtMostOneOfEachInEveryRun(cfg: Config, es: seq<Event>, id: ID, s1: Sig, s2: Sig)
    requires Possible(cfg, START, es)
    ensures var st := Run(cfg, START, es).st;
            && (LiveAccess(st, s1) ==> Points(st.accessIdx, st.access[s1].id, s1))
            && (LiveRefresh(st, s1) ==> Points(st.refreshIdx, st.refresh[s1].req.id, s1))
            && (LiveAccess(st, s1) && LiveAccess(st, s2) && st.access[s1].id == st.access[s2].id ==> s1 == s2)
            && (LiveRefresh(st, s1) && LiveRefresh(st, s2) && st.refresh[s1].req.id == st.refresh[s2].req.id ==>
                 s1 == s2)
            && (Points(st.accessIdx, id, s1) && s1 in st.access ==> st.access[s1].id == id)
            && (Points(st.refreshIdx, id, s1) && s1 in st.refresh ==> st.refresh[s1].req.id == id)
  {
    hide Step, Enabled;
    StartInv(cfg);
    RunKeepsInv(cfg, START, es);
    AtMostOneLive(Run(cfg, START, es).st, s1, s2);
  }
}
