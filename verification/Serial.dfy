/** Requests served one at a time: each token request runs both its phases before anything else
    happens (section 5.2.2.3 of RFC 6819). Then the refresh tokens of a family form one chain,
    presenting any but the newest ends the family, and an ended family stays ended. */
module Serial {
  import opened Prelude
  import opened Requests
  import opened Store
  import opened Grants
  import opened Protocol
  import opened Families
  import opened Runs
  import opened Lineage
  import CodeFlow
  import DeviceFlow
  import PasswordFlow
  import RefreshFlow
  import Revocation
  import Conservation

  /** A request to serve: `Whole` is a token request of the given first and second phase, `Single`
      any event that is no phase and leaves no revocation half-made. */
  datatype Service = Whole(first: Event, at: Generated, rt: Generated, answered: Time) | Single(e: Event)

  predicate IsPhase(e: Event) {
    e.HandleCode? || e.HandleDevice? || e.HandleRefresh? || e.PopulateCode? || e.PopulateDevice? || e.PopulateRefresh?
        || e.Abort?
  }

  predicate IsFirst(e: Event) {
    e.HandleCode? || e.HandleDevice? || e.HandleRefresh?
  }

  function Second(s: Service): Event
    requires s.Whole? && IsFirst(s.first)
  {
    match s.first
    case HandleCode(pid, _, _) => PopulateCode(pid, s.at, s.rt, s.answered)
    case HandleDevice(pid, _, _) => PopulateDevice(pid, s.at, s.rt, s.answered)
    case HandleRefresh(pid, _, _) => PopulateRefresh(pid, s.at, s.rt, s.answered)
  }

  ghost predicate Servable(cfg: Config, w: World, s: Service) {
    match s
    case Whole(first, at, rt, _) => IsFirst(first) && Enabled(cfg, w, first) && BothNew(w, at, rt)
    case Single(e) => !IsPhase(e) && !e.Lose? && Enabled(cfg, w, e)
  }

  /** The second phase runs when the first let the request in. */
  ghost function Serve(cfg: Config, w: World, s: Service): World
    requires Servable(cfg, w, s)
  {
    match s
    case Whole(first, _, _, _) =>
      var w1 := Step(cfg, w, first);
      if Enabled(cfg, w1, Second(s)) then Step(cfg, w1, Second(s)) else w1
    case Single(e) => Step(cfg, w, e)
  }

  ghost predicate AllServable(cfg: Config, w: World, ss: seq<Service>)
    decreases |ss|
  {
    ss == [] || (Servable(cfg, w, ss[0]) && AllServable(cfg, Serve(cfg, w, ss[0]), ss[1..]))
  }

  ghost function ServeAll(cfg: Config, w: World, ss: seq<Service>): World
    requires AllServable(cfg, w, ss)
    decreases |ss|
  {
    if ss == [] then w else ServeAll(cfg, Serve(cfg, w, ss[0]), ss[1..])
  }

  // ---------------------------------------------------------------------------------------
  // The chain of a family's refresh tokens, read off the log

  function TokenOf(e: Entry, id: ID): seq<Sig> {
    match e
    case CodeRedeemed(f, _, _, rt) => if f == id && rt.Some? then [rt.value] else []
    case DeviceRedeemed(f, _, _, rt) => if f == id && rt.Some? then [rt.value] else []
    case PasswordIssued(f, _, rt) => if f == id && rt.Some? then [rt.value] else []
    case Refreshed(f, _, next) => if f == id then [next] else []
    case Authorized(_, _) => []
    case DeviceStarted(_, _) => []
    case UserCodeDecided(_, _) => []
  }

  /** The refresh tokens issued for a family, oldest first. */
  function Chain(log: seq<Entry>, id: ID): seq<Sig> {
    if log == [] then [] else Chain(log[..|log| - 1], id) + TokenOf(log[|log| - 1], id)
  }

  lemma ChainAppend(log: seq<Entry>, e: Entry, id: ID)
    ensures Chain(log + [e], id) == Chain(log, id) + TokenOf(e, id)
  {
    assert (log + [e])[..|log|] == log;
  }

  function Last(c: seq<Sig>): Sig
    requires c != []
  {
    c[|c| - 1]
  }

  /** Every refresh presented the token that was the newest of its family at that time. */
  ghost predicate Linear(log: seq<Entry>) {
    forall j :: 0 <= j < |log| && log[j].Refreshed? ==>
      Chain(log[..j], log[j].id) != [] && Last(Chain(log[..j], log[j].id)) == log[j].presented
  }

  lemma LinearAppend(log: seq<Entry>, e: Entry)
    requires Linear(log)
    requires e.Refreshed? ==> Chain(log, e.id) != [] && Last(Chain(log, e.id)) == e.presented
    ensures Linear(log + [e])
  {
    var log' := log + [e];
    forall j | 0 <= j < |log'| && log'[j].Refreshed?
      ensures Chain(log'[..j], log'[j].id) != [] && Last(Chain(log'[..j], log'[j].id)) == log'[j].presented
    {
      if j < |log| {
        assert log'[..j] == log[..j];
      } else {
        assert log'[..j] == log;
      }
    }
  }

  // ---------------------------------------------------------------------------------------
  // What the store holds of a chain

  ghost predicate ChainKept(c: seq<Sig>, st: State, used: set<Sig>, id: ID) {
    && (forall s :: s in c ==> s in used)
    && (c == [] ==> forall s :: s in st.refresh ==> st.refresh[s].req.id != id)
    && (c != [] ==> Points(st.refreshIdx, id, Last(c)))
    && (forall s :: s in st.refresh && st.refresh[s].req.id == id ==> s in c)
    && (forall s :: s in c && s in st.refresh ==> st.refresh[s].req.id == id)
    && (Dead(st, id) || forall s :: s in c ==> s in st.refresh)
    && (c != [] ==> Dead(st, id) || LiveRefresh(st, Last(c)))
  }

  ghost predicate ChainsKept(log: seq<Entry>, st: State, used: set<Sig>) {
    forall id :: ChainKept(Chain(log, id), st, used, id)
  }

  /** A family has a chain only once its first tokens are issued. */
  ghost predicate ChainsGranted(log: seq<Entry>, families: map<ID, Family>) {
    forall id :: Chain(log, id) != [] ==> id in families && families[id].granted.Some?
  }

  ghost predicate Chained(w: World) {
    && ChainsKept(w.log, w.st, w.used)
    && ChainsGranted(w.log, w.families)
    && Linear(w.log)
  }

  /** Between two services no request is under way. */
  ghost predicate SerialInv(cfg: Config, w: World) {
    Inv(cfg, w) && w.pending == map[] && Chained(w)
  }

  /** Ending one family keeps every chain. */
  lemma EndKeepsChain(c: seq<Sig>, st: State, st': State, used: set<Sig>, f: ID, id: ID)
    requires ChainKept(c, st, used, id)
    requires Shrunk(st, st') && OnlyFamily(st, st', f) && Dead(st', f)
    ensures ChainKept(c, st', used, id)
  {
    if id != f && !Dead(st, id) {
      assert forall s :: s in c ==> s in st'.refresh && st'.refresh[s] == st.refresh[s];
    }
    if Dead(st, id) {
      ShrunkStaysDead(st, st', id);
    }
  }

  /** Tokens of another family do not matter. */
  lemma IssueElsewhereKeepsChain(c: seq<Sig>, st: State, req: Requester, at: Sig, rt: Option<Generated>,
                                 used: set<Sig>, used': set<Sig>, id: ID)
    requires ChainKept(c, st, used, id) && req.id != id && used <= used'
    requires rt.Some? ==> rt.value.sig !in st.refresh
    requires rt.Some? ==> rt.value.sig !in used
    requires at !in used
    ensures ChainKept(c, CodeFlow.Issue(st, req, at, rt), used', id)
  {
    var st' := CodeFlow.Issue(st, req, at, rt);
    if Dead(st, id) {
      IssueElsewhereStaysDead(st, req, at, rt, id);
    }
    if c != [] {
      assert Points(st.refreshIdx, id, Last(c));
      assert Points(st'.refreshIdx, id, Last(c));
    }
  }

  /** A token issued to a family becomes the newest of its chain. */
  lemma IssueExtendsChain(c: seq<Sig>, st: State, req: Requester, at: Sig, rt: Generated, used: set<Sig>,
                          used': set<Sig>)
    requires forall s :: s in c ==> s in used && s in st.refresh && st.refresh[s].req.id == req.id
    requires forall s :: s in st.refresh && st.refresh[s].req.id == req.id ==> s in c
    requires rt.sig !in used && rt.sig !in st.refresh && rt.sig != "" && used <= used' && rt.sig in used'
    ensures ChainKept(c + [rt.sig], CodeFlow.Issue(st, req, at, Some(rt)), used', req.id)
  {
    var c', st' := c + [rt.sig], CodeFlow.Issue(st, req, at, Some(rt));
    assert Last(c') == rt.sig;
    assert Points(st'.refreshIdx, req.id, rt.sig);
    assert forall s :: s in c' ==> s in c || s == rt.sig;
    assert forall s :: s in c ==> s in c';
    assert rt.sig in c';
  }

  lemma NothingIssuedKeepsChain(st: State, req: Requester, at: Sig, used: set<Sig>)
    requires forall s :: s in st.refresh ==> st.refresh[s].req.id != req.id
    ensures ChainKept([], CodeFlow.Issue(st, req, at, None), used, req.id)
  {
  }

  // ---------------------------------------------------------------------------------------
  // Services

  lemma EndKeepsChains(log: seq<Entry>, st: State, st': State, used: set<Sig>, f: ID)
    requires ChainsKept(log, st, used)
    requires st' == st || (Shrunk(st, st') && OnlyFamily(st, st', f) && Dead(st', f))
    ensures ChainsKept(log, st', used)
  {
    hide ChainKept, Shrunk, OnlyFamily, Dead, Chain;
    if st' != st {
      forall id
        ensures ChainKept(Chain(log, id), st', used, id)
      {
        EndKeepsChain(Chain(log, id), st, st', used, f, id);
      }
    }
  }

  /** New codes, decisions and signatures leave every chain as it is. */
  lemma OtherwiseSame(c: seq<Sig>, st: State, st': State, used: set<Sig>, used': set<Sig>, id: ID)
    requires ChainKept(c, st, used, id) && used <= used'
    requires st'.access == st.access && st'.refresh == st.refresh && st'.refreshIdx == st.refreshIdx
    ensures ChainKept(c, st', used', id)
  {
    assert Dead(st', id) == Dead(st, id);
  }

  lemma QuietKeepsChains(log: seq<Entry>, log': seq<Entry>, st: State, st': State, used: set<Sig>, used': set<Sig>)
    requires ChainsKept(log, st, used) && used <= used'
    requires st'.access == st.access && st'.refresh == st.refresh && st'.refreshIdx == st.refreshIdx
    requires forall id :: Chain(log', id) == Chain(log, id)
    ensures ChainsKept(log', st', used')
  {
    hide ChainKept, Chain;
    forall id
      ensures ChainKept(Chain(log', id), st', used', id)
    {
      OtherwiseSame(Chain(log, id), st, st', used, used', id);
    }
  }

  /** A family's first tokens, logged by `e`. */
  lemma FirstIssueKeepsChains(log: seq<Entry>, e: Entry, st: State, req: Requester, at: Sig, rt: Option<Generated>,
                              used: set<Sig>, used': set<Sig>)
    requires ChainsKept(log, st, used) && TokensApart(st, used)
    requires Chain(log, req.id) == []
    requires used <= used' && at !in used
    requires rt.Some? ==> rt.value.sig !in used && rt.value.sig in used' && rt.value.sig != ""
    requires forall id :: TokenOf(e, id) == if id == req.id && rt.Some? then [rt.value.sig] else []
    ensures ChainsKept(log + [e], CodeFlow.Issue(st, req, at, rt), used')
  {
    hide ChainKept, CodeFlow.Issue, TokenOf;
    forall id
      ensures ChainKept(Chain(log + [e], id), CodeFlow.Issue(st, req, at, rt), used', id)
    {
      ChainAppend(log, e, id);
      hide Chain;
      assert ChainKept(Chain(log, id), st, used, id);
      if id != req.id {
        assert Chain(log + [e], id) == Chain(log, id);
        IssueElsewhereKeepsChain(Chain(log, id), st, req, at, rt, used, used', id);
      } else {
        EmptyChain(st, used, id);
        assert Chain(log + [e], id) == TokenOf(e, id);
        if rt.Some? {
          assert TokenOf(e, id) == [] + [rt.value.sig];
          IssueExtendsChain([], st, req, at, rt.value, used, used');
        } else {
          NothingIssuedKeepsChain(st, req, at, used');
        }
      }
    }
  }

  lemma EmptyChain(st: State, used: set<Sig>, id: ID)
    requires ChainKept([], st, used, id)
    ensures forall s :: s in st.refresh ==> st.refresh[s].req.id != id
  {
  }

  lemma HandleCodeKeepsChains(cfg: Config, w: World, pid: nat, rq: Requester, now: Time)
    requires Indexed(w.st) && Chained(w)
    ensures Chained(DoHandleCode(cfg, w, pid, rq, now))
  {
    hide ChainsKept, ChainsGranted, Linear, AccessIndexed, RefreshIndexed, Shrunk, OnlyFamily, Dead,
      CodeFlow.CheckCode, CodeFlow.Replay, CodeFlow.Hydrated, HasGrant;
    var sig := CodeFlow.PresentedSig(cfg, rq);
    var st' := CodeFlow.Handle(cfg, w.st, rq, now).0;
    if sig in w.st.codes && st' != w.st {
      var id := w.st.codes[sig].req.id;
      KillEffect(w.st, id);
      ReplayIsKill(w.st, id);
      EndKeepsChains(w.log, w.st, st', w.used, id);
    }
  }

  lemma HandleRefreshKeepsChains(cfg: Config, w: World, pid: nat, rq: Requester, now: Time)
    requires Indexed(w.st) && Chained(w)
    ensures Chained(DoHandleRefresh(cfg, w, pid, rq, now))
  {
    hide ChainsKept, ChainsGranted, Linear, AccessIndexed, RefreshIndexed, Shrunk, OnlyFamily, Dead,
      RefreshFlow.CheckRefresh, RefreshFlow.Reuse, RefreshFlow.Renewed, HasGrant;
    var sig := RefreshFlow.PresentedSig(cfg, rq);
    var st' := RefreshFlow.Handle(cfg, w.st, rq, now).0;
    if sig in w.st.refresh && st' != w.st {
      ReuseEffect(w.st, sig);
      EndKeepsChains(w.log, w.st, st', w.used, w.st.refresh[sig].req.id);
    }
  }

  lemma RevokeKeepsChains(cfg: Config, w: World, token: string, hint: Option<TokenType>, client: Client)
    requires Indexed(w.st) && Chained(w)
    ensures Chained(DoRevoke(cfg, w, token, hint, client))
  {
    hide ChainsKept, ChainsGranted, Linear, AccessIndexed, RefreshIndexed, Shrunk, OnlyFamily, Dead,
      RevokeAccess, RevokeRefresh, Revocation.Revoke;
    RevokeShape(cfg, w.st, token, hint, client);
    var sig := cfg.signature(token);
    var st' := DoRevoke(cfg, w, token, hint, client).st;
    if sig in w.st.access {
      KillEffect(w.st, w.st.access[sig].id);
      if st' == RevokeAccess(RevokeRefresh(w.st, w.st.access[sig].id).0, w.st.access[sig].id) {
        EndKeepsChains(w.log, w.st, st', w.used, w.st.access[sig].id);
      }
    }
    if sig in w.st.refresh {
      KillEffect(w.st, w.st.refresh[sig].req.id);
      if st' == RevokeAccess(RevokeRefresh(w.st, w.st.refresh[sig].req.id).0, w.st.refresh[sig].req.id) {
        EndKeepsChains(w.log, w.st, st', w.used, w.st.refresh[sig].req.id);
      }
    }
  }

  /** Events that issue no token: the log grows by entries that belong to no chain. */
  lemma QuietServiceKeepsChains(w: World, w': World)
    requires Chained(w) && w.used <= w'.used
    requires w'.st.access == w.st.access && w'.st.refresh == w.st.refresh && w'.st.refreshIdx == w.st.refreshIdx
    requires w'.log == w.log || exists e ::
               w'.log == w.log + [e] && (e.Authorized? || e.DeviceStarted? || e.UserCodeDecided?)
    requires forall id :: id in w.families ==> id in w'.families && w'.families[id] == w.families[id]
    ensures Chained(w')
  {
    hide ChainKept, Linear, Chain;
    if w'.log != w.log {
      var e :| w'.log == w.log + [e] && (e.Authorized? || e.DeviceStarted? || e.UserCodeDecided?);
      LinearAppend(w.log, e);
      forall id
        ensures Chain(w'.log, id) == Chain(w.log, id)
      {
        ChainAppend(w.log, e, id);
        assert TokenOf(e, id) == [];
      }
    }
    QuietKeepsChains(w.log, w'.log, w.st, w'.st, w.used, w'.used);
    forall id | Chain(w'.log, id) != []
      ensures id in w'.families && w'.families[id].granted.Some?
    {
      assert Chain(w.log, id) != [];
    }
  }

  lemma StartsKeepChains(w: World, code: Sig, user: Sig, req: Requester)
    requires Chained(w) && req.id !in w.families
    ensures Chained(DoAuthorize(w, code, req)) && Chained(DoStartDevice(w, code, user, req))
  {
    hide Chained;
    QuietServiceKeepsChains(w, DoAuthorize(w, code, req));
    var w' := DoStartDevice(w, code, user, req);
    assert w'.log == w.log + [DeviceStarted(code, req)];
    QuietServiceKeepsChains(w, w');
  }

  lemma DecideKeepsChains(w: World, id: ID, decision: UserCodeState, scopes: seq<string>, audience: seq<string>)
    requires Chained(w)
    ensures Chained(DoDecide(w, id, decision, scopes, audience))
  {
    hide Chained, DecideUserCode;
    var w' := DoDecide(w, id, decision, scopes, audience);
    assert w'.log != w.log ==> w'.log == w.log + [UserCodeDecided(id, Decision(decision, scopes, audience))];
    QuietServiceKeepsChains(w, w');
  }

  /** A grant's first issue, whatever the grant. */
  lemma FirstServiceKeepsChains(w: World, w': World, e: Entry, families: map<ID, Family>, st1: State,
                                granted: Requester, at: Sig, rt: Option<Generated>)
    requires Chained(w) && TokensApart(w.st, w.used)
    requires granted.id in w.families ==> w.families[granted.id].granted == None
    requires granted.id in families
    requires forall id :: id in w.families ==> id in families && families[id] == w.families[id]
    requires st1 == w.st.(codes := st1.codes, devices := st1.devices)
    requires at !in w.used && w.used <= w'.used
    requires rt.Some? ==> rt.value.sig !in w.used && rt.value.sig in w'.used && rt.value.sig != ""
    requires !e.Refreshed? && forall id :: TokenOf(e, id) == if id == granted.id && rt.Some? then [rt.value.sig] else []
    requires w'.log == w.log + [e] && w'.families == FirstGrant(families, granted)
    requires w'.st == CodeFlow.Issue(st1, Sanitized(granted, {}), at, rt)
    ensures Chained(w')
  {
    hide Linear, CodeFlow.Issue, TokenOf, Chain, ChainKept;
    SanitizedKeepsId(granted);
    hide Sanitized;
    assert Chain(w.log, granted.id) == [];
    LinearAppend(w.log, e);
    QuietKeepsChains(w.log, w.log, w.st, st1, w.used, w.used);
    FirstIssueKeepsChains(w.log, e, st1, Sanitized(granted, {}), at, rt, w.used, w'.used);
    forall id | Chain(w'.log, id) != []
      ensures id in w'.families && w'.families[id].granted.Some?
    {
      ChainAppend(w.log, e, id);
    }
  }

  lemma SpendKeepsChains(w: World, pid: nat, at: Generated, rt: Generated)
    requires Chained(w)
    ensures Chained(Spend(w, pid, at, rt))
  {
    QuietServiceKeepsChains(w, Spend(w, pid, at, rt));
  }

  lemma GrantingKeepsId(rq: Requester, ar: Requester)
    ensures Granting(rq, ar).id == rq.id
  {
  }

  /** A code or device code that is about to yield tokens belongs to a family without any. */
  lemma RedeemableIsUngranted(cfg: Config, w: World, pid: nat)
    requires Inv(cfg, w) && pid in w.pending
    ensures var rq := w.pending[pid].rq;
            && (w.pending[pid].PendingCode? ==>
                  var sig := CodeFlow.PresentedSig(cfg, rq);
                  sig in w.st.codes && w.st.codes[sig].active ==>
                      rq.id in w.families && w.families[rq.id].granted == None)
            && (w.pending[pid].PendingDevice? ==>
                  DeviceFlow.PresentedSig(cfg, rq) in w.st.devices ==>
                      rq.id in w.families && w.families[rq.id].granted == None)
    ensures TokensApart(w.st, w.used) && Indexed(w.st)
  {
    InvIsApart(cfg, w);
    hide Inv, TokensApart, Indexed;
    if w.pending[pid].PendingCode? {
      PendingCodeFacts(cfg, w, pid);
    } else if w.pending[pid].PendingDevice? {
      PendingDeviceFacts(cfg, w, pid);
    }
  }

  lemma PopulateCodeKeepsChains(cfg: Config, w: World, pid: nat, at: Generated, rt: Generated, now: Time)
    requires Inv(cfg, w) && Chained(w) && pid in w.pending && w.pending[pid].PendingCode? && BothNew(w, at, rt)
    ensures Chained(DoPopulateCode(cfg, w, pid, at, rt, now))
  {
    hide Inv, Indexed, TokensApart, Chained, DoPopulateCode, CodeFlow.Issue, Sanitized, CanIssueRefresh, FirstGrant,
      CodeFlow.PresentedSig, Granting;
    RedeemableIsUngranted(cfg, w, pid);
    PopulateCodeShape(cfg, w, pid, at, rt, now);
    var rq := w.pending[pid].rq;
    var sig := CodeFlow.PresentedSig(cfg, rq);
    var w1, w' := Spend(w, pid, at, rt), DoPopulateCode(cfg, w, pid, at, rt, now);
    SpendKeepsChains(w, pid, at, rt);
    if w' != w1 {
      var ar := w.st.codes[sig].req;
      GrantingKeepsId(rq, ar);
      var e := CodeRedeemed(rq.id, sig, rq.client.id, SigOf(CodeIssues(cfg, ar, rt)));
      FirstServiceKeepsChains(w, w', e, w.families, InvalidateCode(w.st, sig).0, Granting(rq, ar), at.sig,
                              CodeIssues(cfg, ar, rt));
    }
  }

  lemma PopulateDeviceKeepsChains(cfg: Config, w: World, pid: nat, at: Generated, rt: Generated, now: Time)
    requires Inv(cfg, w) && Chained(w) && pid in w.pending && w.pending[pid].PendingDevice? && BothNew(w, at, rt)
    ensures Chained(DoPopulateDevice(cfg, w, pid, at, rt, now))
  {
    hide Inv, Indexed, TokensApart, Chained, DoPopulateDevice, CodeFlow.Issue, Sanitized, CanIssueRefresh, FirstGrant,
      DeviceFlow.PresentedSig, Granting;
    RedeemableIsUngranted(cfg, w, pid);
    PopulateDeviceShape(cfg, w, pid, at, rt, now);
    var rq := w.pending[pid].rq;
    var sig := DeviceFlow.PresentedSig(cfg, rq);
    var w1, w' := Spend(w, pid, at, rt), DoPopulateDevice(cfg, w, pid, at, rt, now);
    SpendKeepsChains(w, pid, at, rt);
    if w' != w1 {
      var granted := Granting(rq, w.st.devices[sig].req);
      GrantingKeepsId(rq, w.st.devices[sig].req);
      var e := DeviceRedeemed(rq.id, sig, rq.client.id, SigOf(CodeIssues(cfg, granted, rt)));
      FirstServiceKeepsChains(w, w', e, w.families, InvalidateDevice(w.st, sig), granted, at.sig,
                              CodeIssues(cfg, granted, rt));
    }
  }

  lemma PasswordKeepsChains(cfg: Config, w: World, rq0: Requester, scopes: seq<string>, audience: seq<string>,
                            at: Generated, rt: Generated, now: Time, half: bool)
    requires TokensApart(w.st, w.used) && Chained(w) && BothNew(w, at, rt) && rq0.id !in w.families
    ensures Chained(DoPassword(cfg, w, rq0, scopes, audience, at, rt, now, half))
  {
    hide TokensApart, Chained, DoPassword, PasswordRequest, CodeFlow.Issue, Sanitized, RefreshAllowed, FirstGrant,
      NoRepeats;
    PasswordShape(cfg, w, rq0, scopes, audience, at, rt, now, half);
    var rq := PasswordRequest(cfg, rq0, scopes, audience, now);
    var w' := DoPassword(cfg, w, rq0, scopes, audience, at, rt, now, half);
    if w' != w {
      var families := AddFamily(w.families, rq.id, FromPassword, rq.client.id);
      var e := PasswordIssued(rq.id, PasswordGranted(cfg, rq0, scopes, audience),
                              SigOf(PasswordIssues(cfg, rq, rt, half)));
      FirstServiceKeepsChains(w, w', e, families, w.st, rq, at.sig, PasswordIssues(cfg, rq, rt, half));
    }
  }

  /** A live token of a family is the newest of its chain. */
  lemma LiveIsNewest(c: seq<Sig>, st: State, used: set<Sig>, sig: Sig)
    requires Indexed(st) && LiveRefresh(st, sig) && sig in st.refresh && ChainKept(c, st, used, st.refresh[sig].req.id)
    ensures c != [] && Last(c) == sig
    ensures forall s :: s in c ==> s in used && s in st.refresh && st.refresh[s].req.id == st.refresh[sig].req.id
    ensures forall s :: s in st.refresh && st.refresh[s].req.id == st.refresh[sig].req.id ==> s in c
  {
    var id := st.refresh[sig].req.id;
    assert Points(st.refreshIdx, id, sig);
    assert !Dead(st, id);
  }

  /** Ending the family of a chain keeps all its tokens stored. */
  lemma KillKeepsMembers(c: seq<Sig>, st: State, used: set<Sig>, id: ID)
    requires Indexed(st) && TokensApart(st, used)
    requires forall s :: s in c ==> s in used && s in st.refresh && st.refresh[s].req.id == id
    requires forall s :: s in st.refresh && st.refresh[s].req.id == id ==> s in c
    ensures var st1 := RevokeAccess(RevokeRefresh(st, id).0, id);
            && Shrunk(st, st1) && OnlyFamily(st, st1, id) && Dead(st1, id)
            && (forall s :: s in c ==> s in used && s in st1.refresh && st1.refresh[s].req.id == id)
            && (forall s :: s in st1.refresh && st1.refresh[s].req.id == id ==> s in c)
            && (forall s :: s in st1.refresh ==> s in used)
  {
    KillEffect(st, id);
    hide AccessIndexed, RefreshIndexed, OnlyFamily, Dead, RevokeAccess, RevokeRefresh;
  }

  lemma RotateKeepsChains(log: seq<Entry>, st: State, e: Entry, req: Requester, at: Sig, rt: Generated,
                          used: set<Sig>, used': set<Sig>)
    requires Indexed(st) && TokensApart(st, used) && ChainsKept(log, st, used)
    requires e.Refreshed? && e.next == rt.sig && e.id == req.id
    requires LiveRefresh(st, e.presented) && e.presented in st.refresh && st.refresh[e.presented].req.id == req.id
    requires at !in used && rt.sig !in used && rt.sig != "" && used <= used' && rt.sig in used'
    ensures ChainsKept(log + [e], CodeFlow.Issue(RevokeAccess(RevokeRefresh(st, req.id).0, req.id), req, at, Some(rt)),
                       used')
    ensures Chain(log, e.id) != [] && Last(Chain(log, e.id)) == e.presented
  {
    hide Indexed, TokensApart, ChainKept, Shrunk, OnlyFamily, Dead, CodeFlow.Issue, RevokeAccess, RevokeRefresh,
      Chain, LiveRefresh;
    var st1 := RevokeAccess(RevokeRefresh(st, req.id).0, req.id);
    var c := Chain(log, req.id);
    LiveIsNewest(c, st, used, e.presented);
    KillKeepsMembers(c, st, used, req.id);
    EndKeepsChains(log, st, st1, used, req.id);
    IssueExtendsChain(c, st1, req, at, rt, used, used');
    forall id
      ensures ChainKept(Chain(log + [e], id), CodeFlow.Issue(st1, req, at, Some(rt)), used', id)
    {
      ChainAppend(log, e, id);
      if id != req.id {
        assert Chain(log + [e], id) == Chain(log, id);
        IssueElsewhereKeepsChain(Chain(log, id), st1, req, at, Some(rt), used, used', id);
      }
    }
  }

  /** A refresh whose presented token is still live when its second phase runs extends the chain
      by one link. */
  lemma PopulateRefreshKeepsChains(cfg: Config, w: World, pid: nat, at: Generated, rt: Generated, now: Time)
    requires Inv(cfg, w) && Chained(w) && pid in w.pending && w.pending[pid].PendingRefresh? && BothNew(w, at, rt)
    requires w.pending[pid].rq.id in w.families && w.families[w.pending[pid].rq.id].granted.Some?
    requires var sig := RefreshFlow.PresentedSig(cfg, w.pending[pid].rq);
             LiveRefresh(w.st, sig) && sig in w.st.refresh && w.st.refresh[sig].req.id == w.pending[pid].rq.id
    ensures Chained(DoPopulateRefresh(cfg, w, pid, at, rt, now))
  {
    hide Inv, Indexed, TokensApart, Linear, ChainsKept, DoPopulateRefresh, CodeFlow.Issue, Sanitized, RevokeAccess,
      RevokeRefresh, Rotate, RefreshFlow.PresentedSig, LiveRefresh, Chain;
    PopulateRefreshShape(cfg, w, pid, at, rt, now);
    InvIsApart(cfg, w);
    var rq := w.pending[pid].rq;
    var w1, w' := Spend(w, pid, at, rt), DoPopulateRefresh(cfg, w, pid, at, rt, now);
    SanitizedKeepsId(rq);
    SpendKeepsChains(w, pid, at, rt);
    if w' != w1 {
      var e := Refreshed(rq.id, RefreshFlow.PresentedSig(cfg, rq), rt.sig);
      RotateKeepsChains(w.log, w.st, e, Sanitized(rq, {}), at.sig, rt, w.used, w'.used);
      LinearAppend(w.log, e);
      forall id | Chain(w'.log, id) != []
        ensures id in w'.families && w'.families[id].granted.Some?
      {
        ChainAppend(w.log, e, id);
      }
    }
  }

  /** What a first phase leaves to its second. */
  lemma FirstPhases(cfg: Config, w: World, pid: nat, rq: Requester, now: Time)
    requires w.pending == map[]
    ensures var w1 := DoHandleCode(cfg, w, pid, rq, now);
            w1.used == w.used && (w1.pending == map[] || exists rq' :: w1.pending == map[pid := PendingCode(rq')])
    ensures var w1 := DoHandleDevice(cfg, w, pid, rq, now);
            w1.used == w.used && w1.st == w.st && w1.log == w.log && w1.families == w.families
            && (w1.pending == map[] || exists rq' :: w1.pending == map[pid := PendingDevice(rq')])
  {
    hide CodeFlow.Handle, DeviceFlow.Session, ValidateDevice, HasGrant, WithExpiries;
  }

  lemma FirstRefreshPhase(cfg: Config, w: World, pid: nat, rq: Requester, now: Time)
    requires w.pending == map[]
    ensures var w1 := DoHandleRefresh(cfg, w, pid, rq, now);
            && w1.used == w.used
            && (w1.pending == map[] || (
                  && RefreshFlow.Handle(cfg, w.st, rq, now).1 == None
                  && exists rq' :: w1.pending == map[pid := PendingRefresh(rq')]
                                   && RefreshFlow.PresentedSig(cfg, rq') == RefreshFlow.PresentedSig(cfg, rq)))
  {
    hide RefreshFlow.CheckRefresh, RefreshFlow.Reuse, HasGrant, WithExpiries;
  }

  /** A second phase takes the only request under way up. */
  lemma SecondPhases(cfg: Config, w: World, pid: nat, p: Pending, at: Generated, rt: Generated, now: Time)
    requires w.pending == map[pid := p] && rt.sig != ""
    ensures DoPopulateCode(cfg, w, pid, at, rt, now).pending == map[]
    ensures DoPopulateDevice(cfg, w, pid, at, rt, now).pending == map[]
    ensures DoPopulateRefresh(cfg, w, pid, at, rt, now).pending == map[]
  {
    hide DoPopulateCode, DoPopulateDevice, DoPopulateRefresh, CodeFlow.Issue, Granting, Sanitized, FirstGrant,
      CodeIssues, SigOf, RevokeAccess, RevokeRefresh, Rotate, CodeFlow.PresentedSig, DeviceFlow.PresentedSig,
      RefreshFlow.PresentedSig;
    PopulateCodeShape(cfg, w, pid, at, rt, now);
    PopulateDeviceShape(cfg, w, pid, at, rt, now);
    PopulateRefreshShape(cfg, w, pid, at, rt, now);
    assert w.pending - {pid} == map[];
  }

  lemma CodeServed(cfg: Config, w: World, pid: nat, rq: Requester, now: Time, at: Generated, rt: Generated,
                   answered: Time)
    requires SerialInv(cfg, w) && Ungranted(rq) && BothNew(w, at, rt)
    ensures var w1 := DoHandleCode(cfg, w, pid, rq, now);
            if pid in w1.pending && w1.pending[pid].PendingCode?
                then SerialInv(cfg, DoPopulateCode(cfg, w1, pid, at, rt, answered))
            else SerialInv(cfg, w1)
  {
    hide Inv, Indexed, TokensApart, Chained, DoHandleCode, DoHandleDevice, DoHandleRefresh, DoPopulateCode,
      RefreshFlow.Handle, RefreshFlow.PresentedSig;
    InvIsApart(cfg, w);
    FirstPhases(cfg, w, pid, rq, now);
    HandleCodeKeepsInv(cfg, w, pid, rq, now);
    HandleCodeKeepsChains(cfg, w, pid, rq, now);
    var w1 := DoHandleCode(cfg, w, pid, rq, now);
    if pid in w1.pending && w1.pending[pid].PendingCode? {
      SecondPhases(cfg, w1, pid, w1.pending[pid], at, rt, answered);
      PopulateCodeKeepsInv(cfg, w1, pid, at, rt, answered);
      PopulateCodeKeepsChains(cfg, w1, pid, at, rt, answered);
    }
  }

  lemma DeviceServed(cfg: Config, w: World, pid: nat, rq: Requester, now: Time, at: Generated, rt: Generated,
                     answered: Time)
    requires SerialInv(cfg, w) && Ungranted(rq) && BothNew(w, at, rt)
    requires Genuine(cfg, w, rq)
    ensures var w1 := DoHandleDevice(cfg, w, pid, rq, now);
            if pid in w1.pending && w1.pending[pid].PendingDevice?
                then SerialInv(cfg, DoPopulateDevice(cfg, w1, pid, at, rt, answered))
            else SerialInv(cfg, w1)
  {
    hide Inv, Indexed, TokensApart, ChainsKept, ChainsGranted, Linear, DoHandleCode, DoHandleDevice, DoHandleRefresh,
      DoPopulateDevice, RefreshFlow.Handle, RefreshFlow.PresentedSig;
    FirstPhases(cfg, w, pid, rq, now);
    HandleDeviceKeepsInv(cfg, w, pid, rq, now);
    var w1 := DoHandleDevice(cfg, w, pid, rq, now);
    if pid in w1.pending && w1.pending[pid].PendingDevice? {
      SecondPhases(cfg, w1, pid, w1.pending[pid], at, rt, answered);
      PopulateDeviceKeepsInv(cfg, w1, pid, at, rt, answered);
      PopulateDeviceKeepsChains(cfg, w1, pid, at, rt, answered);
    }
  }

  lemma PendingRefreshGranted(cfg: Config, w: World, pid: nat)
    requires Inv(cfg, w) && pid in w.pending && w.pending[pid].PendingRefresh?
    ensures var id := w.pending[pid].rq.id; id in w.families && w.families[id].granted.Some?
  {
    hide Indexed, TokensApart, TokensConform, CodesKnown, DevicesKnown, OriginsUsed;
    assert PendingKnown(cfg, w.pending[pid], w.families, w.st.codes, w.st.devices);
  }

  lemma RefreshServed(cfg: Config, w: World, pid: nat, rq: Requester, now: Time, at: Generated, rt: Generated,
                      answered: Time)
    requires SerialInv(cfg, w) && Ungranted(rq) && BothNew(w, at, rt)
    ensures var w1 := DoHandleRefresh(cfg, w, pid, rq, now);
            if pid in w1.pending && w1.pending[pid].PendingRefresh?
                then SerialInv(cfg, DoPopulateRefresh(cfg, w1, pid, at, rt, answered))
            else SerialInv(cfg, w1)
  {
    hide Inv, Indexed, TokensApart, Chained, DoHandleCode, DoHandleDevice, DoHandleRefresh, DoPopulateRefresh,
      RefreshFlow.Handle;
    InvIsApart(cfg, w);
    FirstRefreshPhase(cfg, w, pid, rq, now);
    HandleRefreshKeepsInv(cfg, w, pid, rq, now);
    HandleRefreshKeepsChains(cfg, w, pid, rq, now);
    var w1 := DoHandleRefresh(cfg, w, pid, rq, now);
    if pid in w1.pending && w1.pending[pid].PendingRefresh? {
      LetIn(cfg, w, pid, rq, now);
      PendingRefreshGranted(cfg, w1, pid);
      SecondPhases(cfg, w1, pid, w1.pending[pid], at, rt, answered);
      PopulateRefreshKeepsInv(cfg, w1, pid, at, rt, answered);
      PopulateRefreshKeepsChains(cfg, w1, pid, at, rt, answered);
    }
  }

  lemma SingleServed(cfg: Config, w: World, e: Event)
    requires SerialInv(cfg, w) && !IsPhase(e) && !e.Lose? && Enabled(cfg, w, e)
    ensures SerialInv(cfg, Step(cfg, w, e))
  {
    hide Inv, Indexed, TokensApart, Chained, DoAuthorize, DoStartDevice, DoDecide, DoPassword, DoRevoke;
    InvIsApart(cfg, w);
    StepKeepsInv(cfg, w, e);
    SinglesKeepPending(cfg, w, e);
    match e
    case Authorize(code, ar) => StartsKeepChains(w, code, code, ar);
    case StartDevice(d, u, dar) => StartsKeepChains(w, d, u, dar);
    case Decide(id, decision, scopes, audience) => DecideKeepsChains(w, id, decision, scopes, audience);
    case Password(rq, scopes, audience, at, rt, now, half) =>
      PasswordKeepsChains(cfg, w, rq, scopes, audience, at, rt, now, half);
    case Revoke(token, hint, client) => RevokeKeepsChains(cfg, w, token, hint, client);
  }

  lemma SinglesKeepPending(cfg: Config, w: World, e: Event)
    requires !IsPhase(e) && Enabled(cfg, w, e)
    ensures Step(cfg, w, e).pending == w.pending
  {
    hide DecideUserCode, PasswordFlow.Handle, PasswordFlow.Populate, Revocation.Revoke, PasswordRequest, FirstGrant,
      AddFamily;
  }

  lemma ServeKeepsInv(cfg: Config, w: World, s: Service)
    requires SerialInv(cfg, w) && Servable(cfg, w, s)
    ensures SerialInv(cfg, Serve(cfg, w, s))
  {
    hide SerialInv, DoHandleCode, DoHandleDevice, DoHandleRefresh, DoPopulateCode, DoPopulateDevice,
      DoPopulateRefresh, DoAuthorize, DoStartDevice, DoDecide, DoPassword, DoRevoke;
    match s
    case Single(e) => SingleServed(cfg, w, e);
    case Whole(first, at, rt, answered) =>
      SameUsed(cfg, w, first);
      match first
      case HandleCode(pid, rq, now) => CodeServed(cfg, w, pid, rq, now, at, rt, answered);
      case HandleDevice(pid, rq, now) => DeviceServed(cfg, w, pid, rq, now, at, rt, answered);
      case HandleRefresh(pid, rq, now) => RefreshServed(cfg, w, pid, rq, now, at, rt, answered);
  }

  lemma SameUsed(cfg: Config, w: World, first: Event)
    requires IsFirst(first) && Enabled(cfg, w, first)
    ensures Step(cfg, w, first).used == w.used
  {
    hide CodeFlow.Handle, DeviceFlow.Handle, RefreshFlow.Handle;
  }

  lemma {:induction false} ServeAllKeepsInv(cfg: Config, w: World, ss: seq<Service>)
    requires SerialInv(cfg, w) && AllServable(cfg, w, ss)
    ensures SerialInv(cfg, ServeAll(cfg, w, ss))
    decreases |ss|
  {
    hide SerialInv, Serve, Servable;
    if ss != [] {
      ServeKeepsInv(cfg, w, ss[0]);
      ServeAllKeepsInv(cfg, Serve(cfg, w, ss[0]), ss[1..]);
    }
  }

  lemma StartIsSerial(cfg: Config)
    ensures SerialInv(cfg, START)
  {
    StartInv(cfg);
  }

  // ---------------------------------------------------------------------------------------
  // Serving one request at a time is one of the interleavings

  ghost function Phases(cfg: Config, w: World, s: Service): seq<Event>
    requires Servable(cfg, w, s)
  {
    match s
    case Whole(first, _, _, _) =>
      if Enabled(cfg, Step(cfg, w, first), Second(s)) then [first, Second(s)] else [first]
    case Single(e) => [e]
  }

  ghost function AllPhases(cfg: Config, w: World, ss: seq<Service>): seq<Event>
    requires AllServable(cfg, w, ss)
    decreases |ss|
  {
    if ss == [] then [] else Phases(cfg, w, ss[0]) + AllPhases(cfg, Serve(cfg, w, ss[0]), ss[1..])
  }

  lemma PhasesFirst(cfg: Config, w: World, s: Service, es: seq<Event>)
    requires Servable(cfg, w, s) && Possible(cfg, Serve(cfg, w, s), es)
    ensures Possible(cfg, w, Phases(cfg, w, s) + es)
    ensures Run(cfg, w, Phases(cfg, w, s) + es) == Run(cfg, Serve(cfg, w, s), es)
  {
    hide Step, Enabled;
    var all := Phases(cfg, w, s) + es;
    if |Phases(cfg, w, s)| == 2 {
      assert all[1..][1..] == es && all[1..][0] == Phases(cfg, w, s)[1];
    } else {
      assert all[1..] == es;
    }
  }

  lemma {:induction false} ServingIsRunning(cfg: Config, w: World, ss: seq<Service>)
    requires AllServable(cfg, w, ss)
    ensures Possible(cfg, w, AllPhases(cfg, w, ss))
    ensures Run(cfg, w, AllPhases(cfg, w, ss)) == ServeAll(cfg, w, ss)
    decreases |ss|
  {
    hide Step, Enabled, Serve, Servable, Phases;
    if ss != [] {
      ServingIsRunning(cfg, Serve(cfg, w, ss[0]), ss[1..]);
      PhasesFirst(cfg, w, ss[0], AllPhases(cfg, Serve(cfg, w, ss[0]), ss[1..]));
    }
  }

  // ---------------------------------------------------------------------------------------
  // Results

  /** The refreshes of a family form one chain: each presented the token that its predecessor, or
      the family's first grant, had issued last. */
  lemma RefreshesFormOneChain(cfg: Config, ss: seq<Service>, j: nat)
    requires AllServable(cfg, START, ss)
    requires var log := ServeAll(cfg, START, ss).log; j < |log| && log[j].Refreshed?
    ensures var log := ServeAll(cfg, START, ss).log;
            var c := Chain(log[..j], log[j].id);
            c != [] && Last(c) == log[j].presented && Chain(log[..j + 1], log[j].id) == c + [log[j].next]
  {
    hide AllServable, ServeAll, Inv, ChainsKept, ChainsGranted, Chain;
    StartIsSerial(cfg);
    ServeAllKeepsInv(cfg, START, ss);
    var log := ServeAll(cfg, START, ss).log;
    assert log[..j + 1] == log[..j] + [log[j]];
    ChainAppend(log[..j], log[j], log[j].id);
  }

  /** At any time either the newest refresh token of a family is live or the family has no live
      token at all. */
  lemma NewestIsLiveOrFamilyIsDead(cfg: Config, ss: seq<Service>, id: ID, sig: Sig)
    requires AllServable(cfg, START, ss)
    requires var w := ServeAll(cfg, START, ss); Chain(w.log, id) != []
    ensures var w := ServeAll(cfg, START, ss);
            && (Dead(w.st, id) || LiveRefresh(w.st, Last(Chain(w.log, id))))
            && (LiveRefresh(w.st, sig) && w.st.refresh[sig].req.id == id ==> sig == Last(Chain(w.log, id)))
  {
    hide AllServable, ServeAll, Inv, Linear, ChainsGranted, Chain, Indexed, Dead;
    StartIsSerial(cfg);
    ServeAllKeepsInv(cfg, START, ss);
    var w := ServeAll(cfg, START, ss);
    InvIsApart(cfg, w);
    assert ChainKept(Chain(w.log, id), w.st, w.used, id);
    if LiveRefresh(w.st, sig) && w.st.refresh[sig].req.id == id {
      LiveIsNewest(Chain(w.log, id), w.st, w.used, sig);
    }
  }

  lemma OldTokenEndsFamily(cfg: Config, st: State, c: seq<Sig>, used: set<Sig>, id: ID, rq: Requester, now: Time)
    requires Indexed(st) && ChainKept(c, st, used, id)
    requires var sig := RefreshFlow.PresentedSig(cfg, rq); sig in c && sig != Last(c)
    ensures var (st', err, _) := RefreshFlow.Handle(cfg, st, rq, now);
            && (Dead(st', id) <==> HasGrant(rq.client, REFRESH_GRANT) || Dead(st, id))
            && err == if HasGrant(rq.client, REFRESH_GRANT) then Some(InvalidGrant) else Some(UnauthorizedClient)
  {
    hide RefreshFlow.CheckRefresh, RefreshFlow.Reuse, RefreshFlow.Renewed, HasGrant, Shrunk, OnlyFamily, Dead,
      AccessIndexed, RefreshIndexed;
    var sig := RefreshFlow.PresentedSig(cfg, rq);
    if sig in st.refresh {
      if st.refresh[sig].active {
        LiveIsNewest(c, st, used, sig);
      }
      ReuseEffect(st, sig);
    }
  }

  /** Presenting any refresh token of a family but its newest is refused, and afterwards the family
      has no live token if and only if the presenting client may use the refresh grant or the family
      had none before. */
  lemma OnlyTheNewestMayBePresented(cfg: Config, ss: seq<Service>, id: ID, rq: Requester, now: Time)
    requires AllServable(cfg, START, ss)
    requires var c := Chain(ServeAll(cfg, START, ss).log, id);
             var sig := RefreshFlow.PresentedSig(cfg, rq);
             sig in c && sig != Last(c)
    ensures var st := ServeAll(cfg, START, ss).st;
            var (st', err, _) := RefreshFlow.Handle(cfg, st, rq, now);
            && (Dead(st', id) <==> HasGrant(rq.client, REFRESH_GRANT) || Dead(st, id))
            && err == if HasGrant(rq.client, REFRESH_GRANT) then Some(InvalidGrant) else Some(UnauthorizedClient)
  {
    hide AllServable, ServeAll, Inv, Linear, ChainsGranted, Chain, Dead;
    StartIsSerial(cfg);
    ServeAllKeepsInv(cfg, START, ss);
    var w := ServeAll(cfg, START, ss);
    InvIsApart(cfg, w);
    OldTokenEndsFamily(cfg, w.st, Chain(w.log, id), w.used, id, rq, now);
  }

  /** A family that has ended, by reuse, replay or revocation, never holds a live token again. */
  lemma EndedFamilyStaysEnded(cfg: Config, ss: seq<Service>, later: seq<Service>, id: ID)
    requires AllServable(cfg, START, ss) && AllServable(cfg, ServeAll(cfg, START, ss), later)
    requires var w := ServeAll(cfg, START, ss);
             id in w.families && w.families[id].granted.Some? && Dead(w.st, id)
    ensures Dead(ServeAll(cfg, ServeAll(cfg, START, ss), later).st, id)
  {
    hide AllServable, ServeAll, AllPhases, Inv, Chained, Possible, Run, Dead;
    StartIsSerial(cfg);
    ServeAllKeepsInv(cfg, START, ss);
    var w := ServeAll(cfg, START, ss);
    ServingIsRunning(cfg, w, later);
    OverIsForever(cfg, w, id, AllPhases(cfg, w, later));
  }
}
