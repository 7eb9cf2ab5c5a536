/** What the log records about authorization codes, device sessions and grants: in every reachable
    state the store and the families are what the log says. */
module Ledger {
  import opened Prelude
  import opened Requests
  import opened Store
  import opened Grants
  import opened Protocol
  import opened Families
  import opened Runs
  import CodeFlow
  import DeviceFlow
  import PasswordFlow
  import RefreshFlow
  import Revocation

  // ---------------------------------------------------------------------------------------
  // Reading the log

  ghost predicate CodeSpent(log: seq<Entry>, code: Sig) {
    exists i :: 0 <= i < |log| && log[i].CodeRedeemed? && log[i].code == code
  }

  ghost predicate DeviceSpent(log: seq<Entry>, code: Sig) {
    exists i :: 0 <= i < |log| && log[i].DeviceRedeemed? && log[i].code == code
  }

  ghost predicate Started(log: seq<Entry>, id: ID, code: Sig, client: string) {
    exists i :: 0 <= i < |log| && log[i].DeviceStarted? && log[i].code == code
                && log[i].dar.id == id && log[i].dar.client.id == client
  }

  /** What was decided last about a user code. */
  function LastDecision(log: seq<Entry>, id: ID): Option<Decision> {
    if log == [] then None
    else
      var e := log[|log| - 1];
      if e.UserCodeDecided? && e.id == id then Some(e.decision) else LastDecision(log[..|log| - 1], id)
  }

  predicate Decides(e: Entry, id: ID) {
    e.UserCodeDecided? && e.id == id
  }

  /** Entry `i` decides, and none after it does. */
  predicate Final(log: seq<Entry>, id: ID, i: int) {
    0 <= i < |log| && Decides(log[i], id) && forall k :: i < k < |log| ==> !Decides(log[k], id)
  }

  /** It is the decision of the last entry that decides. */
  lemma {:induction false} LastDecisionMeaning(log: seq<Entry>, id: ID)
    ensures LastDecision(log, id).None? <==> forall i :: 0 <= i < |log| ==> !Decides(log[i], id)
    ensures LastDecision(log, id).Some? ==> exists i :: Final(log, id, i)
    ensures forall i :: Final(log, id, i) ==> LastDecision(log, id) == Some(log[i].decision)
  {
    if log != [] {
      var n := |log| - 1;
      var front := log[..n];
      LastDecisionMeaning(front, id);
      if Decides(log[n], id) {
        assert Final(log, id, n);
      } else {
        assert forall i :: 0 <= i < n ==> front[i] == log[i];
        forall i
          ensures Final(front, id, i) <==> Final(log, id, i)
        {
        }
      }
    }
  }

  lemma DecisionAppend(log: seq<Entry>, e: Entry, id: ID)
    ensures LastDecision(log + [e], id) == if Decides(e, id) then Some(e.decision) else LastDecision(log, id)
  {
    assert (log + [e])[..|log|] == log;
  }

  ghost predicate AcceptedLast(log: seq<Entry>, id: ID) {
    LastDecision(log, id).Some? && LastDecision(log, id).value.state == Accepted
  }

  // ---------------------------------------------------------------------------------------
  // The invariants

  /** Every code was issued by an authorization, which it still holds, and is spent exactly when the
      log says so; no code is redeemed twice. */
  ghost predicate CodesLogged(log: seq<Entry>, codes: map<Sig, CodeRecord>) {
    && (forall i :: 0 <= i < |log| && log[i].CodeRedeemed? ==>
          var e := log[i];
          e.code in codes && !codes[e.code].active && codes[e.code].req.id == e.id
              && codes[e.code].req.client.id == e.client)
    && (forall i, j :: 0 <= i < j < |log| && log[i].CodeRedeemed? && log[j].CodeRedeemed? ==>
         log[i].code != log[j].code)
    && (forall i :: 0 <= i < |log| && log[i].Authorized? ==>
          log[i].code in codes && codes[log[i].code].req == log[i].ar)
    && (forall s :: s in codes ==> Authorized(s, codes[s].req) in log && (codes[s].active || CodeSpent(log, s)))
  }

  /** A redeemed device code was accepted last before and went to its own client. */
  ghost predicate Justified(log: seq<Entry>, j: int)
    requires 0 <= j < |log|
  {
    log[j].DeviceRedeemed? ==>
      AcceptedLast(log[..j], log[j].id) && Started(log[..j], log[j].id, log[j].code, log[j].client)
  }

  /** A stored session stands as it was decided last. */
  ghost predicate Follows(log: seq<Entry>, rec: DeviceRecord) {
    match LastDecision(log, rec.req.id)
    case None => rec.userCode == Unused
    case Some(d) =>
      rec.userCode == d.state && rec.req.grantedScope == d.scopes && rec.req.grantedAudience == d.audience
  }

  /** Only the grants of a session change. */
  predicate SessionOf(rec: DeviceRecord, dar: Requester) {
    rec.req == dar.(grantedScope := rec.req.grantedScope, grantedAudience := rec.req.grantedAudience)
  }

  /** A redeemed device code is gone for good; any other that was started is stored. */
  ghost predicate DevicesLogged(log: seq<Entry>, devices: map<Sig, DeviceRecord>, used: set<Sig>) {
    && (forall i :: 0 <= i < |log| && log[i].DeviceRedeemed? ==> log[i].code !in devices && log[i].code in used)
    && (forall i, j :: 0 <= i < j < |log| && log[i].DeviceRedeemed? && log[j].DeviceRedeemed? ==>
         log[i].code != log[j].code)
    && (forall i :: 0 <= i < |log| ==> Justified(log, i))
    && (forall i :: 0 <= i < |log| && log[i].DeviceStarted? ==>
          && log[i].code in used
          && (log[i].code in devices ==> SessionOf(devices[log[i].code], log[i].dar))
          && (log[i].code in devices || DeviceSpent(log, log[i].code)))
    && (forall s :: s in devices ==> Follows(log, devices[s]))
  }

  ghost predicate StartsLogged(log: seq<Entry>, families: map<ID, Family>) {
    && (forall id :: id in families && families[id].origin.FromDevice? ==>
          Started(log, id, families[id].origin.deviceSig, families[id].client))
    && (forall i :: 0 <= i < |log| && log[i].UserCodeDecided? ==> log[i].id in families)
  }

  function GrantedBy(ar: Requester): Granted {
    Granted(Dedup(ar.grantedScope), Dedup(ar.grantedAudience), ar.session.subject)
  }

  ghost predicate GrantedByCode(log: seq<Entry>, id: ID, code: Sig, g: Granted) {
    exists i :: 0 <= i < |log| && log[i].Authorized? && log[i].code == code && log[i].ar.id == id
                && g == GrantedBy(log[i].ar)
  }

  ghost predicate GrantedByPassword(log: seq<Entry>, id: ID, g: Granted) {
    exists i :: 0 <= i < |log| && log[i].PasswordIssued? && log[i].id == id && log[i].granted == g
  }

  ghost predicate StartedFor(log: seq<Entry>, id: ID, code: Sig, subject: string) {
    exists i :: 0 <= i < |log| && log[i].DeviceStarted? && log[i].code == code
                && log[i].dar.id == id && log[i].dar.session.subject == subject
  }

  /** The decision that stood when the device code was redeemed. */
  ghost predicate GrantedByDecision(log: seq<Entry>, id: ID, code: Sig, g: Granted) {
    exists j :: 0 <= j < |log| && log[j].DeviceRedeemed? && log[j].id == id && log[j].code == code
                && AcceptedLast(log[..j], id) && StartedFor(log[..j], id, code, g.subject)
                && var d := LastDecision(log[..j], id).value;
                   g.scopes == Dedup(d.scopes) && g.audience == Dedup(d.audience)
  }

  /** What a family holds is what was granted where it came from. */
  ghost predicate GrantLogged(log: seq<Entry>, id: ID, f: Family) {
    f.granted.Some? ==>
      match f.origin
      case FromCode(code) => GrantedByCode(log, id, code, f.granted.value)
      case FromDevice(d, _) => GrantedByDecision(log, id, d, f.granted.value)
      case FromPassword => GrantedByPassword(log, id, f.granted.value)
  }

  ghost predicate GrantsLogged(log: seq<Entry>, families: map<ID, Family>) {
    forall id :: id in families ==> GrantLogged(log, id, families[id])
  }

  ghost predicate Logged(w: World) {
    && CodesLogged(w.log, w.st.codes)
    && DevicesLogged(w.log, w.st.devices, w.used)
    && StartsLogged(w.log, w.families)
    && GrantsLogged(w.log, w.families)
  }

  // ---------------------------------------------------------------------------------------
  // More entries

  lemma GrantAppend(log: seq<Entry>, e: Entry, id: ID, f: Family)
    requires GrantLogged(log, id, f)
    ensures GrantLogged(log + [e], id, f)
  {
    if f.granted.Some? {
      var g, log' := f.granted.value, log + [e];
      match f.origin
      case FromCode(code) =>
        var i :| 0 <= i < |log| && log[i].Authorized? && log[i].code == code && log[i].ar.id == id
                 && g == GrantedBy(log[i].ar);
        assert log'[i] == log[i];
      case FromDevice(d, _) =>
        var j :| 0 <= j < |log| && log[j].DeviceRedeemed? && log[j].id == id && log[j].code == d
                 && AcceptedLast(log[..j], id) && StartedFor(log[..j], id, d, g.subject)
                 && var d := LastDecision(log[..j], id).value;
                    g.scopes == Dedup(d.scopes) && g.audience == Dedup(d.audience);
        assert log'[j] == log[j] && log'[..j] == log[..j];
      case FromPassword =>
        var i :| 0 <= i < |log| && log[i].PasswordIssued? && log[i].id == id && log[i].granted == g;
        assert log'[i] == log[i];
    }
  }

  lemma GrantsAppend(log: seq<Entry>, e: Entry, families: map<ID, Family>)
    requires GrantsLogged(log, families)
    ensures GrantsLogged(log + [e], families)
  {
    hide GrantLogged;
    forall id | id in families
      ensures GrantLogged(log + [e], id, families[id])
    {
      GrantAppend(log, e, id, families[id]);
    }
  }

  lemma StartedAppend(log: seq<Entry>, e: Entry, id: ID, code: Sig, client: string)
    requires Started(log, id, code, client)
    ensures Started(log + [e], id, code, client)
  {
    var i :| 0 <= i < |log| && log[i].DeviceStarted? && log[i].code == code
             && log[i].dar.id == id && log[i].dar.client.id == client;
    assert (log + [e])[i] == log[i];
  }

  lemma StartsAppend(log: seq<Entry>, e: Entry, families: map<ID, Family>)
    requires StartsLogged(log, families) && (e.UserCodeDecided? ==> e.id in families)
    ensures StartsLogged(log + [e], families)
  {
    hide Started;
    forall id | id in families && families[id].origin.FromDevice?
      ensures Started(log + [e], id, families[id].origin.deviceSig, families[id].client)
    {
      StartedAppend(log, e, id, families[id].origin.deviceSig, families[id].client);
    }
  }

  lemma SpentAppend(log: seq<Entry>, e: Entry, code: Sig)
    ensures CodeSpent(log, code) ==> CodeSpent(log + [e], code)
    ensures DeviceSpent(log, code) ==> DeviceSpent(log + [e], code)
    ensures e.CodeRedeemed? && e.code == code ==> CodeSpent(log + [e], code)
    ensures e.DeviceRedeemed? && e.code == code ==> DeviceSpent(log + [e], code)
  {
    var log' := log + [e];
    assert log'[|log|] == e;
    if CodeSpent(log, code) {
      var i :| 0 <= i < |log| && log[i].CodeRedeemed? && log[i].code == code;
      assert log'[i] == log[i];
    }
    if DeviceSpent(log, code) {
      var i :| 0 <= i < |log| && log[i].DeviceRedeemed? && log[i].code == code;
      assert log'[i] == log[i];
    }
  }

  lemma JustifiedAppend(log: seq<Entry>, e: Entry)
    requires forall i :: 0 <= i < |log| ==> Justified(log, i)
    requires e.DeviceRedeemed? ==> AcceptedLast(log, e.id) && Started(log, e.id, e.code, e.client)
    ensures forall i :: 0 <= i < |log + [e]| ==> Justified(log + [e], i)
  {
    hide AcceptedLast, Started;
    var log' := log + [e];
    forall i | 0 <= i < |log'|
      ensures Justified(log', i)
    {
      if i < |log| {
        assert Justified(log, i) && log'[..i] == log[..i];
      } else {
        assert log'[..i] == log;
      }
    }
  }

  /** An entry about neither codes nor their redemption. */
  lemma CodesAppend(log: seq<Entry>, e: Entry, codes: map<Sig, CodeRecord>)
    requires CodesLogged(log, codes) && !e.CodeRedeemed? && !e.Authorized?
    ensures CodesLogged(log + [e], codes)
  {
    hide CodeSpent;
    forall s | s in codes
      ensures CodeSpent(log, s) ==> CodeSpent(log + [e], s)
    {
      SpentAppend(log, e, s);
    }
    assert forall x :: x in log ==> x in log + [e];
  }

  lemma AuthorizedEntry(log: seq<Entry>, codes: map<Sig, CodeRecord>, code: Sig, ar: Requester)
    requires CodesLogged(log, codes) && code !in codes
    ensures CodesLogged(log + [Authorized(code, ar)], codes[code := CodeRecord(true, ar)])
  {
    hide CodeSpent;
    var e := Authorized(code, ar);
    forall s | s in codes
      ensures CodeSpent(log, s) ==> CodeSpent(log + [e], s)
    {
      SpentAppend(log, e, s);
    }
    assert forall x :: x in log ==> x in log + [e];
    assert e in log + [e];
  }

  lemma CodeEntry(log: seq<Entry>, e: Entry, codes: map<Sig, CodeRecord>)
    requires CodesLogged(log, codes) && e.CodeRedeemed?
    requires e.code in codes && codes[e.code].active && codes[e.code].req.id == e.id
             && codes[e.code].req.client.id == e.client
    ensures CodesLogged(log + [e], codes[e.code := codes[e.code].(active := false)])
  {
    hide CodeSpent;
    forall s | s in codes
      ensures CodeSpent(log, s) || s == e.code ==> CodeSpent(log + [e], s)
    {
      SpentAppend(log, e, s);
    }
    assert forall x :: x in log ==> x in log + [e];
  }

  lemma FollowsAppend(log: seq<Entry>, e: Entry, rec: DeviceRecord)
    requires Follows(log, rec) && !Decides(e, rec.req.id)
    ensures Follows(log + [e], rec)
  {
    DecisionAppend(log, e, rec.req.id);
  }

  lemma UndecidedFollows(log: seq<Entry>, rec: DeviceRecord)
    requires LastDecision(log, rec.req.id) == None && rec.userCode == Unused
    ensures Follows(log, rec)
  {
  }

  lemma DecidedFollows(log: seq<Entry>, rec: DeviceRecord, d: Decision)
    requires LastDecision(log, rec.req.id) == Some(d)
    requires rec.userCode == d.state && rec.req.grantedScope == d.scopes && rec.req.grantedAudience == d.audience
    ensures Follows(log, rec)
  {
  }

  /** An entry about neither device codes nor decisions. */
  lemma DevicesAppend(log: seq<Entry>, e: Entry, devices: map<Sig, DeviceRecord>, used: set<Sig>)
    requires DevicesLogged(log, devices, used) && !e.DeviceRedeemed? && !e.DeviceStarted? && !e.UserCodeDecided?
    ensures DevicesLogged(log + [e], devices, used)
  {
    hide DeviceSpent, Follows, Justified, SessionOf;
    JustifiedAppend(log, e);
    forall s | s in devices
      ensures Follows(log + [e], devices[s])
    {
      FollowsAppend(log, e, devices[s]);
    }
    forall s
      ensures DeviceSpent(log, s) ==> DeviceSpent(log + [e], s)
    {
      SpentAppend(log, e, s);
    }
  }

  lemma StartedEntry(log: seq<Entry>, devices: map<Sig, DeviceRecord>, used: set<Sig>, d: Sig, u: Sig, dar: Requester)
    requires DevicesLogged(log, devices, used) && d !in used && u !in used && LastDecision(log, dar.id) == None
    ensures var rec := DeviceRecord(UserCodeState.Unused, dar);
            DevicesLogged(log + [DeviceStarted(d, dar)], devices[d := rec][u := rec], used + {d, u})
  {
    hide DeviceSpent, Follows, Justified;
    var e, rec := DeviceStarted(d, dar), DeviceRecord(UserCodeState.Unused, dar);
    JustifiedAppend(log, e);
    UndecidedFollows(log, rec);
    FollowsAppend(log, e, rec);
    forall s | s in devices
      ensures Follows(log + [e], devices[s])
    {
      FollowsAppend(log, e, devices[s]);
    }
    forall s
      ensures DeviceSpent(log, s) ==> DeviceSpent(log + [e], s)
    {
      SpentAppend(log, e, s);
    }
  }

  lemma DeviceEntry(log: seq<Entry>, e: Entry, devices: map<Sig, DeviceRecord>, used: set<Sig>)
    requires DevicesLogged(log, devices, used) && e.DeviceRedeemed?
    requires e.code in devices && e.code in used
    requires AcceptedLast(log, e.id) && Started(log, e.id, e.code, e.client)
    ensures DevicesLogged(log + [e], devices - {e.code}, used)
  {
    hide DeviceSpent, Follows, Justified, AcceptedLast, Started, SessionOf;
    JustifiedAppend(log, e);
    forall s | s in devices
      ensures Follows(log + [e], devices[s])
    {
      FollowsAppend(log, e, devices[s]);
    }
    forall s
      ensures DeviceSpent(log, s) || s == e.code ==> DeviceSpent(log + [e], s)
    {
      SpentAppend(log, e, s);
    }
  }

  lemma DecidedEntry(log: seq<Entry>, devices: map<Sig, DeviceRecord>, used: set<Sig>, id: ID, d: Decision)
    requires DevicesLogged(log, devices, used)
    ensures DevicesLogged(log + [UserCodeDecided(id, d)], DecideUserCode(devices, id, d.state, d.scopes, d.audience),
                          used)
  {
    hide DeviceSpent, Follows, Justified;
    var e, devices' := UserCodeDecided(id, d), DecideUserCode(devices, id, d.state, d.scopes, d.audience);
    JustifiedAppend(log, e);
    forall s | s in devices
      ensures Follows(log + [e], devices'[s])
    {
      if devices[s].req.id == id {
        DecisionAppend(log, e, id);
        DecidedFollows(log + [e], devices'[s], d);
      } else {
        FollowsAppend(log, e, devices[s]);
      }
    }
    forall s
      ensures DeviceSpent(log, s) ==> DeviceSpent(log + [e], s)
    {
      SpentAppend(log, e, s);
    }
  }

  lemma MoreUsedDevices(log: seq<Entry>, devices: map<Sig, DeviceRecord>, used: set<Sig>, used': set<Sig>)
    requires DevicesLogged(log, devices, used) && used <= used'
    ensures DevicesLogged(log, devices, used')
  {
    hide DeviceSpent, Follows, Justified, SessionOf;
  }

  /** A new family without a grant. */
  lemma NewFamily(log: seq<Entry>, families: map<ID, Family>, id: ID, origin: Origin, client: string)
    requires StartsLogged(log, families) && GrantsLogged(log, families) && id !in families
    requires origin.FromDevice? ==> Started(log, id, origin.deviceSig, client)
    ensures StartsLogged(log, AddFamily(families, id, origin, client))
    ensures GrantsLogged(log, AddFamily(families, id, origin, client))
  {
    hide Started;
    assert GrantLogged(log, id, Family(origin, client, None));
    hide GrantLogged;
  }

  lemma NewGrant(log: seq<Entry>, families: map<ID, Family>, rq: Requester)
    requires StartsLogged(log, families) && GrantsLogged(log, families) && rq.id in families
    requires GrantLogged(log, rq.id, FirstGrant(families, rq)[rq.id])
    ensures StartsLogged(log, FirstGrant(families, rq)) && GrantsLogged(log, FirstGrant(families, rq))
  {
    hide Started, GrantLogged;
  }

  // ---------------------------------------------------------------------------------------
  // Steps

  lemma AuthorizeKeepsLog(cfg: Config, w: World, code: Sig, ar: Requester)
    requires Inv(cfg, w) && Logged(w) && code !in w.used && ar.id !in w.families
    ensures Logged(DoAuthorize(w, code, ar))
  {
    var e, w' := Authorized(code, ar), DoAuthorize(w, code, ar);
    assert code !in w.st.codes by { hide AccessIndexed, RefreshIndexed, Apart, TokensConform, DevicesKnown,
                                   AllPendingKnown; }
    hide Inv, CodesLogged, DevicesLogged, StartsLogged, GrantsLogged;
    AuthorizedEntry(w.log, w.st.codes, code, ar);
    DevicesAppend(w.log, e, w.st.devices, w.used);
    MoreUsedDevices(w'.log, w.st.devices, w.used, w'.used);
    StartsAppend(w.log, e, w.families);
    GrantsAppend(w.log, e, w.families);
    NewFamily(w'.log, w.families, ar.id, FromCode(code), ar.client.id);
  }

  lemma UnknownIsUndecided(log: seq<Entry>, families: map<ID, Family>, id: ID)
    requires StartsLogged(log, families) && id !in families
    ensures LastDecision(log, id) == None
  {
    LastDecisionMeaning(log, id);
  }

  lemma StartDeviceKeepsLog(cfg: Config, w: World, d: Sig, u: Sig, dar: Requester)
    requires Logged(w) && d !in w.used && u !in w.used && dar.id !in w.families
    ensures Logged(DoStartDevice(w, d, u, dar))
  {
    var e, w' := DeviceStarted(d, dar), DoStartDevice(w, d, u, dar);
    UnknownIsUndecided(w.log, w.families, dar.id);
    assert w'.log[|w.log|] == e;
    assert Started(w'.log, dar.id, d, dar.client.id);
    hide CodesLogged, DevicesLogged, StartsLogged, GrantsLogged, Started;
    CodesAppend(w.log, e, w.st.codes);
    StartedEntry(w.log, w.st.devices, w.used, d, u, dar);
    StartsAppend(w.log, e, w.families);
    GrantsAppend(w.log, e, w.families);
    NewFamily(w'.log, w.families, dar.id, FromDevice(d, u), dar.client.id);
  }

  lemma DecideKeepsLog(cfg: Config, w: World, id: ID, decision: UserCodeState, scopes: seq<string>,
                       audience: seq<string>)
    requires Inv(cfg, w) && Logged(w)
    ensures Logged(DoDecide(w, id, decision, scopes, audience))
  {
    var e, w' := UserCodeDecided(id, Decision(decision, scopes, audience)), DoDecide(w, id, decision, scopes, audience);
    hide CodesLogged, DevicesLogged, StartsLogged, GrantsLogged;
    if id in w.families {
      CodesAppend(w.log, e, w.st.codes);
      DecidedEntry(w.log, w.st.devices, w.used, id, Decision(decision, scopes, audience));
      StartsAppend(w.log, e, w.families);
      GrantsAppend(w.log, e, w.families);
    } else {
      assert w'.st.devices == w.st.devices by { hide AccessIndexed, RefreshIndexed, Apart, TokensConform, CodesKnown,
                                               AllPendingKnown; }
    }
  }

  /** First phases and revocations change neither codes, device sessions nor the log. */
  lemma QuietStepsKeepLog(w: World, w': World)
    requires Logged(w)
    requires w'.st.codes == w.st.codes && w'.st.devices == w.st.devices && w'.families == w.families && w'.log == w.log
    requires w.used <= w'.used
    ensures Logged(w')
  {
    hide CodesLogged, DevicesLogged, StartsLogged, GrantsLogged;
    MoreUsedDevices(w.log, w.st.devices, w.used, w'.used);
  }

  lemma IssueKeepsCodes(st: State, req: Requester, at: Sig, rt: Option<Generated>)
    ensures var st' := CodeFlow.Issue(st, req, at, rt); st'.codes == st.codes && st'.devices == st.devices
  {
  }

  /** A code family is granted what its authorization was granted. */
  lemma CodeGrant(log: seq<Entry>, codes: map<Sig, CodeRecord>, families: map<ID, Family>, rq: Requester, sig: Sig)
    requires CodesLogged(log, codes) && sig in codes && Ungranted(rq)
    requires rq.id in families && families[rq.id].origin == FromCode(sig) && codes[sig].req.id == rq.id
    requires codes[sig].req.session.subject == rq.session.subject
    ensures var granted := Granting(rq, codes[sig].req);
            GrantLogged(log, rq.id, FirstGrant(families, granted)[rq.id])
  {
    hide CodeSpent;
    var e := Authorized(sig, codes[sig].req);
    var i :| 0 <= i < |log| && log[i] == e;
    assert Granting(rq, codes[sig].req).grantedScope == Dedup(codes[sig].req.grantedScope);
    assert GrantedByCode(log, rq.id, sig, GrantedBy(codes[sig].req));
  }

  lemma GrantingId(rq: Requester, ar: Requester)
    ensures Granting(rq, ar).id == rq.id && Granting(rq, ar).session == rq.session
  {
  }

  lemma PopulateCodeKeepsLog(cfg: Config, w: World, pid: nat, at: Generated, rt: Generated, now: Time)
    requires Inv(cfg, w) && Logged(w) && pid in w.pending && w.pending[pid].PendingCode?
    ensures Logged(DoPopulateCode(cfg, w, pid, at, rt, now))
  {
    PendingCodeFacts(cfg, w, pid);
    PendingCodeOrigin(cfg, w, pid);
    PopulateCodeShape(cfg, w, pid, at, rt, now);
    hide Inv, DoPopulateCode, Spent, Ungranted, CodesLogged, DevicesLogged, StartsLogged, GrantsLogged, GrantLogged,
      Granting, CodeIssues, SigOf, CodeFlow.Issue, FirstGrant, Sanitized, CodeFlow.PresentedSig;
    var rq := w.pending[pid].rq;
    var sig := CodeFlow.PresentedSig(cfg, rq);
    var w1, w' := Spend(w, pid, at, rt), DoPopulateCode(cfg, w, pid, at, rt, now);
    QuietStepsKeepLog(w, w1);
    if w' != w1 {
      var ar := w.st.codes[sig].req;
      var granted := Granting(rq, ar);
      GrantingId(rq, ar);
      var e := CodeRedeemed(rq.id, sig, rq.client.id, SigOf(CodeIssues(cfg, ar, rt)));
      IssueKeepsCodes(InvalidateCode(w.st, sig).0, Sanitized(granted, {}), at.sig, CodeIssues(cfg, ar, rt));
      CodeEntry(w.log, e, w.st.codes);
      DevicesAppend(w.log, e, w.st.devices, w1.used);
      StartsAppend(w.log, e, w.families);
      GrantsAppend(w.log, e, w.families);
      CodeGrant(w.log, w.st.codes, w.families, rq, sig);
      GrantAppend(w.log, e, rq.id, FirstGrant(w.families, granted)[rq.id]);
      NewGrant(w'.log, w.families, granted);
    }
  }

  lemma PendingCodeOrigin(cfg: Config, w: World, pid: nat)
    requires Inv(cfg, w) && pid in w.pending && w.pending[pid].PendingCode?
    ensures var rq := w.pending[pid].rq;
            var sig := CodeFlow.PresentedSig(cfg, rq);
            && rq.id in w.families && w.families[rq.id].origin == FromCode(sig) && sig in w.st.codes
            && w.st.codes[sig].req.session.subject == rq.session.subject
  {
    hide AccessIndexed, RefreshIndexed, Apart, TokensConform, DevicesKnown;
    assert PendingKnown(cfg, w.pending[pid], w.families, w.st.codes, w.st.devices);
  }

  /** A device family is granted what was decided last. */
  lemma DeviceGrant(log: seq<Entry>, e: Entry, devices: map<Sig, DeviceRecord>, used: set<Sig>,
                    families: map<ID, Family>, rq: Requester, sig: Sig)
    requires DevicesLogged(log, devices, used) && sig in devices && devices[sig].userCode == Accepted
    requires Ungranted(rq) && rq.id in families && families[rq.id].origin.FromDevice?
    requires families[rq.id].origin.deviceSig == sig && devices[sig].req.id == rq.id
    requires devices[sig].req.session.subject == rq.session.subject
    requires Started(log, rq.id, sig, rq.client.id) && e.DeviceRedeemed? && e.id == rq.id && e.code == sig
    ensures var granted := Granting(rq, devices[sig].req);
            GrantLogged(log + [e], rq.id, FirstGrant(families, granted)[rq.id])
    ensures AcceptedLast(log, rq.id)
  {
    hide DeviceSpent, Justified;
    var granted, log' := Granting(rq, devices[sig].req), log + [e];
    assert Follows(log, devices[sig]);
    var d := LastDecision(log, rq.id).value;
    var i :| 0 <= i < |log| && log[i].DeviceStarted? && log[i].code == sig && log[i].dar.id == rq.id;
    assert SessionOf(devices[sig], log[i].dar);
    assert StartedFor(log, rq.id, sig, rq.session.subject);
    assert log'[..|log|] == log && log'[|log|] == e;
    assert granted.grantedScope == Dedup(d.scopes) && granted.grantedAudience == Dedup(d.audience);
    var g := Granted(granted.grantedScope, granted.grantedAudience, rq.session.subject);
    assert GrantedByDecision(log', rq.id, sig, g);
  }

  lemma PopulateDeviceKeepsLog(cfg: Config, w: World, pid: nat, at: Generated, rt: Generated, now: Time)
    requires Inv(cfg, w) && Logged(w) && pid in w.pending && w.pending[pid].PendingDevice?
    ensures Logged(DoPopulateDevice(cfg, w, pid, at, rt, now))
  {
    PendingDeviceFacts(cfg, w, pid);
    PendingDeviceOrigin(cfg, w, pid);
    PopulateDeviceShape(cfg, w, pid, at, rt, now);
    hide Inv, DoPopulateDevice, Spent, Ungranted, CodesLogged, DevicesLogged, StartsLogged, GrantsLogged, GrantLogged,
      Granting, CodeIssues, SigOf, CodeFlow.Issue, FirstGrant, Sanitized, DeviceFlow.PresentedSig, Started,
      AcceptedLast;
    var rq := w.pending[pid].rq;
    var sig := DeviceFlow.PresentedSig(cfg, rq);
    var w1, w' := Spend(w, pid, at, rt), DoPopulateDevice(cfg, w, pid, at, rt, now);
    if w' == w1 {
      QuietStepsKeepLog(w, w1);
    } else {
      var ar := w.st.devices[sig].req;
      var granted := Granting(rq, ar);
      GrantingId(rq, ar);
      var e := DeviceRedeemed(rq.id, sig, rq.client.id, SigOf(CodeIssues(cfg, granted, rt)));
      IssueKeepsCodes(InvalidateDevice(w.st, sig), Sanitized(granted, {}), at.sig, CodeIssues(cfg, granted, rt));
      CodesAppend(w.log, e, w.st.codes);
      DeviceGrant(w.log, e, w.st.devices, w.used, w.families, rq, sig);
      DeviceEntry(w.log, e, w.st.devices, w.used);
      MoreUsedDevices(w'.log, w'.st.devices, w.used, w'.used);
      StartsAppend(w.log, e, w.families);
      GrantsAppend(w.log, e, w.families);
      NewGrant(w'.log, w.families, granted);
    }
  }

  lemma PendingDeviceOrigin(cfg: Config, w: World, pid: nat)
    requires Inv(cfg, w) && Logged(w) && pid in w.pending && w.pending[pid].PendingDevice?
    ensures var rq := w.pending[pid].rq;
            var sig := DeviceFlow.PresentedSig(cfg, rq);
            && sig in w.used && Started(w.log, rq.id, sig, rq.client.id)
            && rq.id in w.families && w.families[rq.id].origin.FromDevice?
            && w.families[rq.id].origin.deviceSig == sig
            && (sig in w.st.devices ==> w.st.devices[sig].req.id == rq.id
                                        && w.st.devices[sig].req.session.subject == rq.session.subject)
  {
    hide AccessIndexed, RefreshIndexed, Apart, TokensConform, CodesKnown, DevicesKnown, CodesLogged, DevicesLogged,
      GrantsLogged, Started;
    assert PendingKnown(cfg, w.pending[pid], w.families, w.st.codes, w.st.devices);
  }

  lemma PasswordRequestSubject(cfg: Config, rq0: Requester, scopes: seq<string>, audience: seq<string>, now: Time)
    requires PasswordFlow.Handle(cfg, rq0, now).0 == None
    ensures var rq := PasswordRequest(cfg, rq0, scopes, audience, now);
            Granted(rq.grantedScope, rq.grantedAudience, rq.session.subject)
            == PasswordGranted(cfg, rq0, scopes, audience)
  {
  }

  lemma PasswordKeepsLog(cfg: Config, w: World, rq0: Requester, scopes: seq<string>, audience: seq<string>,
                         at: Generated, rt: Generated, now: Time, half: bool)
    requires Logged(w) && rt.sig != "" && rq0.id !in w.families
    ensures Logged(DoPassword(cfg, w, rq0, scopes, audience, at, rt, now, half))
  {
    PasswordShape(cfg, w, rq0, scopes, audience, at, rt, now, half);
    hide PasswordRequest, CodesLogged, DevicesLogged, StartsLogged, GrantsLogged, NoRepeats, PasswordIssues, Sanitized,
      CodeFlow.Issue, SigOf, PasswordGranted, PasswordFlow.Handle, PasswordFlow.Populate, CreateAccess;
    var rq := PasswordRequest(cfg, rq0, scopes, audience, now);
    var w' := DoPassword(cfg, w, rq0, scopes, audience, at, rt, now, half);
    if w' != w {
      PasswordRequestSubject(cfg, rq0, scopes, audience, now);
      var e := PasswordIssued(rq.id, PasswordGranted(cfg, rq0, scopes, audience),
                              SigOf(PasswordIssues(cfg, rq, rt, half)));
      CodesAppend(w.log, e, w.st.codes);
      DevicesAppend(w.log, e, w.st.devices, w.used);
      MoreUsedDevices(w'.log, w.st.devices, w.used, w'.used);
      StartsAppend(w.log, e, w.families);
      GrantsAppend(w.log, e, w.families);
      IssueKeepsCodes(w.st, Sanitized(rq, {}), at.sig, PasswordIssues(cfg, rq, rt, half));
      var families := AddFamily(w.families, rq.id, FromPassword, rq.client.id);
      NewFamily(w'.log, w.families, rq.id, FromPassword, rq.client.id);
      assert w'.log[|w.log|] == e;
      assert GrantedByPassword(w'.log, rq.id, e.granted);
      NewGrant(w'.log, families, rq);
    }
  }

  lemma PopulateRefreshKeepsLog(cfg: Config, w: World, pid: nat, at: Generated, rt: Generated, now: Time)
    requires Logged(w) && pid in w.pending && rt.sig != ""
    ensures Logged(DoPopulateRefresh(cfg, w, pid, at, rt, now))
  {
    PopulateRefreshShape(cfg, w, pid, at, rt, now);
    hide DoPopulateRefresh, CodesLogged, DevicesLogged, StartsLogged, GrantsLogged, Sanitized, Rotate, RevokeAccess,
      RevokeRefresh;
    var rq := w.pending[pid].rq;
    var w1, w' := Spend(w, pid, at, rt), DoPopulateRefresh(cfg, w, pid, at, rt, now);
    QuietStepsKeepLog(w, w1);
    if w' != w1 {
      var e := Refreshed(rq.id, RefreshFlow.PresentedSig(cfg, rq), rt.sig);
      CodesAppend(w.log, e, w.st.codes);
      DevicesAppend(w.log, e, w.st.devices, w1.used);
      StartsAppend(w.log, e, w.families);
      GrantsAppend(w.log, e, w.families);
      RevokedCodes(w.st, rq.id, RefreshFlow.PresentedSig(cfg, rq));
    }
  }

  /** Taking tokens away leaves codes and device sessions alone. */
  lemma RevokedCodes(st: State, id: ID, sig: Sig)
    ensures var st' := RevokeAccess(RevokeRefresh(st, id).0, id); st'.codes == st.codes && st'.devices == st.devices
    ensures var st' := CodeFlow.Replay(st, id); st'.codes == st.codes && st'.devices == st.devices
    ensures var st' := RefreshFlow.Reuse(st, sig, id); st'.codes == st.codes && st'.devices == st.devices
  {
    hide Deactivated, Without;
  }

  lemma HandleCodeKeepsCodes(cfg: Config, st: State, rq: Requester, now: Time)
    ensures var st' := CodeFlow.Handle(cfg, st, rq, now).0; st'.codes == st.codes && st'.devices == st.devices
  {
    hide CodeFlow.CheckCode, CodeFlow.Replay, CodeFlow.Hydrated, HasGrant;
    var sig := CodeFlow.PresentedSig(cfg, rq);
    if sig in st.codes {
      RevokedCodes(st, st.codes[sig].req.id, sig);
    }
  }

  lemma HandleRefreshKeepsCodes(cfg: Config, st: State, rq: Requester, now: Time)
    ensures var st' := RefreshFlow.Handle(cfg, st, rq, now).0; st'.codes == st.codes && st'.devices == st.devices
  {
    hide RefreshFlow.CheckRefresh, RefreshFlow.Reuse, RefreshFlow.Renewed, HasGrant;
    var sig := RefreshFlow.PresentedSig(cfg, rq);
    if sig in st.refresh {
      RevokedCodes(st, st.refresh[sig].req.id, sig);
    }
  }

  lemma HandleDeviceKeepsState(cfg: Config, st: State, rq: Requester, now: Time)
    ensures DeviceFlow.Handle(cfg, st, rq, now).0 == st
  {
    hide DeviceFlow.Hydrated, DeviceFlow.Session, ValidateDevice, HasGrant;
  }

  lemma LoseKeepsLog(w: World, id: ID, presented: Option<Sig>, refresh: bool, access: bool)
    requires Logged(w)
    ensures Logged(DoLose(w, id, presented, refresh, access))
  {
    hide Logged, Deactivated, Without;
    QuietStepsKeepLog(w, DoLose(w, id, presented, refresh, access));
  }

  lemma StepKeepsLog(cfg: Config, w: World, e: Event)
    requires Inv(cfg, w) && Logged(w) && Enabled(cfg, w, e)
    ensures Logged(Step(cfg, w, e))
  {
    hide Inv, Logged, DoAuthorize, DoStartDevice, DoDecide, DoPopulateCode, DoPopulateDevice, DoPassword,
      DoPopulateRefresh, DoLose, CodeFlow.Handle, DeviceFlow.Handle, RefreshFlow.Handle;
    match e
    case Authorize(code, ar) => AuthorizeKeepsLog(cfg, w, code, ar);
    case StartDevice(d, u, dar) => StartDeviceKeepsLog(cfg, w, d, u, dar);
    case Decide(id, decision, scopes, audience) => DecideKeepsLog(cfg, w, id, decision, scopes, audience);
    case HandleCode(pid, rq, now) =>
      HandleCodeKeepsCodes(cfg, w.st, rq, now);
      QuietStepsKeepLog(w, DoHandleCode(cfg, w, pid, rq, now));
    case PopulateCode(pid, at, rt, now) => PopulateCodeKeepsLog(cfg, w, pid, at, rt, now);
    case HandleDevice(pid, rq, now) =>
      HandleDeviceKeepsState(cfg, w.st, rq, now);
      QuietStepsKeepLog(w, DoHandleDevice(cfg, w, pid, rq, now));
    case PopulateDevice(pid, at, rt, now) => PopulateDeviceKeepsLog(cfg, w, pid, at, rt, now);
    case Password(rq, scopes, audience, at, rt, now, half) =>
      PasswordKeepsLog(cfg, w, rq, scopes, audience, at, rt, now, half);
    case HandleRefresh(pid, rq, now) =>
      HandleRefreshKeepsCodes(cfg, w.st, rq, now);
      QuietStepsKeepLog(w, DoHandleRefresh(cfg, w, pid, rq, now));
    case PopulateRefresh(pid, at, rt, now) => PopulateRefreshKeepsLog(cfg, w, pid, at, rt, now);
    case Revoke(token, hint, client) => QuietStepsKeepLog(w, DoRevoke(cfg, w, token, hint, client));
    case Abort(pid, at, rt) => QuietStepsKeepLog(w, Spend(w, pid, at, rt));
    case Lose(id, presented, refresh, access) => LoseKeepsLog(w, id, presented, refresh, access);
  }

  lemma {:induction false} RunKeepsLog(cfg: Config, w: World, es: seq<Event>)
    requires Inv(cfg, w) && Logged(w) && Possible(cfg, w, es)
    ensures Logged(Run(cfg, w, es))
    decreases |es|
  {
    hide Inv, Logged, Step, Enabled;
    if es != [] {
      StepKeepsInv(cfg, w, es[0]);
      StepKeepsLog(cfg, w, es[0]);
      RunKeepsLog(cfg, Step(cfg, w, es[0]), es[1..]);
    }
  }

  lemma StartLogged()
    ensures Logged(START)
  {
  }
}
