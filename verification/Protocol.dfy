/** The token endpoint as a state machine over one store. Each phase of a request is one atomic step,
    so the phases of different requests interleave freely; revocations and the application's own
    decisions are steps too, and so is what failing operations of a transactional store leave behind:
    a second phase that is rolled back (`Abort`), revocations of which only some happened (`Lose`) and
    a password grant whose second write failed. `Failures` shows that these are all the outcomes of
    the handlers under failures. A family is everything issued under one request ID.

    What the environment guarantees is in `Enabled`: request IDs and generated signatures are new,
    a token request starts without grants, and a device code whose MAC verifies does not carry the
    signature of a user code, which has no MAC. */
module Protocol {
  import opened Prelude
  import opened Requests
  import opened Store
  import opened Grants
  import Arguments
  import CodeFlow
  import DeviceFlow
  import PasswordFlow
  import RefreshFlow
  import Revocation

  datatype Origin = FromCode(code: Sig) | FromDevice(deviceSig: Sig, userSig: Sig) | FromPassword

  /** The scopes, audience and subject of the first token of a family. */
  datatype Granted = Granted(scopes: seq<string>, audience: seq<string>, subject: string)

  /** `granted` is set when the family's first token is issued. */
  datatype Family = Family(origin: Origin, client: string, granted: Option<Granted>)

  /** A token request between its two phases. */
  datatype Pending = PendingCode(rq: Requester) | PendingDevice(rq: Requester) | PendingRefresh(rq: Requester)

  /** What the application decides about a user code. */
  datatype Decision = Decision(state: UserCodeState, scopes: seq<string>, audience: seq<string>)

  datatype Entry =
    | Authorized(code: Sig, ar: Requester)
    | DeviceStarted(code: Sig, dar: Requester)
    | UserCodeDecided(id: ID, decision: Decision)
    | CodeRedeemed(id: ID, code: Sig, client: string, rt: Option<Sig>)
    | DeviceRedeemed(id: ID, code: Sig, client: string, rt: Option<Sig>)
    | PasswordIssued(id: ID, granted: Granted, rt: Option<Sig>)
    | Refreshed(id: ID, presented: Sig, next: Sig)

  /** `used` are all signatures generated so far, `genuine` those of tokens and codes that carry
      their own MAC, `renewed` maps those issued by a refresh to the client as it was then. */
  datatype World = World(
    st: State,
    used: set<Sig>,
    genuine: set<Sig>,
    families: map<ID, Family>,
    pending: map<nat, Pending>,
    renewed: map<Sig, Client>,
    log: seq<Entry>)

  const START := World(EMPTY, {}, {}, map[], map[], map[], [])

  datatype Event =
    | Authorize(code: Sig, ar: Requester)
    | StartDevice(deviceSig: Sig, userSig: Sig, dar: Requester)
    | Decide(id: ID, decision: UserCodeState, scopes: seq<string>, audience: seq<string>)
    | HandleCode(pid: nat, rq: Requester, now: Time)
    | PopulateCode(pid: nat, at: Generated, rt: Generated, now: Time)
    | HandleDevice(pid: nat, rq: Requester, now: Time)
    | PopulateDevice(pid: nat, at: Generated, rt: Generated, now: Time)
    | Password(rq: Requester, scopes: seq<string>, audience: seq<string>, at: Generated, rt: Generated, now: Time,
               half: bool)
    | HandleRefresh(pid: nat, rq: Requester, now: Time)
    | PopulateRefresh(pid: nat, at: Generated, rt: Generated, now: Time)
    | Revoke(token: string, hint: Option<TokenType>, client: Client)
    | Abort(pid: nat, at: Generated, rt: Generated)
    | Lose(id: ID, presented: Option<Sig>, refresh: bool, access: bool)

  predicate BothNew(w: World, at: Generated, rt: Generated) {
    at.sig !in w.used && rt.sig !in w.used && at.sig != rt.sig && at.sig != "" && rt.sig != ""
  }

  predicate Ungranted(rq: Requester) {
    rq.grantedScope == [] && rq.grantedAudience == []
  }

  /** A device code whose MAC verifies does not carry a signature that was generated without one. */
  predicate Genuine(cfg: Config, w: World, rq: Requester) {
    var sig := DeviceFlow.PresentedSig(cfg, rq);
    cfg.mac(DeviceCode, Get(rq.form, "device_code")) == None && sig in w.used ==> sig in w.genuine
  }

  predicate Enabled(cfg: Config, w: World, e: Event) {
    match e
    case Authorize(code, ar) => code !in w.used && ar.id !in w.families
    case StartDevice(d, u, dar) => d != u && d !in w.used && u !in w.used && dar.id !in w.families
    case Decide(_, _, _, _) => true
    case HandleCode(pid, rq, _) => pid !in w.pending && Ungranted(rq)
    case PopulateCode(pid, at, rt, _) => pid in w.pending && w.pending[pid].PendingCode? && BothNew(w, at, rt)
    case HandleDevice(pid, rq, _) =>
      && pid !in w.pending && Ungranted(rq)
      && Genuine(cfg, w, rq)
    case PopulateDevice(pid, at, rt, _) => pid in w.pending && w.pending[pid].PendingDevice? && BothNew(w, at, rt)
    case Password(rq, _, _, at, rt, _, _) => rq.id !in w.families && Ungranted(rq) && BothNew(w, at, rt)
    case HandleRefresh(pid, rq, _) => pid !in w.pending && Ungranted(rq)
    case PopulateRefresh(pid, at, rt, _) => pid in w.pending && w.pending[pid].PendingRefresh? && BothNew(w, at, rt)
    case Revoke(_, _, _) => true
    case Abort(pid, at, rt) => pid in w.pending && BothNew(w, at, rt)
    case Lose(_, _, _, _) => true
  }

  function AddFamily(families: map<ID, Family>, id: ID, origin: Origin, client: string): map<ID, Family> {
    families[id := Family(origin, client, None)]
  }

  /** The family's first tokens carry the grants of this request. */
  function FirstGrant(families: map<ID, Family>, rq: Requester): map<ID, Family> {
    if rq.id in families then
      families[rq.id := families[rq.id].(granted :=
        Some(Granted(rq.grantedScope, rq.grantedAudience, rq.session.subject)))]
    else families
  }

  function DoAuthorize(w: World, code: Sig, ar: Requester): World {
    w.(families := AddFamily(w.families, ar.id, FromCode(code), ar.client.id),
       st := CreateCode(w.st, code, ar), used := w.used + {code}, genuine := w.genuine + {code},
       log := w.log + [Authorized(code, ar)])
  }

  function DoStartDevice(w: World, d: Sig, u: Sig, dar: Requester): World {
    w.(families := AddFamily(w.families, dar.id, FromDevice(d, u), dar.client.id),
       st := CreateDevice(w.st, d, u, DeviceRecord(UserCodeState.Unused, dar)),
       used := w.used + {d, u}, genuine := w.genuine + {d},
       log := w.log + [DeviceStarted(d, dar)])
  }

  /** The application decides a user code and, accepting it, fixes what it grants. A decision about an
      unknown request is none. */
  function DoDecide(w: World, id: ID, decision: UserCodeState, scopes: seq<string>, audience: seq<string>): World {
    w.(st := w.st.(devices := DecideUserCode(w.st.devices, id, decision, scopes, audience)),
       log := if id in w.families then w.log + [UserCodeDecided(id, Decision(decision, scopes, audience))] else w.log)
  }

  /** The end of a first phase: on success the request waits for its second phase. */
  function Await(w: World, pid: nat, st: State, err: Option<Error>, p: Pending): World {
    if err.Some? then w.(st := st) else w.(st := st, pending := w.pending[pid := p])
  }

  ghost function DoHandleCode(cfg: Config, w: World, pid: nat, rq: Requester, now: Time): World {
    var (st, err, rq') := CodeFlow.Handle(cfg, w.st, rq, now);
    Await(w, pid, st, err, PendingCode(rq'))
  }

  ghost function DoHandleDevice(cfg: Config, w: World, pid: nat, rq: Requester, now: Time): World {
    var (st, err, rq') := DeviceFlow.Handle(cfg, w.st, rq, now);
    Await(w, pid, st, err, PendingDevice(rq'))
  }

  ghost function DoHandleRefresh(cfg: Config, w: World, pid: nat, rq: Requester, now: Time): World {
    var (st, err, rq') := RefreshFlow.Handle(cfg, w.st, rq, now);
    Await(w, pid, st, err, PendingRefresh(rq'))
  }

  /** The start of a second phase: the request is taken up and signatures are generated. */
  function Spend(w: World, pid: nat, at: Generated, rt: Generated): World {
    w.(pending := w.pending - {pid},
       used := w.used + {at.sig, rt.sig},
       genuine := w.genuine + {at.sig, rt.sig})
  }

  ghost function CodeIssues(cfg: Config, ar: Requester, rt: Generated): Option<Generated> {
    if CanIssueRefresh(cfg, ar.grantedScope, ar.client) then Some(rt) else None
  }

  function SigOf(g: Option<Generated>): Option<Sig> {
    if g.Some? then Some(g.value.sig) else None
  }

  ghost function DoPopulateCode(cfg: Config, w: World, pid: nat, at: Generated, rt: Generated, now: Time): World
    requires pid in w.pending
  {
    var rq := w.pending[pid].rq;
    var sig := CodeFlow.PresentedSig(cfg, rq);
    var (st, err, _) := CodeFlow.Populate(cfg, w.st, rq, Some(at), Some(rt), now);
    var w1 := Spend(w, pid, at, rt);
    if err.Some? || sig !in w.st.codes then w1.(st := st)
    else
      var ar := w.st.codes[sig].req;
      w1.(st := st,
          families := FirstGrant(w.families, Granting(rq, ar)),
          log := w.log + [CodeRedeemed(rq.id, sig, rq.client.id, SigOf(CodeIssues(cfg, ar, rt)))])
  }

  ghost function DoPopulateDevice(cfg: Config, w: World, pid: nat, at: Generated, rt: Generated, now: Time): World
    requires pid in w.pending
  {
    var rq := w.pending[pid].rq;
    var sig := DeviceFlow.PresentedSig(cfg, rq);
    var (st, err, _) := DeviceFlow.Populate(cfg, w.st, rq, Some(at), Some(rt), now);
    var w1 := Spend(w, pid, at, rt);
    if err.Some? || sig !in w.st.devices then w1.(st := st)
    else
      var granted := Granting(rq, w.st.devices[sig].req);
      w1.(st := st,
          families := FirstGrant(w.families, granted),
          log := w.log + [DeviceRedeemed(rq.id, sig, rq.client.id, SigOf(CodeIssues(cfg, granted, rt)))])
  }

  /** Between the two phases of a password grant the application grants scopes and audience. */
  ghost function PasswordRequest(cfg: Config, rq: Requester, scopes: seq<string>, audience: seq<string>, now: Time)
    : Requester
  {
    PasswordFlow.Handle(cfg, rq, now).1.(grantedScope := Dedup(scopes), grantedAudience := Dedup(audience))
  }

  /** What the application grants, for the subject that the credentials belong to. */
  function PasswordGranted(cfg: Config, rq: Requester, scopes: seq<string>, audience: seq<string>): Granted {
    Granted(Dedup(scopes), Dedup(audience),
            cfg.authenticate(Get(rq.form, "username"), Get(rq.form, "password")).0)
  }

  ghost function PasswordIssues(cfg: Config, rq: Requester, rt: Generated, half: bool): Option<Generated> {
    if RefreshAllowed(cfg, rq.grantedScope) && !half then Some(rt) else None
  }

  /** The password grant reads no token state in its first phase, so it is one step. Its writes are not
      in a transaction: `half` tells that the second one failed and the access token stays. */
  ghost function DoPassword(cfg: Config, w: World, rq0: Requester, scopes: seq<string>, audience: seq<string>,
                            at: Generated, rt: Generated, now: Time, half: bool): World
  {
    if PasswordFlow.Handle(cfg, rq0, now).0.Some? then w
    else
      var rq := PasswordRequest(cfg, rq0, scopes, audience, now);
      w.(st := if half then CreateAccess(w.st, at.sig, Sanitized(rq, {}))
               else PasswordFlow.Populate(cfg, w.st, rq, Some(at), Some(rt), now).0,
         families := FirstGrant(AddFamily(w.families, rq.id, FromPassword, rq.client.id), rq),
         used := w.used + {at.sig, rt.sig},
         genuine := w.genuine + {at.sig, rt.sig},
         log := w.log + [PasswordIssued(rq.id, PasswordGranted(cfg, rq0, scopes, audience),
                                        SigOf(PasswordIssues(cfg, rq, rt, half)))])
  }

  ghost function DoPopulateRefresh(cfg: Config, w: World, pid: nat, at: Generated, rt: Generated, now: Time): World
    requires pid in w.pending
  {
    var rq := w.pending[pid].rq;
    var (st, err, _) := RefreshFlow.Populate(cfg, w.st, rq, Some(at), Some(rt), now);
    var w1 := Spend(w, pid, at, rt).(st := st);
    if err.Some? then w1
    else w1.(renewed := w.renewed[at.sig := rq.client][rt.sig := rq.client],
             log := w.log + [Refreshed(rq.id, RefreshFlow.PresentedSig(cfg, rq), rt.sig)])
  }

  function DoRevoke(cfg: Config, w: World, token: string, hint: Option<TokenType>, client: Client): World {
    w.(st := Revocation.Revoke(cfg, w.st, token, hint, client).0)
  }

  /** The reaction to a replayed code or a reused token, or a revocation, of which some operations
      failed; for a reused token the token itself is deleted first. */
  function DoLose(w: World, id: ID, presented: Option<Sig>, refresh: bool, access: bool): World {
    w.(st := Lost(if presented.Some? then DeleteRefresh(w.st, presented.value) else w.st, id, refresh, access))
  }

  ghost function Step(cfg: Config, w: World, e: Event): World
    requires Enabled(cfg, w, e)
  {
    match e
    case Authorize(code, ar) => DoAuthorize(w, code, ar)
    case StartDevice(d, u, dar) => DoStartDevice(w, d, u, dar)
    case Decide(id, decision, scopes, audience) => DoDecide(w, id, decision, scopes, audience)
    case HandleCode(pid, rq, now) => DoHandleCode(cfg, w, pid, rq, now)
    case PopulateCode(pid, at, rt, now) => DoPopulateCode(cfg, w, pid, at, rt, now)
    case HandleDevice(pid, rq, now) => DoHandleDevice(cfg, w, pid, rq, now)
    case PopulateDevice(pid, at, rt, now) => DoPopulateDevice(cfg, w, pid, at, rt, now)
    case Password(rq, scopes, audience, at, rt, now, half) =>
      DoPassword(cfg, w, rq, scopes, audience, at, rt, now, half)
    case HandleRefresh(pid, rq, now) => DoHandleRefresh(cfg, w, pid, rq, now)
    case PopulateRefresh(pid, at, rt, now) => DoPopulateRefresh(cfg, w, pid, at, rt, now)
    case Revoke(token, hint, client) => DoRevoke(cfg, w, token, hint, client)
    case Abort(pid, at, rt) => Spend(w, pid, at, rt)
    case Lose(id, presented, refresh, access) => DoLose(w, id, presented, refresh, access)
  }

  /** Every event of the run is possible where it happens. */
  ghost predicate Possible(cfg: Config, w: World, es: seq<Event>)
    decreases |es|
  {
    es == [] || (Enabled(cfg, w, es[0]) && Possible(cfg, Step(cfg, w, es[0]), es[1..]))
  }

  ghost function Run(cfg: Config, w: World, es: seq<Event>): World
    requires Possible(cfg, w, es)
    decreases |es|
  {
    if es == [] then w else Run(cfg, Step(cfg, w, es[0]), es[1..])
  }
}
