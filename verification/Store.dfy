/** The in-memory store of storage/memory.go. `State` is its content as a value, the functions
    are its operations on that value, and `MemoryStore` is the object whose methods update the
    maps in place. Revocation and rotation reach a token only through the request-ID indexes. */
module Store {
  import opened Prelude
  import opened Requests

  datatype CodeRecord = CodeRecord(active: bool, req: Requester)

  datatype RefreshRecord = RefreshRecord(active: bool, accessSig: Sig, req: Requester)

  datatype UserCodeState = Unused | Accepted | Rejected

  datatype DeviceRecord = DeviceRecord(userCode: UserCodeState, req: Requester)

  datatype State = State(
    codes: map<Sig, CodeRecord>,
    access: map<Sig, Requester>,
    refresh: map<Sig, RefreshRecord>,
    accessIdx: map<ID, Sig>,
    refreshIdx: map<ID, Sig>,
    devices: map<Sig, DeviceRecord>,
    pkce: map<Sig, Requester>,
    par: map<string, Authorization>,
    jtis: map<string, Time>)

  const EMPTY := State(map[], map[], map[], map[], map[], map[], map[], map[], map[])

  function CreateCode(st: State, sig: Sig, req: Requester): State {
    st.(codes := st.codes[sig := CodeRecord(true, req)])
  }

  function GetCode(st: State, sig: Sig): (Option<Requester>, Option<Error>) {
    if sig !in st.codes then (None, Some(NotFound))
    else if !st.codes[sig].active then (Some(st.codes[sig].req), Some(InvalidatedAuthorizeCode))
    else (Some(st.codes[sig].req), None)
  }

  function InvalidateCode(st: State, sig: Sig): (State, Option<Error>) {
    if sig !in st.codes then (st, Some(NotFound))
    else (st.(codes := st.codes[sig := st.codes[sig].(active := false)]), None)
  }

  function CreateAccess(st: State, sig: Sig, req: Requester): State {
    st.(access := st.access[sig := req], accessIdx := st.accessIdx[req.id := sig])
  }

  function GetAccess(st: State, sig: Sig): (Option<Requester>, Option<Error>) {
    if sig !in st.access then (None, Some(NotFound)) else (Some(st.access[sig]), None)
  }

  function DeleteAccess(st: State, sig: Sig): State {
    st.(access := st.access - {sig})
  }

  function CreateRefresh(st: State, sig: Sig, accessSig: Sig, req: Requester): State {
    st.(refresh := st.refresh[sig := RefreshRecord(true, accessSig, req)],
        refreshIdx := st.refreshIdx[req.id := sig])
  }

  function GetRefresh(st: State, sig: Sig): (Option<Requester>, Option<Error>) {
    if sig !in st.refresh then (None, Some(NotFound))
    else if !st.refresh[sig].active then (Some(st.refresh[sig].req), Some(InactiveToken))
    else (Some(st.refresh[sig].req), None)
  }

  function DeleteRefresh(st: State, sig: Sig): State {
    st.(refresh := st.refresh - {sig})
  }

  /** The refresh tokens once the one a family's index entry names is inactive. */
  function Deactivated(refresh: map<Sig, RefreshRecord>, idx: map<ID, Sig>, id: ID): map<Sig, RefreshRecord> {
    if id in idx && idx[id] in refresh then refresh[idx[id] := refresh[idx[id]].(active := false)] else refresh
  }

  function RevokeRefresh(st: State, id: ID): (State, Option<Error>) {
    (st.(refresh := Deactivated(st.refresh, st.refreshIdx, id)),
     if id in st.refreshIdx && st.refreshIdx[id] !in st.refresh then Some(NotFound) else None)
  }

  /** The access tokens without the one a family's index entry names. */
  function Without(access: map<Sig, Requester>, idx: map<ID, Sig>, id: ID): map<Sig, Requester> {
    if id in idx then access - {idx[id]} else access
  }

  function RevokeAccess(st: State, id: ID): State {
    st.(access := Without(st.access, st.accessIdx, id))
  }

  /** The store after the revocations of a family of which some may not have happened. */
  function Lost(st: State, id: ID, refresh: bool, access: bool): State {
    var st1 := if refresh then RevokeRefresh(st, id).0 else st;
    if access then RevokeAccess(st1, id) else st1
  }

  function Rotate(st: State, id: ID): (State, Option<Error>) {
    var (st1, err) := RevokeRefresh(st, id);
    if err.Some? then (st1, err) else (RevokeAccess(st1, id), None)
  }

  function CreateDevice(st: State, deviceSig: Sig, userSig: Sig, rec: DeviceRecord): State {
    st.(devices := st.devices[deviceSig := rec][userSig := rec])
  }

  function GetDevice(st: State, sig: Sig): (Option<DeviceRecord>, Option<Error>) {
    if sig !in st.devices then (None, Some(NotFound)) else (Some(st.devices[sig]), None)
  }

  function InvalidateDevice(st: State, sig: Sig): State {
    st.(devices := st.devices - {sig})
  }

  function DecideRecord(rec: DeviceRecord, decision: UserCodeState, scopes: seq<string>, audience: seq<string>)
    : DeviceRecord
  {
    DeviceRecord(decision, rec.req.(grantedScope := scopes, grantedAudience := audience))
  }

  /** Both entries of a device session hold the same object, so what the application decides about
      it shows through every signature that reaches it. */
  function DecideUserCode(devices: map<Sig, DeviceRecord>, id: ID, decision: UserCodeState,
                          scopes: seq<string>, audience: seq<string>): map<Sig, DeviceRecord>
  {
    map s | s in devices ::
      if devices[s].req.id == id then DecideRecord(devices[s], decision, scopes, audience) else devices[s]
  }

  function CreatePKCE(st: State, sig: Sig, req: Requester): State {
    st.(pkce := st.pkce[sig := req])
  }

  function GetPKCE(st: State, sig: Sig): (Option<Requester>, Option<Error>) {
    if sig !in st.pkce then (None, Some(NotFound)) else (Some(st.pkce[sig]), None)
  }

  function DeletePKCE(st: State, sig: Sig): State {
    st.(pkce := st.pkce - {sig})
  }

  function CreatePAR(st: State, uri: string, req: Authorization): State {
    st.(par := st.par[uri := req])
  }

  function GetPAR(st: State, uri: string): (Option<Authorization>, Option<Error>) {
    if uri !in st.par then (None, Some(NotFound)) else (Some(st.par[uri]), None)
  }

  function DeletePAR(st: State, uri: string): State {
    st.(par := st.par - {uri})
  }

  // ---------------------------------------------------------------------------------------
  // The blacklist of used assertion identifiers. The cleaning loop reads the clock anew for
  // every entry and visits the entries in any order, so what it leaves is fixed only up to
  // the first and the last reading.

  ghost predicate Cleaned(before: map<string, Time>, after: map<string, Time>, first: Time, last: Time) {
    && (forall k :: k in after ==> k in before && after[k] == before[k])
    && (forall k :: k in before && k !in after ==> before[k] < last)
    && (forall k :: k in after ==> first <= after[k])
  }

  ghost predicate JTISet(before: map<string, Time>, after: map<string, Time>, jti: string, exp: Time,
                         first: Time, last: Time, err: Option<Error>)
  {
    exists mid: map<string, Time> ::
      && Cleaned(before, mid, first, last)
      && (jti in mid ==> err == Some(JTIKnown) && after == mid)
      && (jti !in mid ==> err == None && after == mid[jti := exp])
  }

  function JTIValid(jtis: map<string, Time>, jti: string, now: Time): Option<Error> {
    if jti in jtis && now < jtis[jti] then Some(JTIKnown) else None
  }

  class MemoryStore {
    var authorizeCodes: map<Sig, CodeRecord>
    var accessTokens: map<Sig, Requester>
    var refreshTokens: map<Sig, RefreshRecord>
    var accessTokenRequestIDs: map<ID, Sig>
    var refreshTokenRequestIDs: map<ID, Sig>
    var deviceAuths: map<Sig, DeviceRecord>
    var pkces: map<Sig, Requester>
    var parSessions: map<string, Authorization>
    var blacklistedJTIs: map<string, Time>

    function Model(): State
      reads this
    {
      State(authorizeCodes, accessTokens, refreshTokens, accessTokenRequestIDs,
            refreshTokenRequestIDs, deviceAuths, pkces, parSessions, blacklistedJTIs)
    }

    constructor ()
      ensures Model() == EMPTY
    {
      authorizeCodes, accessTokens, refreshTokens := map[], map[], map[];
      accessTokenRequestIDs, refreshTokenRequestIDs := map[], map[];
      deviceAuths, pkces, parSessions, blacklistedJTIs := map[], map[], map[], map[];
    }

    method CreateAuthorizeCodeSession(code: Sig, req: Requester)
      modifies this
      ensures Model() == CreateCode(old(Model()), code, req)
    {
      authorizeCodes := authorizeCodes[code := CodeRecord(true, req)];
    }

    method GetAuthorizeCodeSession(code: Sig) returns (req: Option<Requester>, err: Option<Error>)
      ensures (req, err) == GetCode(Model(), code)
    {
      if code !in authorizeCodes { return None, Some(NotFound); }
      var rel := authorizeCodes[code];
      if !rel.active { return Some(rel.req), Some(InvalidatedAuthorizeCode); }
      return Some(rel.req), None;
    }

    method InvalidateAuthorizeCodeSession(code: Sig) returns (err: Option<Error>)
      modifies this
      ensures (Model(), err) == InvalidateCode(old(Model()), code)
    {
      if code !in authorizeCodes { return Some(NotFound); }
      authorizeCodes := authorizeCodes[code := authorizeCodes[code].(active := false)];
      return None;
    }

    method CreateAccessTokenSession(signature: Sig, req: Requester)
      modifies this
      ensures Model() == CreateAccess(old(Model()), signature, req)
    {
      accessTokens := accessTokens[signature := req];
      accessTokenRequestIDs := accessTokenRequestIDs[req.id := signature];
    }

    method GetAccessTokenSession(signature: Sig) returns (req: Option<Requester>, err: Option<Error>)
      ensures (req, err) == GetAccess(Model(), signature)
    {
      if signature !in accessTokens { return None, Some(NotFound); }
      return Some(accessTokens[signature]), None;
    }

    method DeleteAccessTokenSession(signature: Sig)
      modifies this
      ensures Model() == DeleteAccess(old(Model()), signature)
    {
      accessTokens := accessTokens - {signature};
    }

    method CreateRefreshTokenSession(signature: Sig, accessSignature: Sig, req: Requester)
      modifies this
      ensures Model() == CreateRefresh(old(Model()), signature, accessSignature, req)
    {
      refreshTokens := refreshTokens[signature := RefreshRecord(true, accessSignature, req)];
      refreshTokenRequestIDs := refreshTokenRequestIDs[req.id := signature];
    }

    method GetRefreshTokenSession(signature: Sig) returns (req: Option<Requester>, err: Option<Error>)
      ensures (req, err) == GetRefresh(Model(), signature)
    {
      if signature !in refreshTokens { return None, Some(NotFound); }
      var rel := refreshTokens[signature];
      if !rel.active { return Some(rel.req), Some(InactiveToken); }
      return Some(rel.req), None;
    }

    method DeleteRefreshTokenSession(signature: Sig)
      modifies this
      ensures Model() == DeleteRefresh(old(Model()), signature)
    {
      refreshTokens := refreshTokens - {signature};
    }

    method RevokeRefreshToken(requestID: ID) returns (err: Option<Error>)
      modifies this
      ensures (Model(), err) == RevokeRefresh(old(Model()), requestID)
    {
      if requestID in refreshTokenRequestIDs {
        var signature := refreshTokenRequestIDs[requestID];
        if signature !in refreshTokens { return Some(NotFound); }
        var rel := refreshTokens[signature];
        refreshTokens := refreshTokens[signature := rel.(active := false)];
      }
      return None;
    }

    method RevokeAccessToken(requestID: ID)
      modifies this
      ensures Model() == RevokeAccess(old(Model()), requestID)
    {
      if requestID in accessTokenRequestIDs {
        DeleteAccessTokenSession(accessTokenRequestIDs[requestID]);
      }
    }

    method RotateRefreshToken(requestID: ID) returns (err: Option<Error>)
      modifies this
      ensures (Model(), err) == Rotate(old(Model()), requestID)
    {
      err := RevokeRefreshToken(requestID);
      if err.Some? { return; }
      RevokeAccessToken(requestID);
    }

    method CreateDeviceAuthSession(deviceCodeSignature: Sig, userCodeSignature: Sig, req: DeviceRecord)
      modifies this
      ensures Model() == CreateDevice(old(Model()), deviceCodeSignature, userCodeSignature, req)
    {
      deviceAuths := deviceAuths[deviceCodeSignature := req];
      deviceAuths := deviceAuths[userCodeSignature := req];
    }

    method GetDeviceCodeSession(signature: Sig) returns (req: Option<DeviceRecord>, err: Option<Error>)
      ensures (req, err) == GetDevice(Model(), signature)
    {
      if signature !in deviceAuths { return None, Some(NotFound); }
      return Some(deviceAuths[signature]), None;
    }

    method InvalidateDeviceCodeSession(code: Sig)
      modifies this
      ensures Model() == InvalidateDevice(old(Model()), code)
    {
      deviceAuths := deviceAuths - {code};
    }

    method CreatePKCERequestSession(code: Sig, req: Requester)
      modifies this
      ensures Model() == CreatePKCE(old(Model()), code, req)
    {
      pkces := pkces[code := req];
    }

    method GetPKCERequestSession(code: Sig) returns (req: Option<Requester>, err: Option<Error>)
      ensures (req, err) == GetPKCE(Model(), code)
    {
      if code !in pkces { return None, Some(NotFound); }
      return Some(pkces[code]), None;
    }

    method DeletePKCERequestSession(code: Sig)
      modifies this
      ensures Model() == DeletePKCE(old(Model()), code)
    {
      pkces := pkces - {code};
    }

    method CreatePARSession(requestURI: string, req: Authorization)
      modifies this
      ensures Model() == CreatePAR(old(Model()), requestURI, req)
    {
      parSessions := parSessions[requestURI := req];
    }

    method GetPARSession(requestURI: string) returns (req: Option<Authorization>, err: Option<Error>)
      ensures (req, err) == GetPAR(Model(), requestURI)
    {
      if requestURI !in parSessions { return None, Some(NotFound); }
      return Some(parSessions[requestURI]), None;
    }

    method DeletePARSession(requestURI: string)
      modifies this
      ensures Model() == DeletePAR(old(Model()), requestURI)
    {
      parSessions := parSessions - {requestURI};
    }

    method ClientAssertionJWTValid(jti: string, now: Time) returns (err: Option<Error>)
      ensures err == JTIValid(blacklistedJTIs, jti, now)
    {
      if jti in blacklistedJTIs && blacklistedJTIs[jti] > now { return Some(JTIKnown); }
      return None;
    }

    /** `readings` are the instants the clock shows during the cleaning loop, one per entry;
        `last` is any instant not before them at which the call ends. */
    method SetClientAssertionJWT(jti: string, exp: Time, readings: seq<Time>, first: Time, last: Time)
      returns (err: Option<Error>)
      requires |readings| == |blacklistedJTIs|
      requires forall i :: 0 <= i < |readings| ==> first <= readings[i] <= last
      modifies this
      ensures Model() == old(Model()).(jtis := blacklistedJTIs)
      ensures JTISet(old(blacklistedJTIs), blacklistedJTIs, jti, exp, first, last, err)
    {
      ghost var before := blacklistedJTIs;
      var todo := blacklistedJTIs.Keys;
      var n := 0;
      while todo != {}
        invariant todo <= before.Keys
        invariant n + |todo| == |readings|
        invariant Model() == old(Model()).(jtis := blacklistedJTIs)
        invariant forall k :: k in blacklistedJTIs ==> k in before && blacklistedJTIs[k] == before[k]
        invariant forall k :: k in todo ==> k in blacklistedJTIs
        invariant forall k :: k in before && k !in blacklistedJTIs ==> before[k] < last
        invariant forall k :: k in blacklistedJTIs && k !in todo ==> first <= blacklistedJTIs[k]
        decreases |todo|
      {
        var j :| j in todo;
        if blacklistedJTIs[j] < readings[n] {
          blacklistedJTIs := blacklistedJTIs - {j};
        }
        todo := todo - {j};
        n := n + 1;
      }
      ghost var mid := blacklistedJTIs;
      assert Cleaned(before, mid, first, last);
      if jti in blacklistedJTIs { return Some(JTIKnown); }
      blacklistedJTIs := blacklistedJTIs[jti := exp];
      return None;
    }
  }
}
