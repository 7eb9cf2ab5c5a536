/** Token revocation, handler/oauth2/revocation.go (sections 2.1 and 2.2 of RFC 7009). */
module Revocation {
  import opened Prelude
  import opened Requests
  import opened Store
  import opened Transactions
  import opened Grants

  function IsGone(err: Option<Error>): bool {
    err == Some(NotFound) || err == Some(InactiveToken) || err == None
  }

  function RevocationError(err1: Option<Error>, err2: Option<Error>): Option<Error> {
    if IsGone(err1) && IsGone(err2) then None else Some(TemporarilyUnavailable)
  }

  /** Looking a signature up as an access token or as a refresh token. */
  function Discover(st: State, sig: Sig, asAccess: bool): (Option<Requester>, Option<Error>) {
    if asAccess then GetAccess(st, sig) else GetRefresh(st, sig)
  }

  function Revoke(cfg: Config, st: State, token: string, hint: Option<TokenType>, client: Client)
    : (State, Option<Error>)
  {
    var sig := cfg.signature(token);
    var accessFirst := hint == Some(AccessToken);
    var (ar1, err1) := Discover(st, sig, accessFirst);
    var (ar2, err2) := Discover(st, sig, !accessFirst);
    if err1.Some? && err2.Some? then (st, RevocationError(err1, err2))
    else
      var ar := if err1.None? then ar1.value else ar2.value;
      if ar.client.id != client.id then (st, Some(UnauthorizedClient))
      else
        var (st1, rerr) := RevokeRefresh(st, ar.id);
        (RevokeAccess(st1, ar.id), RevocationError(rerr, None))
  }

  /** A lookup that may fail. */
  function DiscoverUnder(st: State, sig: Sig, asAccess: bool, fault: Option<Error>)
    : (Option<Requester>, Option<Error>)
  {
    if fault.Some? then (None, fault) else Discover(st, sig, asAccess)
  }

  /** Both revocations under a plan of failures; neither stops the other. */
  function EndUnder(st: State, id: ID, plan: Plan): (State, Option<Error>) {
    var f1, f2 := Head(plan), Head(Rest(plan));
    var (st1, err1) := if f1.Some? then (st, f1) else RevokeRefresh(st, id);
    (if f2.Some? then st1 else RevokeAccess(st1, id), RevocationError(err1, f2))
  }

  /** The plan that is left to the revocations: the second lookup happens only if the first fails. */
  function AfterDiscovery(st: State, sig: Sig, accessFirst: bool, plan: Plan): Plan {
    if DiscoverUnder(st, sig, accessFirst, Head(plan)).1.Some? then Rest(Rest(plan)) else Rest(plan)
  }

  /** Revocation under a plan of failures. */
  function RevokeUnder(cfg: Config, st: State, token: string, hint: Option<TokenType>, client: Client, plan: Plan)
    : (State, Option<Error>)
  {
    var sig := cfg.signature(token);
    var accessFirst := hint == Some(AccessToken);
    var (ar1, err1) := DiscoverUnder(st, sig, accessFirst, Head(plan));
    var (ar2, err2) := DiscoverUnder(st, sig, !accessFirst, Head(Rest(plan)));
    if err1.Some? && err2.Some? then (st, RevocationError(err1, err2))
    else
      var ar := if err1.None? then ar1.value else ar2.value;
      if ar.client.id != client.id then (st, Some(UnauthorizedClient))
      else EndUnder(st, ar.id, AfterDiscovery(st, sig, accessFirst, plan))
  }

  /** With a store that does not fail, this is `Revoke`. */
  lemma RevokeWithoutFaults(cfg: Config, st: State, token: string, hint: Option<TokenType>, client: Client, plan: Plan)
    requires NoFaults(plan)
    ensures RevokeUnder(cfg, st, token, hint, client, plan) == Revoke(cfg, st, token, hint, client)
  {
    hide RevokeRefresh, RevokeAccess;
    NoFaultsIsSmooth(plan, 0);
    NoFaultsIsSmooth(Rest(plan), 0);
    NoFaultsIsSmooth(Rest(Rest(plan)), 0);
    NoFaultsIsSmooth(Rest(Rest(Rest(plan))), 0);
  }

  method DiscoverToken(cfg: Config, store: Storage, token: string, asAccess: bool)
    returns (req: Option<Requester>, err: Option<Error>)
    modifies store`faults
    ensures store.faults == Rest(old(store.faults))
    ensures (req, err) == DiscoverUnder(store.mem.Model(), cfg.signature(token), asAccess, Head(old(store.faults)))
  {
    var signature := cfg.signature(token);
    if asAccess {
      req, err := store.GetAccessTokenSession(signature);
    } else {
      req, err := store.GetRefreshTokenSession(signature);
    }
  }

  method RevokeToken(cfg: Config, store: Storage, token: string, hint: Option<TokenType>, client: Client)
    returns (err: Option<Error>)
    modifies store, store.mem
    ensures (store.mem.Model(), err) == RevokeUnder(cfg, old(store.mem.Model()), token, hint, client, old(store.faults))
  {
    hide RevokeRefresh, RevokeAccess, RevocationError;
    // The two discovery functions, refresh first, as the flags that select them.
    var discovery := [false, true];
    if hint == Some(AccessToken) {
      discovery := [discovery[1], discovery[0]];
    }
    var err1, err2: Option<Error> := None, None;
    var ar;
    ar, err1 := DiscoverToken(cfg, store, token, discovery[0]);
    if err1.Some? {
      ar, err2 := DiscoverToken(cfg, store, token, discovery[1]);
    }
    if err2.Some? {
      return RevocationError(err1, err2);
    }
    if ar.value.client.id != client.id { return Some(UnauthorizedClient); }
    var requestID := ar.value.id;
    err1 := store.RevokeRefreshToken(requestID);
    err2 := store.RevokeAccessToken(requestID);
    return RevocationError(err1, err2);
  }
}
