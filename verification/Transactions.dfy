/** The store as the grant handlers see it: operations that may fail, and a transaction when the
    store supports one (storage/transactional.go). `faults` is the failure plan: each operation
    takes the next entry, and an entry that is an error makes that operation fail without effect.
    Rotation is two operations, so it can fail half-way. The plain memory store is the case
    `!transactional` with an empty plan. */
module Transactions {
  import opened Prelude
  import opened Requests
  import opened Store

  type Plan = seq<Option<Error>>

  function Head(plan: Plan): Option<Error> {
    if plan == [] then None else plan[0]
  }

  function Rest(plan: Plan): Plan {
    if plan == [] then [] else plan[1..]
  }

  ghost predicate NoFaults(plan: Plan) {
    forall i :: 0 <= i < |plan| ==> plan[i] == None
  }

  /** The next `n` operations succeed. */
  ghost predicate Smooth(plan: Plan, n: nat) {
    forall i :: 0 <= i < n && i < |plan| ==> plan[i] == None
  }

  lemma SmoothStep(plan: Plan, n: nat)
    requires n > 0
    ensures Smooth(plan, n) <==> Head(plan) == None && Smooth(Rest(plan), n - 1)
  {
    if Head(plan) == None && Smooth(Rest(plan), n - 1) {
      forall i | 0 <= i < n && i < |plan|
        ensures plan[i] == None
      {
        if i > 0 {
          assert Rest(plan)[i - 1] == plan[i];
        }
      }
    }
    if Smooth(plan, n) {
      assert forall i :: 0 <= i < |Rest(plan)| ==> Rest(plan)[i] == plan[i + 1];
    }
  }

  lemma FirstOfPlan(plan: Plan, n: nat)
    ensures Smooth(plan, 1 + n) <==> Head(plan) == None && Smooth(Rest(plan), n)
    ensures NoFaults(plan) ==> Smooth(plan, 1 + n) && NoFaults(Rest(plan))
  {
    SmoothStep(plan, 1 + n);
  }

  /** The first operations of a plan one by one. */
  lemma PlanOfWrites(plan: Plan, n: nat)
    requires n == 2 || n == 3
    ensures Smooth(plan, 2) <==> Head(plan) == None && Head(Rest(plan)) == None
    ensures Smooth(plan, 3) <==> Smooth(plan, 2) && Head(Rest(Rest(plan))) == None
    ensures Smooth(plan, 4) <==> Smooth(plan, 3) && Head(Rest(Rest(Rest(plan)))) == None
    ensures NoFaults(plan) ==>
            Smooth(plan, n) && NoFaults(Rest(plan)) && NoFaults(Rest(Rest(plan)))
            && NoFaults(Rest(Rest(Rest(plan))))
  {
  }

  lemma SmoothPrefix(plan: Plan, n: nat)
    ensures Smooth(plan, n + 1) ==> Smooth(plan, n)
    ensures NoFaults(plan) ==> Smooth(plan, n + 1) && NoFaults(Rest(plan))
  {
  }

  lemma NoFaultsIsSmooth(plan: Plan, n: nat)
    ensures NoFaults(plan) ==> Smooth(plan, n) && Head(plan) == None && NoFaults(Rest(plan))
  {
  }

  /** What a first phase leaves: the store, the rest of the plan, its answer and the request. */
  datatype Outcome = Outcome(st: State, plan: Plan, err: Option<Error>, rq: Requester)

  /** Begin and commit are operations of a transactional store only. */
  function InTx(transactional: bool, writes: nat): nat {
    if transactional then writes + 2 else writes
  }

  class Storage {
    const mem: MemoryStore
    const transactional: bool
    var faults: Plan
    var backup: Option<State>

    constructor (mem: MemoryStore, transactional: bool, faults: Plan)
      ensures this.mem == mem && this.transactional == transactional
      ensures this.faults == faults && backup == None
    {
      this.mem, this.transactional, this.faults, backup := mem, transactional, faults, None;
    }

    method NextFault() returns (err: Option<Error>)
      modifies this`faults
      ensures err == Head(old(faults)) && faults == Rest(old(faults))
    {
      err := Head(faults);
      faults := Rest(faults);
    }

    method MaybeBeginTx() returns (err: Option<Error>)
      modifies this
      ensures transactional ==> err == Head(old(faults)) && faults == Rest(old(faults))
      ensures transactional && err == None ==> backup == Some(mem.Model())
      ensures transactional && err != None ==> backup == old(backup)
      ensures !transactional ==> err == None && faults == old(faults) && backup == old(backup)
    {
      if !transactional { return None; }
      err := NextFault();
      if err == None {
        backup := Some(mem.Model());
      }
    }

    /** A commit that fails leaves the transaction open, to be rolled back. */
    method MaybeCommitTx() returns (err: Option<Error>)
      modifies this
      ensures transactional ==> err == Head(old(faults)) && faults == Rest(old(faults))
      ensures transactional && err == None ==> backup == None
      ensures transactional && err != None ==> backup == old(backup)
      ensures !transactional ==> err == None && faults == old(faults) && backup == old(backup)
    {
      if !transactional { return None; }
      err := NextFault();
      if err == None { backup := None; }
    }

    method MaybeRollbackTx()
      requires transactional ==> backup.Some?
      modifies this, mem
      ensures transactional ==> mem.Model() == old(backup).value && backup == None
      ensures !transactional ==> mem.Model() == old(mem.Model()) && backup == old(backup)
      ensures faults == old(faults)
    {
      if !transactional { return; }
      var b := backup.value;
      mem.authorizeCodes, mem.accessTokens, mem.refreshTokens := b.codes, b.access, b.refresh;
      mem.accessTokenRequestIDs, mem.refreshTokenRequestIDs := b.accessIdx, b.refreshIdx;
      mem.deviceAuths, mem.pkces := b.devices, b.pkce;
      mem.parSessions, mem.blacklistedJTIs := b.par, b.jtis;
      backup := None;
    }

    method GetAuthorizeCodeSession(code: Sig) returns (req: Option<Requester>, err: Option<Error>)
      modifies this`faults
      ensures faults == Rest(old(faults))
      ensures Head(old(faults)) == None ==> (req, err) == GetCode(mem.Model(), code)
      ensures Head(old(faults)) != None ==> req == None && err == Head(old(faults))
    {
      err := NextFault();
      if err != None { return None, err; }
      req, err := mem.GetAuthorizeCodeSession(code);
    }

    method InvalidateAuthorizeCodeSession(code: Sig) returns (err: Option<Error>)
      modifies this`faults, mem
      ensures faults == Rest(old(faults))
      ensures Head(old(faults)) == None ==> (mem.Model(), err) == InvalidateCode(old(mem.Model()), code)
      ensures Head(old(faults)) != None ==> err == Head(old(faults)) && mem.Model() == old(mem.Model())
    {
      err := NextFault();
      if err != None { return; }
      err := mem.InvalidateAuthorizeCodeSession(code);
    }

    method CreateAccessTokenSession(signature: Sig, req: Requester) returns (err: Option<Error>)
      modifies this`faults, mem
      ensures faults == Rest(old(faults)) && err == Head(old(faults))
      ensures mem.Model() == if err == None then CreateAccess(old(mem.Model()), signature, req)
                             else old(mem.Model())
    {
      err := NextFault();
      if err != None { return; }
      mem.CreateAccessTokenSession(signature, req);
    }

    method CreateRefreshTokenSession(signature: Sig, accessSignature: Sig, req: Requester)
      returns (err: Option<Error>)
      modifies this`faults, mem
      ensures faults == Rest(old(faults)) && err == Head(old(faults))
      ensures mem.Model() == if err == None then CreateRefresh(old(mem.Model()), signature, accessSignature, req)
                             else old(mem.Model())
    {
      err := NextFault();
      if err != None { return; }
      mem.CreateRefreshTokenSession(signature, accessSignature, req);
    }

    method GetAccessTokenSession(signature: Sig) returns (req: Option<Requester>, err: Option<Error>)
      modifies this`faults
      ensures faults == Rest(old(faults))
      ensures Head(old(faults)) == None ==> (req, err) == GetAccess(mem.Model(), signature)
      ensures Head(old(faults)) != None ==> req == None && err == Head(old(faults))
    {
      err := NextFault();
      if err != None { return None, err; }
      req, err := mem.GetAccessTokenSession(signature);
    }

    method GetRefreshTokenSession(signature: Sig) returns (req: Option<Requester>, err: Option<Error>)
      modifies this`faults
      ensures faults == Rest(old(faults))
      ensures Head(old(faults)) == None ==> (req, err) == GetRefresh(mem.Model(), signature)
      ensures Head(old(faults)) != None ==> req == None && err == Head(old(faults))
    {
      err := NextFault();
      if err != None { return None, err; }
      req, err := mem.GetRefreshTokenSession(signature);
    }

    method DeleteRefreshTokenSession(signature: Sig) returns (err: Option<Error>)
      modifies this`faults, mem
      ensures faults == Rest(old(faults)) && err == Head(old(faults))
      ensures mem.Model() == if err == None then DeleteRefresh(old(mem.Model()), signature)
                             else old(mem.Model())
    {
      err := NextFault();
      if err != None { return; }
      mem.DeleteRefreshTokenSession(signature);
    }

    method RevokeRefreshToken(requestID: ID) returns (err: Option<Error>)
      modifies this`faults, mem
      ensures faults == Rest(old(faults))
      ensures Head(old(faults)) == None ==> (mem.Model(), err) == RevokeRefresh(old(mem.Model()), requestID)
      ensures Head(old(faults)) != None ==> err == Head(old(faults)) && mem.Model() == old(mem.Model())
    {
      err := NextFault();
      if err != None { return; }
      err := mem.RevokeRefreshToken(requestID);
    }

    method RevokeAccessToken(requestID: ID) returns (err: Option<Error>)
      modifies this`faults, mem
      ensures faults == Rest(old(faults)) && err == Head(old(faults))
      ensures mem.Model() == if err == None then RevokeAccess(old(mem.Model()), requestID)
                             else old(mem.Model())
    {
      err := NextFault();
      if err != None { return; }
      mem.RevokeAccessToken(requestID);
    }

    method RotateRefreshToken(requestID: ID) returns (err: Option<Error>)
      modifies this`faults, mem
      ensures err == None ==> (mem.Model(), None) == Rotate(old(mem.Model()), requestID)
      ensures NoFaults(old(faults)) ==> NoFaults(faults) && (mem.Model(), err) == Rotate(old(mem.Model()), requestID)
      ensures err == None ==> faults == Rest(Rest(old(faults)))
      ensures err == None <==> Rotate(old(mem.Model()), requestID).1 == None && Smooth(old(faults), 2)
    {
      SmoothStep(faults, 2);
      SmoothStep(Rest(faults), 1);
      err := RevokeRefreshToken(requestID);
      if err != None { return; }
      err := RevokeAccessToken(requestID);
    }

    method GetDeviceCodeSession(signature: Sig) returns (req: Option<DeviceRecord>, err: Option<Error>)
      modifies this`faults
      ensures faults == Rest(old(faults))
      ensures Head(old(faults)) == None ==> (req, err) == GetDevice(mem.Model(), signature)
      ensures Head(old(faults)) != None ==> req == None && err == Head(old(faults))
    {
      err := NextFault();
      if err != None { return None, err; }
      req, err := mem.GetDeviceCodeSession(signature);
    }

    method InvalidateDeviceCodeSession(code: Sig) returns (err: Option<Error>)
      modifies this`faults, mem
      ensures faults == Rest(old(faults)) && err == Head(old(faults))
      ensures mem.Model() == if err == None then InvalidateDevice(old(mem.Model()), code)
                             else old(mem.Model())
    {
      err := NextFault();
      if err != None { return; }
      mem.InvalidateDeviceCodeSession(code);
    }

    method CreatePKCERequestSession(code: Sig, req: Requester) returns (err: Option<Error>)
      modifies this`faults, mem
      ensures faults == Rest(old(faults)) && err == Head(old(faults))
      ensures mem.Model() == if err == None then CreatePKCE(old(mem.Model()), code, req)
                             else old(mem.Model())
    {
      err := NextFault();
      if err != None { return; }
      mem.CreatePKCERequestSession(code, req);
    }

    method GetPKCERequestSession(code: Sig) returns (req: Option<Requester>, err: Option<Error>)
      modifies this`faults
      ensures faults == Rest(old(faults))
      ensures Head(old(faults)) == None ==> (req, err) == GetPKCE(mem.Model(), code)
      ensures Head(old(faults)) != None ==> req == None && err == Head(old(faults))
    {
      err := NextFault();
      if err != None { return None, err; }
      req, err := mem.GetPKCERequestSession(code);
    }

    method DeletePKCERequestSession(code: Sig) returns (err: Option<Error>)
      modifies this`faults, mem
      ensures faults == Rest(old(faults)) && err == Head(old(faults))
      ensures mem.Model() == if err == None then DeletePKCE(old(mem.Model()), code)
                             else old(mem.Model())
    {
      err := NextFault();
      if err != None { return; }
      mem.DeletePKCERequestSession(code);
    }

    method CreatePARSession(requestURI: string, req: Authorization) returns (err: Option<Error>)
      modifies this`faults, mem
      ensures faults == Rest(old(faults)) && err == Head(old(faults))
      ensures mem.Model() == if err == None then CreatePAR(old(mem.Model()), requestURI, req)
                             else old(mem.Model())
    {
      err := NextFault();
      if err != None { return; }
      mem.CreatePARSession(requestURI, req);
    }

    method GetPARSession(requestURI: string) returns (req: Option<Authorization>, err: Option<Error>)
      modifies this`faults
      ensures faults == Rest(old(faults))
      ensures Head(old(faults)) == None ==> (req, err) == GetPAR(mem.Model(), requestURI)
      ensures Head(old(faults)) != None ==> req == None && err == Head(old(faults))
    {
      err := NextFault();
      if err != None { return None, err; }
      req, err := mem.GetPARSession(requestURI);
    }

    method DeletePARSession(requestURI: string) returns (err: Option<Error>)
      modifies this`faults, mem
      ensures faults == Rest(old(faults)) && err == Head(old(faults))
      ensures mem.Model() == if err == None then DeletePAR(old(mem.Model()), requestURI)
                             else old(mem.Model())
    {
      err := NextFault();
      if err != None { return; }
      mem.DeletePARSession(requestURI);
    }
  }
}
