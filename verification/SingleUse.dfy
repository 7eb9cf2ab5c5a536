/** Records that are stored once under a fresh key and gone as soon as anybody presents the key,
    rightly or not. PKCE sessions and pushed authorization requests are both kept like this. */
module SingleUse {
  import opened Prelude

  /** `ok` tells whether the presentation was accepted. */
  datatype Entry<V, A> = Put(key: string, val: V) | Take(key: string, arg: A, ok: bool)

  /** The record under `key` that nobody has presented since it was stored. */
  function Outstanding<V, A>(log: seq<Entry<V, A>>, key: string): Option<V> {
    if log == [] then None
    else
      var last := log[|log| - 1];
      if last.key == key then (if last.Put? then Some(last.val) else None)
      else Outstanding(log[..|log| - 1], key)
  }

  ghost predicate Mirrors<V, A>(m: map<string, V>, log: seq<Entry<V, A>>) {
    forall key :: Outstanding(log, key) == if key in m then Some(m[key]) else None
  }

  /** The decision on a presentation is the one the outstanding record deserves. */
  ghost predicate Decided<V, A>(log: seq<Entry<V, A>>, j: int, accept: (V, A) -> bool)
    requires 0 <= j < |log|
  {
    log[j].Take? ==>
      var v := Outstanding(log[..j], log[j].key);
      log[j].ok <==> v.Some? && accept(v.value, log[j].arg)
  }

  ghost predicate AllDecided<V, A>(log: seq<Entry<V, A>>, accept: (V, A) -> bool) {
    forall j :: 0 <= j < |log| ==> Decided(log, j, accept)
  }

  ghost predicate PutOnce<V, A>(log: seq<Entry<V, A>>, used: set<string>) {
    && (forall i :: 0 <= i < |log| && log[i].Put? ==> log[i].key in used)
    && (forall i, j :: 0 <= i < j < |log| && log[i].Put? && log[j].Put? ==> log[i].key != log[j].key)
  }

  ghost predicate Inv<V, A>(m: map<string, V>, used: set<string>, log: seq<Entry<V, A>>, accept: (V, A) -> bool) {
    Mirrors(m, log) && PutOnce(log, used) && AllDecided(log, accept)
  }

  lemma StartInv<V, A>(accept: (V, A) -> bool)
    ensures Inv(map[], {}, [], accept)
  {
  }

  lemma OutstandingAppend<V, A>(log: seq<Entry<V, A>>, e: Entry<V, A>)
    ensures forall key :: Outstanding(log + [e], key) ==
                          if e.key == key then (if e.Put? then Some(e.val) else None) else Outstanding(log, key)
  {
    assert (log + [e])[..|log|] == log;
  }

  lemma DecidedAppend<V, A>(log: seq<Entry<V, A>>, e: Entry<V, A>, accept: (V, A) -> bool)
    requires AllDecided(log, accept)
    requires e.Take? ==> var v := Outstanding(log, e.key); e.ok <==> v.Some? && accept(v.value, e.arg)
    ensures AllDecided(log + [e], accept)
  {
    hide Outstanding;
    var log' := log + [e];
    forall j | 0 <= j < |log'|
      ensures Decided(log', j, accept)
    {
      if j < |log| {
        assert Decided(log, j, accept) && log'[..j] == log[..j];
      } else {
        assert log'[..j] == log;
      }
    }
  }

  lemma MoreUsed<V, A>(m: map<string, V>, used: set<string>, used': set<string>, log: seq<Entry<V, A>>,
                       accept: (V, A) -> bool)
    requires Inv(m, used, log, accept) && used <= used'
    ensures Inv(m, used', log, accept)
  {
    hide Mirrors, AllDecided;
  }

  lemma PutKeepsInv<V, A>(m: map<string, V>, used: set<string>, log: seq<Entry<V, A>>, accept: (V, A) -> bool,
                          key: string, val: V)
    requires Inv(m, used, log, accept) && key !in used
    ensures Inv(m[key := val], used + {key}, log + [Put(key, val)], accept)
  {
    hide Outstanding, AllDecided;
    OutstandingAppend(log, Put(key, val));
    DecidedAppend(log, Put(key, val), accept);
  }

  lemma TakeKeepsInv<V, A>(m: map<string, V>, used: set<string>, log: seq<Entry<V, A>>, accept: (V, A) -> bool,
                           key: string, arg: A)
    requires Inv(m, used, log, accept)
    ensures Inv(m - {key}, used, log + [Take(key, arg, key in m && accept(m[key], arg))], accept)
  {
    hide Outstanding, AllDecided;
    var e := Take(key, arg, key in m && accept(m[key], arg));
    OutstandingAppend(log, e);
    DecidedAppend(log, e, accept);
  }

  /** A stored record nobody has presented. */
  ghost predicate Fresh<V, A>(log: seq<Entry<V, A>>, i: int, j: int, key: string)
    requires 0 <= i < j <= |log|
  {
    log[i].Put? && log[i].key == key && forall k :: i < k < j ==> log[k].key != key
  }

  lemma {:induction false} OutstandingMeaning<V, A>(log: seq<Entry<V, A>>, n: nat, key: string)
    requires n <= |log|
    ensures Outstanding(log[..n], key).Some? ==> exists i ::
            0 <= i < n && Fresh(log, i, n, key)
            && Outstanding(log[..n], key) == Some(log[i].val)
    ensures forall i :: 0 <= i < n && Fresh(log, i, n, key) ==> Outstanding(log[..n], key) == Some(log[i].val)
  {
    if n > 0 {
      OutstandingMeaning(log, n - 1, key);
      assert log[..n][..n - 1] == log[..n - 1];
      if log[n - 1].key == key {
        assert log[n - 1].Put? ==> Fresh(log, n - 1, n, key);
      } else {
        forall i | 0 <= i < n - 1
          ensures Fresh(log, i, n, key) <==> Fresh(log, i, n - 1, key)
        {
        }
        assert !Fresh(log, n - 1, n, key);
      }
    }
  }

  /** What is stored under a key is a record nobody has presented. */
  lemma StoredIsFresh<V, A>(m: map<string, V>, used: set<string>, log: seq<Entry<V, A>>, accept: (V, A) -> bool,
                            key: string)
    requires Inv(m, used, log, accept) && key in m
    ensures exists i :: 0 <= i < |log| && Fresh(log, i, |log|, key) && log[i].val == m[key]
  {
    hide Outstanding, Fresh, PutOnce, AllDecided;
    OutstandingMeaning(log, |log|, key);
    assert log[..|log|] == log;
  }

  /** A presentation is accepted if and only if the record was stored before, nobody has presented
      its key since, and it deserves to be accepted. */
  lemma AcceptedExactlyWhenFirst<V, A>(m: map<string, V>, used: set<string>, log: seq<Entry<V, A>>,
                                       accept: (V, A) -> bool, j: nat)
    requires Inv(m, used, log, accept) && j < |log| && log[j].Take?
    ensures log[j].ok <==> exists i :: 0 <= i < j && Fresh(log, i, j, log[j].key) && accept(log[i].val, log[j].arg)
  {
    hide Outstanding, Fresh, Mirrors, PutOnce;
    assert Decided(log, j, accept);
    OutstandingMeaning(log, j, log[j].key);
  }

  /** After one presentation of a stored record no other is accepted. */
  lemma NoneAcceptedAfterAny<V, A>(m: map<string, V>, used: set<string>, log: seq<Entry<V, A>>, accept: (V, A) -> bool,
                                   put: nat, i: nat, j: nat)
    requires Inv(m, used, log, accept)
    requires put < i < j < |log| && log[put].Put? && log[i].Take? && log[j].Take?
    requires log[put].key == log[i].key == log[j].key
    ensures !log[j].ok
  {
    hide Outstanding, Mirrors, AllDecided;
    AcceptedExactlyWhenFirst(m, used, log, accept, j);
  }
}
