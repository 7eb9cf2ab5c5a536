/** The blacklist of assertion identifiers over time, storage/memory.go with its use in
    client_authentication.go: every assertion is checked first and recorded later, and calls of
    several clients interleave. The clock never runs backwards. */
module JTI {
  import opened Prelude
  import opened Store

  /** A call with its outcome. `first` and `last` are the clock when it starts and when it ends. */
  datatype Call =
    | Check(jti: string, first: Time, last: Time, err: Option<Error>)
    | Record(jti: string, exp: Time, first: Time, last: Time, err: Option<Error>)

  /** A call and the blacklist it leaves. */
  datatype Visit = Visit(call: Call, after: map<string, Time>)

  ghost predicate Allowed(before: map<string, Time>, v: Visit) {
    match v.call
    case Check(jti, first, last, err) =>
      v.after == before && exists now :: first <= now <= last && err == JTIValid(before, jti, now)
    case Record(jti, exp, first, last, err) => JTISet(before, v.after, jti, exp, first, last, err)
  }

  function Before(visits: seq<Visit>, n: nat): map<string, Time>
    requires n <= |visits|
  {
    if n == 0 then map[] else visits[n - 1].after
  }

  /** A history of a store that started empty. */
  ghost predicate History(visits: seq<Visit>) {
    && (forall n :: 0 <= n < |visits| ==>
         visits[n].call.first <= visits[n].call.last
         && Allowed(Before(visits, n), visits[n]))
    && (forall m, n :: 0 <= m < n < |visits| ==> visits[m].call.last <= visits[n].call.first)
  }

  /** Call `i` has recorded this identifier. */
  ghost predicate Recorded(visits: seq<Visit>, i: int, jti: string)
    requires 0 <= i < |visits|
  {
    visits[i].call.Record? && visits[i].call.jti == jti && visits[i].call.err == None
  }

  /** What the blacklist `m` may be after `n` calls that end at `clock`: only expiries that were
      recorded, and every recorded one until it has passed. */
  ghost predicate Faithful(visits: seq<Visit>, n: nat, m: map<string, Time>, clock: Time)
    requires n <= |visits|
  {
    && (forall k :: k in m ==> OnRecord(visits, n, k, m[k]))
    && StillKnown(visits, n, m, clock)
  }

  ghost predicate RecordedAs(visits: seq<Visit>, n: nat, i: int, jti: string, exp: Time)
    requires n <= |visits|
  {
    0 <= i < n && Recorded(visits, i, jti) && visits[i].call.exp == exp
  }

  ghost predicate OnRecord(visits: seq<Visit>, n: nat, jti: string, exp: Time)
    requires n <= |visits|
  {
    exists i :: RecordedAs(visits, n, i, jti, exp)
  }

  ghost predicate StillKnown(visits: seq<Visit>, n: nat, m: map<string, Time>, clock: Time)
    requires n <= |visits|
  {
    forall i, k :: 0 <= i < n && Recorded(visits, i, k) ==>
        (k in m && m[k] == visits[i].call.exp)
        || visits[i].call.exp < clock
  }

  function Clock(visits: seq<Visit>, n: nat): Time
    requires n < |visits|
  {
    if n == 0 then visits[0].call.first else visits[n - 1].call.last
  }

  lemma HistoryAt(visits: seq<Visit>, n: nat)
    requires History(visits) && n < |visits|
    ensures Allowed(Before(visits, n), visits[n])
    ensures Clock(visits, n) <= visits[n].call.first <= visits[n].call.last
  {
  }

  lemma RecordKeepsFaithful(visits: seq<Visit>, n: nat, before: map<string, Time>, clock: Time)
    requires n < |visits| && Faithful(visits, n, before, clock) && visits[n].call.Record?
    requires clock <= visits[n].call.first <= visits[n].call.last
    requires Allowed(before, visits[n])
    ensures Faithful(visits, n + 1, visits[n].after, visits[n].call.last)
  {
    hide StillKnown;
    var c, after := visits[n].call, visits[n].after;
    var mid: map<string, Time> :|
      && Cleaned(before, mid, c.first, c.last)
      && (c.jti in mid ==> c.err == Some(JTIKnown) && after == mid)
      && (c.jti !in mid ==> c.err == None && after == mid[c.jti := c.exp]);
    KeptStaysKnown(visits, n, before, mid, clock);
    forall k | k in after
      ensures OnRecord(visits, n + 1, k, after[k])
    {
      if k == c.jti && c.err == None {
        assert RecordedAs(visits, n + 1, n, k, after[k]);
      } else {
        var i :| RecordedAs(visits, n, i, k, before[k]);
        assert RecordedAs(visits, n + 1, i, k, after[k]);
      }
    }
  }

  lemma KeptStaysKnown(visits: seq<Visit>, n: nat, before: map<string, Time>, mid: map<string, Time>, clock: Time)
    requires n < |visits| && StillKnown(visits, n, before, clock) && visits[n].call.Record?
    requires var c := visits[n].call;
             && clock <= c.first <= c.last && Cleaned(before, mid, c.first, c.last)
             && visits[n].after == (if c.jti in mid then mid else mid[c.jti := c.exp])
             && (c.jti in mid ==> c.err.Some?)
    ensures StillKnown(visits, n + 1, visits[n].after, visits[n].call.last)
  {
  }

  lemma CheckKeepsFaithful(visits: seq<Visit>, n: nat, m: map<string, Time>, clock: Time, clock': Time)
    requires n < |visits| && Faithful(visits, n, m, clock) && visits[n].call.Check? && clock <= clock'
    ensures Faithful(visits, n + 1, m, clock')
  {
    forall k | k in m
      ensures OnRecord(visits, n + 1, k, m[k])
    {
      var i :| RecordedAs(visits, n, i, k, m[k]);
      assert RecordedAs(visits, n + 1, i, k, m[k]);
    }
  }

  lemma {:induction false} HistoryIsFaithful(visits: seq<Visit>, n: nat)
    requires History(visits) && n < |visits|
    ensures Faithful(visits, n, Before(visits, n), Clock(visits, n))
  {
    hide History, Faithful, Allowed;
    if n == 0 {
      NothingIsFaithful(visits, Clock(visits, 0));
    } else {
      HistoryIsFaithful(visits, n - 1);
      HistoryAt(visits, n - 1);
      if visits[n - 1].call.Record? {
        RecordKeepsFaithful(visits, n - 1, Before(visits, n - 1), Clock(visits, n - 1));
      } else {
        SameAfterCheck(Before(visits, n - 1), visits[n - 1]);
        CheckKeepsFaithful(visits, n - 1, Before(visits, n - 1), Clock(visits, n - 1), Clock(visits, n));
      }
    }
  }

  lemma NothingIsFaithful(visits: seq<Visit>, clock: Time)
    ensures Faithful(visits, 0, map[], clock)
  {
  }

  lemma SameAfterCheck(before: map<string, Time>, v: Visit)
    requires Allowed(before, v) && v.call.Check?
    ensures v.after == before
  {
  }

  /** Two calls that record the same identifier are separated by the first one's expiry, however
      many checks and other records lie between them. */
  lemma RecordsAreSeparatedByExpiry(visits: seq<Visit>, i: nat, j: nat, jti: string)
    requires History(visits) && i < j < |visits|
    requires Recorded(visits, i, jti) && Recorded(visits, j, jti)
    ensures visits[i].call.exp < visits[j].call.last
  {
    hide History;
    HistoryIsFaithful(visits, j);
    HistoryAt(visits, j);
  }

  /** The separation is tight: an identifier can be recorded again one tick after it has expired. */
  lemma SeparationIsTight(jti: string, exp: Time, next: Time)
    ensures var visits := [
              Visit(Record(jti, exp, exp, exp, None), map[jti := exp]),
              Visit(Record(jti, next, exp + 1, exp + 1, None), map[jti := next])];
            History(visits) && Recorded(visits, 0, jti) && Recorded(visits, 1, jti)
  {
    var m0: map<string, Time>, m1 := map[], map[jti := exp];
    assert Cleaned(m0, m0, exp, exp) && m0[jti := exp] == m1;
    assert JTISet(m0, m1, jti, exp, exp, exp, None);
    assert Cleaned(m1, m0, exp + 1, exp + 1) && m0[jti := next] == map[jti := next];
    assert JTISet(m1, map[jti := next], jti, next, exp + 1, exp + 1, None);
  }

  /** Nothing else stands in the way: a call records its identifier if all its earlier expiries have
      passed when the call starts. */
  lemma ExpiredIdentifiersCanBeRecorded(visits: seq<Visit>, j: nat)
    requires History(visits) && j < |visits| && visits[j].call.Record?
    requires forall i :: 0 <= i < j && Recorded(visits, i, visits[j].call.jti) ==>
             visits[i].call.exp < visits[j].call.first
    ensures Recorded(visits, j, visits[j].call.jti)
  {
    hide History;
    HistoryIsFaithful(visits, j);
    HistoryAt(visits, j);
  }

  /** When the clock does not move during a call, the two results meet: the call records its
      identifier if and only if every earlier expiry of it has passed. */
  lemma RecordsExactlyAfterExpiry(visits: seq<Visit>, j: nat)
    requires History(visits) && j < |visits| && visits[j].call.Record? && visits[j].call.first == visits[j].call.last
    ensures var c := visits[j].call;
            c.err == None <==> forall i :: 0 <= i < j && Recorded(visits, i, c.jti) ==> visits[i].call.exp < c.last
  {
    hide History, Allowed;
    var c := visits[j].call;
    if c.err == None {
      assert Recorded(visits, j, c.jti) by { OutcomeIsRecorded(visits, j); }
      forall i | 0 <= i < j && Recorded(visits, i, c.jti)
        ensures visits[i].call.exp < c.last
      {
        RecordsAreSeparatedByExpiry(visits, i, j, c.jti);
      }
    }
    if forall i :: 0 <= i < j && Recorded(visits, i, c.jti) ==> visits[i].call.exp < c.last {
      ExpiredIdentifiersCanBeRecorded(visits, j);
      OutcomeIsRecorded(visits, j);
    }
  }

  lemma OutcomeIsRecorded(visits: seq<Visit>, j: nat)
    requires j < |visits| && visits[j].call.Record?
    ensures Recorded(visits, j, visits[j].call.jti) <==> visits[j].call.err == None
  {
  }

  /** The cleaning loop removes exactly the expired entries. */
  lemma CleaningIsExact(before: map<string, Time>, after: map<string, Time>, now: Time)
    ensures Cleaned(before, after, now, now) <==> after == map k | k in before && now <= before[k] :: before[k]
  {
    var kept := map k | k in before && now <= before[k] :: before[k];
    if Cleaned(before, after, now, now) {
      assert forall k :: k in after <==> k in kept;
    }
  }

  /** A check and a record made at the same instant agree except at the very instant of expiry: there
      the check lets the assertion through and the record still refuses it. */
  lemma CheckAndRecordDifferOnlyAtExpiry(before: map<string, Time>, after: map<string, Time>, jti: string, exp: Time,
                                         now: Time, err: Option<Error>)
    requires JTISet(before, after, jti, exp, now, now, err)
    ensures JTIValid(before, jti, now) != err <==> jti in before && before[jti] == now
  {
    var mid: map<string, Time> :|
      && Cleaned(before, mid, now, now)
      && (jti in mid ==> err == Some(JTIKnown) && after == mid)
      && (jti !in mid ==> err == None && after == mid[jti := exp]);
    CleaningIsExact(before, mid, now);
  }
}
