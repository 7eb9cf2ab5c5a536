/** The scope strategies of scope_strategy.go. */
module ScopeStrategies {
  import opened Prelude
  import opened Strings

  type Strategy = (seq<string>, string) -> bool

  // ---------------------------------------------------------------------------------------
  // Wildcard matching, segment by segment

  predicate SegmentMatch(c: string, part: string) {
    c == part || (c == "*" && part != "")
  }

  /** A matcher covers a scope when its segments match one by one; only a final `*` lets the scope
      have further segments, and it stands for at least one non-empty segment. */
  predicate PartsMatch(m: seq<string>, n: seq<string>) {
    && m != [] && |m| <= |n|
    && (forall k :: 0 <= k < |m| ==> SegmentMatch(m[k], n[k]))
    && (|m| < |n| ==> m[|m| - 1] == "*")
  }

  predicate WildcardMatch(matcher: string, needle: string) {
    PartsMatch(Split(matcher, '.'), Split(needle, '.'))
  }

  predicate Wildcard(matchers: seq<string>, needle: string) {
    exists i :: 0 <= i < |matchers| && WildcardMatch(matchers[i], needle)
  }

  method WildcardScopeStrategy(matchers: seq<string>, needle: string) returns (r: bool)
    ensures r <==> Wildcard(matchers, needle)
  {
    var needleParts := Split(needle, '.');
    for i := 0 to |matchers|
      invariant forall h :: 0 <= h < i ==> !WildcardMatch(matchers[h], needle)
    {
      var matcherParts := Split(matchers[i], '.');
      if |matcherParts| > |needleParts| { continue; }
      var noteq := false;
      for k := 0 to |matcherParts|
        invariant !noteq
        invariant forall h :: 0 <= h < k ==> SegmentMatch(matcherParts[h], needleParts[h])
        invariant k == |matcherParts| < |needleParts| ==> matcherParts[k - 1] == "*"
      {
        var c := matcherParts[k];
        if k == |matcherParts| - 1 && |matcherParts| != |needleParts| {
          if c != "*" {
            noteq := true;
            break;
          }
        }
        if c == "*" && |needleParts[k]| > 0 {
          continue;
        } else if c != needleParts[k] {
          noteq := true;
          break;
        }
      }
      if !noteq { return true; }
    }
    return false;
  }

  lemma WildcardReflexive(s: string)
    ensures WildcardMatch(s, s)
  {
  }

  lemma WildcardTransitive(a: string, b: string, c: string)
    requires WildcardMatch(a, b) && WildcardMatch(b, c)
    ensures WildcardMatch(a, c)
  {
    var pa, pb, pc := Split(a, '.'), Split(b, '.'), Split(c, '.');
    forall k | 0 <= k < |pa|
      ensures SegmentMatch(pa[k], pc[k])
    {
      assert SegmentMatch(pa[k], pb[k]) && SegmentMatch(pb[k], pc[k]);
    }
    if |pa| == |pb| < |pc| {
      assert SegmentMatch(pa[|pa| - 1], pb[|pb| - 1]);
    }
  }

  /** A trailing star covers one or more further segments, the first of which is not empty. */
  lemma TrailingStar(prefix: string, needle: string)
    ensures WildcardMatch(prefix + ".*", needle) <==>
              var p, n := Split(prefix, '.'), Split(needle, '.');
              && |n| > |p| && n[|p|] != ""
              && forall k :: 0 <= k < |p| ==> SegmentMatch(p[k], n[k])
  {
    SplitConcat(prefix, "*", '.');
    SplitWithout("*", '.');
    assert prefix + ".*" == prefix + ['.'] + "*";
    PartsStar(Split(prefix, '.'), Split(needle, '.'));
  }

  lemma PartsStar(p: seq<string>, n: seq<string>)
    ensures PartsMatch(p + ["*"], n) <==>
              && |n| > |p| && n[|p|] != ""
              && forall k :: 0 <= k < |p| ==> SegmentMatch(p[k], n[k])
  {
    var m := p + ["*"];
    assert m[|p|] == "*" && forall k :: 0 <= k < |p| ==> m[k] == p[k];
    if PartsMatch(m, n) {
      assert SegmentMatch(m[|p|], n[|p|]);
      forall k | 0 <= k < |p|
        ensures SegmentMatch(p[k], n[k])
      {
        assert SegmentMatch(m[k], n[k]);
      }
    }
  }

  // ---------------------------------------------------------------------------------------
  // Hierarchic matching

  /** A scope includes itself and everything below it: what continues it after a dot. */
  predicate HierarchicMatch(parent: string, needle: string) {
    parent == needle || parent + "." <= needle
  }

  predicate Hierarchic(haystack: seq<string>, needle: string) {
    exists i :: 0 <= i < |haystack| && HierarchicMatch(haystack[i], needle)
  }

  /** The segments of one scope properly begin another's exactly when the other continues it
      after a dot. */
  lemma SegmentsBegin(parent: string, needle: string)
    ensures Split(parent, '.') < Split(needle, '.') <==> parent + "." <= needle
  {
    var p, n := Split(parent, '.'), Split(needle, '.');
    if p < n {
      assert n == p + n[|p|..];
      JoinConcat(p, n[|p|..], '.');
      JoinOfSplit(parent, '.');
      JoinOfSplit(needle, '.');
    }
    if parent + "." <= needle {
      var rest := needle[|parent| + 1..];
      assert needle == parent + ['.'] + rest;
      SplitConcat(parent, rest, '.');
    }
  }

  method HierarchicScopeStrategy(haystack: seq<string>, needle: string) returns (r: bool)
    ensures r <==> Hierarchic(haystack, needle)
  {
    for i := 0 to |haystack|
      invariant forall h :: 0 <= h < i ==> !HierarchicMatch(haystack[h], needle)
    {
      var this_ := haystack[i];
      if this_ == needle { return true; }
      // A longer scope cannot include a shorter one.
      if |this_| > |needle| { continue; }
      var needles, parts := Split(needle, '.'), Split(this_, '.');
      SegmentsBegin(this_, needle);
      var haystackLen := |parts| - 1;
      for k := 0 to |needles|
        invariant k <= |parts|
        invariant forall h :: 0 <= h < k ==> parts[h] == needles[h]
      {
        if haystackLen < k {
          assert parts < needles;
          return true;
        }
        var current := parts[k];
        if current != needles[k] {
          assert !(parts < needles);
          break;
        }
      }
    }
    return false;
  }

  lemma HierarchicIsPreorder(a: string, b: string, c: string)
    ensures HierarchicMatch(a, a)
    ensures HierarchicMatch(a, b) && HierarchicMatch(b, c) ==> HierarchicMatch(a, c)
    ensures HierarchicMatch(a, b) ==> |a| <= |b|
    ensures HierarchicMatch(a, b) && HierarchicMatch(b, a) ==> a == b
  {
  }

  // ---------------------------------------------------------------------------------------
  // Exact matching

  predicate Exact(haystack: seq<string>, needle: string) {
    needle in haystack
  }

  method ExactScopeStrategy(haystack: seq<string>, needle: string) returns (r: bool)
    ensures r <==> Exact(haystack, needle)
  {
    for i := 0 to |haystack|
      invariant needle !in haystack[..i]
    {
      if needle == haystack[i] { return true; }
    }
    return false;
  }

  lemma ExactIsStrictest(haystack: seq<string>, needle: string)
    requires Exact(haystack, needle)
    ensures Hierarchic(haystack, needle) && Wildcard(haystack, needle)
  {
    var i :| 0 <= i < |haystack| && haystack[i] == needle;
    HierarchicIsPreorder(needle, needle, needle);
    WildcardReflexive(needle);
  }

  // ---------------------------------------------------------------------------------------
  // What a strategy must satisfy for grants to be inherited

  ghost predicate CoversAll(ss: Strategy, allowed: seq<string>, granted: seq<string>) {
    forall i :: 0 <= i < |granted| ==> ss(allowed, granted[i])
  }

  /** Whatever a covered list covers is covered. */
  ghost predicate Transitive(ss: Strategy) {
    forall allowed, granted, s :: CoversAll(ss, allowed, granted) && ss(granted, s) ==> ss(allowed, s)
  }

  lemma StrategiesAreTransitive()
    ensures Transitive(Exact) && Transitive(Hierarchic) && Transitive(Wildcard)
  {
    forall allowed, granted, s | CoversAll(Exact, allowed, granted) && Exact(granted, s)
      ensures Exact(allowed, s)
    {
      var i :| 0 <= i < |granted| && granted[i] == s;
    }
    forall allowed, granted, s | CoversAll(Hierarchic, allowed, granted) && Hierarchic(granted, s)
      ensures Hierarchic(allowed, s)
    {
      var i :| 0 <= i < |granted| && HierarchicMatch(granted[i], s);
      assert Hierarchic(allowed, granted[i]);
      var j :| 0 <= j < |allowed| && HierarchicMatch(allowed[j], granted[i]);
      HierarchicIsPreorder(allowed[j], granted[i], s);
    }
    forall allowed, granted, s | CoversAll(Wildcard, allowed, granted) && Wildcard(granted, s)
      ensures Wildcard(allowed, s)
    {
      var i :| 0 <= i < |granted| && WildcardMatch(granted[i], s);
      assert Wildcard(allowed, granted[i]);
      var j :| 0 <= j < |allowed| && WildcardMatch(allowed[j], granted[i]);
      WildcardTransitive(allowed[j], granted[i], s);
    }
  }

  // ---------------------------------------------------------------------------------------
  // Filtering requested scopes

  function Kept(ss: Strategy, allowed: seq<string>, requested: seq<string>): seq<string> {
    if requested == [] then []
    else
      var front, last := requested[..|requested| - 1], requested[|requested| - 1];
      Kept(ss, allowed, front) + if ss(allowed, last) then [last] else []
  }

  method FilterRequestedScopes(ss: Strategy, allowed: seq<string>, requested: seq<string>, ignoreUnknown: bool)
    returns (scopes: seq<string>, err: Option<Error>)
    ensures ignoreUnknown ==> err == None && scopes == Kept(ss, allowed, requested)
    ensures !ignoreUnknown ==> (err == None <==> CoversAll(ss, allowed, requested))
    ensures !ignoreUnknown ==> if err == None then scopes == requested else scopes == [] && err == Some(InvalidScope)
  {
    if !ignoreUnknown {
      for i := 0 to |requested|
        invariant forall k :: 0 <= k < i ==> ss(allowed, requested[k])
      {
        if !ss(allowed, requested[i]) { return [], Some(InvalidScope); }
      }
      return requested, None;
    }
    scopes := [];
    for i := 0 to |requested|
      invariant scopes == Kept(ss, allowed, requested[..i])
    {
      assert requested[..i + 1][..i] == requested[..i];
      if ss(allowed, requested[i]) {
        scopes := scopes + [requested[i]];
      }
    }
    assert requested[..|requested|] == requested;
    return scopes, None;
  }

  /** Filtering keeps exactly the allowed scopes, so its result is accepted whole, and it changes
      nothing precisely when the strict mode would have accepted the request. */
  lemma {:induction false} KeptIsAllowed(ss: Strategy, allowed: seq<string>, requested: seq<string>)
    ensures forall x :: x in Kept(ss, allowed, requested) <==> x in requested && ss(allowed, x)
    ensures CoversAll(ss, allowed, Kept(ss, allowed, requested))
    ensures |Kept(ss, allowed, requested)| <= |requested|
    ensures Kept(ss, allowed, requested) == requested <==> CoversAll(ss, allowed, requested)
  {
    if requested != [] {
      var front, last := requested[..|requested| - 1], requested[|requested| - 1];
      KeptIsAllowed(ss, allowed, front);
      assert requested == front + [last];
      if CoversAll(ss, allowed, requested) {
        forall i | 0 <= i < |front|
          ensures ss(allowed, front[i])
        {
          assert front[i] == requested[i];
        }
      }
    }
  }
}
