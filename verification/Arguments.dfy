/** The argument lists of arguments.go and the case-insensitive lookup of helper.go. */
module Arguments {
  import opened Prelude

  function LowerChar(c: char): char {
    if 'A' <= c <= 'Z' then c + 32 as char else c
  }

  function Lower(s: string): string {
    seq(|s|, i requires 0 <= i < |s| => LowerChar(s[i]))
  }

  function LowerAll(xs: seq<string>): seq<string> {
    seq(|xs|, i requires 0 <= i < |xs| => Lower(xs[i]))
  }

  ghost predicate InSlice(needle: string, haystack: seq<string>) {
    exists i :: 0 <= i < |haystack| && Lower(haystack[i]) == Lower(needle)
  }

  method StringInSlice(needle: string, haystack: seq<string>) returns (r: bool)
    ensures r <==> InSlice(needle, haystack)
  {
    for i := 0 to |haystack|
      invariant forall k :: 0 <= k < i ==> Lower(haystack[k]) != Lower(needle)
    {
      if Lower(haystack[i]) == Lower(needle) { return true; }
    }
    return false;
  }

  ghost predicate HasAll(args: seq<string>, items: seq<string>) {
    forall i :: 0 <= i < |items| ==> InSlice(items[i], args)
  }

  method Has(args: seq<string>, items: seq<string>) returns (r: bool)
    ensures r <==> HasAll(args, items)
  {
    for i := 0 to |items|
      invariant forall k :: 0 <= k < i ==> InSlice(items[k], args)
    {
      var found := StringInSlice(items[i], args);
      if !found { return false; }
    }
    return true;
  }

  ghost predicate HasSome(args: seq<string>, items: seq<string>) {
    exists i :: 0 <= i < |items| && InSlice(items[i], args)
  }

  method HasOneOf(args: seq<string>, items: seq<string>) returns (r: bool)
    ensures r <==> HasSome(args, items)
  {
    for i := 0 to |items|
      invariant forall k :: 0 <= k < i ==> !InSlice(items[k], args)
    {
      var found := StringInSlice(items[i], args);
      if found { return true; }
    }
    return false;
  }

  /** The code's own test: equal lengths, every item present, no item given twice. */
  ghost predicate MatchesSpec(args: seq<string>, items: seq<string>) {
    |args| == |items| && HasAll(args, items) && NoRepeats(items)
  }

  method Matches(args: seq<string>, items: seq<string>) returns (r: bool)
    ensures r <==> MatchesSpec(args, items)
  {
    if |args| != |items| { return false; }
    var found: set<string> := {};
    for i := 0 to |items|
      invariant forall k :: 0 <= k < i ==> InSlice(items[k], args)
      invariant forall s :: s in found <==> s in items[..i]
      invariant |found| <= i
      invariant |found| == i <==> NoRepeats(items[..i])
    {
      var present := StringInSlice(items[i], args);
      if !present { return false; }
      GrowNoRepeats(items, i, found);
      found := found + {items[i]};
    }
    assert items[..|items|] == items;
    return |found| == |args|;
  }

  lemma GrowNoRepeats(items: seq<string>, i: nat, found: set<string>)
    requires i < |items|
    requires forall s :: s in found <==> s in items[..i]
    ensures items[i] in found ==> !NoRepeats(items[..i + 1])
    ensures items[i] !in found ==> (NoRepeats(items[..i + 1]) <==> NoRepeats(items[..i]))
    ensures !NoRepeats(items[..i]) ==> !NoRepeats(items[..i + 1])
  {
    var prefix, longer := items[..i], items[..i + 1];
    assert forall k :: 0 <= k < i ==> prefix[k] == longer[k];
    assert longer[i] == items[i];
    if items[i] in found {
      var k :| 0 <= k < |prefix| && prefix[k] == items[i];
      assert longer[k] == longer[i];
    }
    if NoRepeats(longer) {
      assert NoRepeats(prefix);
    }
  }

  /** What the documentation promises: the same arguments, in any order and any case. */
  ghost predicate SameUpToCase(args: seq<string>, items: seq<string>) {
    multiset(LowerAll(args)) == multiset(LowerAll(items))
  }

  /** NoRepeats elements that all occur in an equally long list make up that list. */
  lemma {:induction false} Pigeonhole(xs: seq<string>, ys: seq<string>)
    requires |xs| == |ys| && NoRepeats(xs)
    requires forall x :: x in xs ==> x in ys
    ensures multiset(xs) == multiset(ys)
  {
    if xs != [] {
      assert xs[0] in ys;
      var k :| 0 <= k < |ys| && ys[k] == xs[0];
      var rest := ys[..k] + ys[k + 1..];
      assert ys == ys[..k] + [ys[k]] + ys[k + 1..];
      assert xs == [xs[0]] + xs[1..];
      forall x | x in xs[1..]
        ensures x in rest
      {
        var i :| 0 <= i < |xs[1..]| && xs[1..][i] == x;
        assert xs[i + 1] == x && x != xs[0] && x in xs;
        var m :| 0 <= m < |ys| && ys[m] == x;
        assert x == if m < k then rest[m] else rest[m - 1];
      }
      Pigeonhole(xs[1..], rest);
    }
  }

  lemma LowerAllMember(x: string, xs: seq<string>)
    ensures InSlice(x, xs) <==> Lower(x) in LowerAll(xs)
  {
    if InSlice(x, xs) {
      var i :| 0 <= i < |xs| && Lower(xs[i]) == Lower(x);
      assert LowerAll(xs)[i] == Lower(x);
    }
  }

  /** For items that differ even when case is ignored, `Matches` decides the documented
      relation in both directions. */
  lemma MatchesIsSameUpToCase(args: seq<string>, items: seq<string>)
    requires NoRepeats(LowerAll(items))
    ensures MatchesSpec(args, items) <==> SameUpToCase(args, items)
  {
    var la, li := LowerAll(args), LowerAll(items);
    assert forall i :: 0 <= i < |items| ==> li[i] == Lower(items[i]);
    if MatchesSpec(args, items) {
      forall x | x in li
        ensures x in la
      {
        var i :| 0 <= i < |li| && li[i] == x;
        LowerAllMember(items[i], args);
      }
      Pigeonhole(li, la);
    }
    if SameUpToCase(args, items) {
      assert |la| == |multiset(la)| == |multiset(li)| == |li|;
      forall i | 0 <= i < |items|
        ensures InSlice(items[i], args)
      {
        assert li[i] in multiset(li);
        LowerAllMember(items[i], args);
      }
      forall i, j | 0 <= i < j < |items|
        ensures items[i] != items[j]
      {
        assert li[i] != li[j];
      }
    }
  }

  function MaxLength(xs: seq<string>): (n: nat)
    ensures forall x :: x in xs ==> |x| <= n
  {
    if xs == [] then 0
    else
      var n := MaxLength(xs[1..]);
      assert forall x :: x in xs ==> x == xs[0] || x in xs[1..];
      if |xs[0]| > n then |xs[0]| else n
  }

  /** The arguments `a` and `b` match the items `a` and `A`, although `b` is not among them. */
  lemma PromiseBroken()
    ensures MatchesSpec(["a", "b"], ["a", "A"]) && !SameUpToCase(["a", "b"], ["a", "A"])
  {
    var args, items := ["a", "b"], ["a", "A"];
    assert Lower("a") == Lower("A") == "a" && Lower("b") == "b";
    assert Lower(args[0]) == Lower(items[0]) == Lower(items[1]);
    assert items[0] != items[1] by { assert "a"[0] != "A"[0]; }
    assert LowerAll(args) == ["a", "b"] && LowerAll(items) == ["a", "a"];
    assert multiset(["a", "b"])["a"] == 1 && multiset(["a", "a"])["a"] == 2 by { assert "a"[0] != "b"[0]; }
  }

  /** Exactly which item lists `Matches` decides as documented: for every argument list the promise
      holds if and only if no two different items are equal up to case. A list that repeats an item
      literally matches nothing. */
  lemma MatchesPromiseExact(items: seq<string>)
    ensures (forall args :: MatchesSpec(args, items) ==> SameUpToCase(args, items))
       <==> (NoRepeats(items) ==> NoRepeats(LowerAll(items)))
  {
    if NoRepeats(items) {
      MatchesPromiseForDistinct(items);
    }
  }

  lemma MatchesPromiseForDistinct(items: seq<string>)
    requires NoRepeats(items)
    ensures (forall args :: MatchesSpec(args, items) ==> SameUpToCase(args, items))
       <==> NoRepeats(LowerAll(items))
  {
    if NoRepeats(LowerAll(items)) {
      forall args | MatchesSpec(args, items)
        ensures SameUpToCase(args, items)
      {
        MatchesIsSameUpToCase(args, items);
      }
    } else {
      var li := LowerAll(items);
      var i, j :| 0 <= i < j < |li| && li[i] == li[j];
      var novel := seq(MaxLength(items) + 1, _ => 'x');
      var args := items[j := novel];
      forall k | 0 <= k < |items|
        ensures InSlice(items[k], args)
      {
        if k == j {
          assert Lower(args[i]) == li[i] == li[j] == Lower(items[k]);
        } else {
          assert Lower(args[k]) == Lower(items[k]);
        }
      }
      assert MatchesSpec(args, items);
      assert Lower(novel) in multiset(LowerAll(args)) by {
        assert LowerAll(args)[j] == Lower(novel);
      }
      forall k | 0 <= k < |li|
        ensures li[k] != Lower(novel)
      {
        assert items[k] in items && |li[k]| == |items[k]| < |Lower(novel)|;
      }
      assert !SameUpToCase(args, items);
    }
  }
}
