/** The audience strategies of audience_strategy.go. `url.Parse` is a parameter. */
module Audience {
  import opened Prelude

  datatype URL = URL(scheme: string, host: string, path: string)

  /** `strings.TrimRight(s, "/")`. */
  function TrimSlashes(s: string): string {
    if s != "" && s[|s| - 1] == '/' then TrimSlashes(s[..|s| - 1]) else s
  }

  /** The test as the code makes it; the slice is in bounds because of the guard before it. */
  predicate PathMatches(allowed: string, asked: string) {
    var trimmed := TrimSlashes(allowed);
    || asked == allowed
    || asked == trimmed
    || (|asked| > |trimmed| && TrimSlashes(asked[..|trimmed| + 1]) + "/" == trimmed + "/")
  }

  /** The rule it stands for: the allowed path, or anything below it. */
  predicate Below(allowed: string, asked: string) {
    var trimmed := TrimSlashes(allowed);
    asked == trimmed || trimmed + "/" <= asked
  }

  predicate Matches(allowed: URL, asked: URL) {
    asked.scheme == allowed.scheme && asked.host == allowed.host && PathMatches(allowed.path, asked.path)
  }

  lemma {:induction false} TrimSlashesFacts(s: string)
    ensures TrimSlashes(s) <= s
    ensures TrimSlashes(s) == "" || TrimSlashes(s)[|TrimSlashes(s)| - 1] != '/'
    ensures forall i :: |TrimSlashes(s)| <= i < |s| ==> s[i] == '/'
  {
    if s != "" && s[|s| - 1] == '/' {
      TrimSlashesFacts(s[..|s| - 1]);
    }
  }

  /** What is left after trimming is determined by these facts. */
  lemma TrimSlashesUnique(s: string, t: string)
    requires t <= s && (t == "" || t[|t| - 1] != '/') && forall i :: |t| <= i < |s| ==> s[i] == '/'
    ensures TrimSlashes(s) == t
  {
    TrimSlashesFacts(s);
    var u := TrimSlashes(s);
    assert t != "" ==> s[|t| - 1] == t[|t| - 1];
    assert u != "" ==> s[|u| - 1] == u[|u| - 1];
  }

  /** The code's three alternatives are the rule. */
  lemma PathRule(allowed: string, asked: string)
    ensures PathMatches(allowed, asked) <==> Below(allowed, asked)
  {
    TrimSlashesFacts(allowed);
    var t := TrimSlashes(allowed);
    if |asked| > |t| {
      var p := asked[..|t| + 1];
      TrimSlashesFacts(p);
      if t + "/" <= asked {
        assert p == t + "/";
        TrimSlashesUnique(p, t);
      }
      if TrimSlashes(p) + "/" == t + "/" {
        assert TrimSlashes(p) == (TrimSlashes(p) + "/")[..|TrimSlashes(p)|];
        assert TrimSlashes(p) == t;
        assert p[|t|] == '/';
        assert p == t + "/";
      }
    }
    if asked == allowed && asked != t {
      assert allowed[|t|] == '/';
      assert t + "/" <= asked;
    }
  }

  lemma BelowIsPreorder(a: string, b: string, c: string)
    ensures Below(a, a)
    ensures Below(a, b) && Below(b, c) ==> Below(a, c)
  {
    PathRule(a, a);
    if Below(a, b) && Below(b, c) {
      TrimSlashesFacts(a);
      TrimSlashesFacts(b);
      var t, u := TrimSlashes(a), TrimSlashes(b);
      if b == t {
        TrimSlashesUnique(b, t);
      } else {
        assert t + "/" <= b && b[|t|] == '/';
        assert t != "" ==> b[|t| - 1] == t[|t| - 1];
        assert |u| == |t| ==> u == t;
        assert |u| > |t| ==> t + "/" <= u;
      }
    }
  }

  /** What a path strategy accepts: nothing asked, or everything parses and is below something. */
  ghost predicate Accepts(parse: string -> Option<URL>, haystack: seq<string>, needle: seq<string>) {
    needle == [] || (
      && (forall i :: 0 <= i < |needle| ==> parse(needle[i]).Some?)
      && (forall j :: 0 <= j < |haystack| ==> parse(haystack[j]).Some?)
      && forall i :: 0 <= i < |needle| ==> Whitelisted(parse, haystack, needle[i]))
  }

  ghost predicate Whitelisted(parse: string -> Option<URL>, haystack: seq<string>, n: string) {
    exists j :: 0 <= j < |haystack| && Covers(parse, haystack[j], n)
  }

  ghost predicate Covers(parse: string -> Option<URL>, h: string, n: string) {
    var hu, nu := parse(h), parse(n);
    && hu.Some? && nu.Some?
    && nu.value.scheme == hu.value.scheme && nu.value.host == hu.value.host
    && Below(hu.value.path, nu.value.path)
  }

  method DefaultAudienceMatchingStrategy(parse: string -> Option<URL>, haystack: seq<string>, needle: seq<string>)
    returns (err: Option<Error>)
    ensures err == if Accepts(parse, haystack, needle) then None else Some(InvalidRequest)
  {
    hide Below, PathMatches;
    if |needle| == 0 { return None; }
    for i := 0 to |needle|
      invariant forall k :: 0 <= k < i ==> parse(needle[k]).Some? && Whitelisted(parse, haystack, needle[k])
      invariant i > 0 ==> forall j :: 0 <= j < |haystack| ==> parse(haystack[j]).Some?
    {
      var nu := parse(needle[i]);
      if nu.None? { return Some(InvalidRequest); }
      var found := false;
      for j := 0 to |haystack|
        invariant forall k :: 0 <= k < j ==> parse(haystack[k]).Some?
        invariant found <==> exists k :: 0 <= k < j && Covers(parse, haystack[k], needle[i])
      {
        var hu := parse(haystack[j]);
        if hu.None? { return Some(InvalidRequest); }
        PathRule(hu.value.path, nu.value.path);
        if Matches(hu.value, nu.value) { found := true; }
      }
      if !found { return Some(InvalidRequest); }
    }
    return None;
  }

  /** A client that may ask for M may ask for whatever M covers. */
  lemma AcceptsIsTransitive(parse: string -> Option<URL>, a: seq<string>, b: seq<string>, c: seq<string>)
    requires Accepts(parse, a, b) && Accepts(parse, b, c)
    ensures Accepts(parse, a, c)
  {
    hide Below;
    assert c != [] ==> Whitelisted(parse, b, c[0]);
    forall i | 0 <= i < |c|
      ensures Whitelisted(parse, a, c[i])
    {
      assert Whitelisted(parse, b, c[i]);
      var j :| 0 <= j < |b| && Covers(parse, b[j], c[i]);
      assert Whitelisted(parse, a, b[j]);
      var k :| 0 <= k < |a| && Covers(parse, a[k], b[j]);
      BelowIsPreorder(parse(a[k]).value.path, parse(b[j]).value.path, parse(c[i]).value.path);
      assert Covers(parse, a[k], c[i]);
    }
  }

  method ExactAudienceMatchingStrategy(haystack: seq<string>, needle: seq<string>) returns (err: Option<Error>)
    ensures err == if forall n :: n in needle ==> n in haystack then None else Some(InvalidRequest)
  {
    if |needle| == 0 { return None; }
    for i := 0 to |needle|
      invariant forall k :: 0 <= k < i ==> needle[k] in haystack
    {
      var found := false;
      for j := 0 to |haystack|
        invariant found <==> needle[i] in haystack[..j]
      {
        if needle[i] == haystack[j] { found := true; }
      }
      if !found {
        assert needle[i] !in haystack;
        return Some(InvalidRequest);
      }
    }
    return None;
  }
}
