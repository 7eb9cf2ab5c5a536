/** helper.go: escaping a string for JSON by successive whole-string replacements, and dropping
    the blank entries of a list. */
module Helper {
  import opened Prelude

  /** `strings.ReplaceAll` for a one-character pattern. */
  function ReplaceAll(s: string, c: char, sub: string): string {
    if s == "" then "" else (if s[0] == c then sub else [s[0]]) + ReplaceAll(s[1..], c, sub)
  }

  function HexDigit(n: nat): char
    requires n < 16
  {
    "0123456789abcdef"[n]
  }

  function ControlEscape(n: nat): string
    requires n < 32
  {
    "\\u00" + [HexDigit(n / 16), HexDigit(n % 16)]
  }

  /** One character once the reverse solidus and the control characters below `n` are escaped. */
  function EscapeChar(c: char, n: nat, quote: bool): string
    requires n <= 32
  {
    if c == '\\' then "\\\\"
    else if c as int < n then ControlEscape(c as int)
    else if quote && c == '"' then "\\\""
    else [c]
  }

  function Escaped(s: string, n: nat, quote: bool): string
    requires n <= 32
  {
    if s == "" then "" else EscapeChar(s[0], n, quote) + Escaped(s[1..], n, quote)
  }

  lemma {:induction false} ReplaceAllConcat(a: string, b: string, c: char, sub: string)
    ensures ReplaceAll(a + b, c, sub) == ReplaceAll(a, c, sub) + ReplaceAll(b, c, sub)
  {
    if a == "" {
      assert a + b == b;
    } else {
      ReplaceAllConcat(a[1..], b, c, sub);
      assert (a + b)[1..] == a[1..] + b;
    }
  }

  lemma {:induction false} ReplaceAllAbsent(s: string, c: char, sub: string)
    requires c !in s
    ensures ReplaceAll(s, c, sub) == s
  {
    if s != "" {
      ReplaceAllAbsent(s[1..], c, sub);
      assert s == [s[0]] + s[1..];
    }
  }

  lemma {:induction false} ReplaceBackslash(s: string)
    ensures ReplaceAll(s, '\\', "\\\\") == Escaped(s, 0, false)
  {
    if s != "" {
      ReplaceBackslash(s[1..]);
    }
  }

  lemma ReplaceOne(c: char, sub: string)
    ensures ReplaceAll([c], c, sub) == sub
  {
    assert [c][1..] == "";
    assert ReplaceAll([c], c, sub) == sub + ReplaceAll("", c, sub);
  }

  /** An escape already made contains no control character and no quotation mark, so a later
      replacement cannot damage it. */
  lemma EscapeCharReplaced(c: char, n: nat)
    requires n < 32
    ensures ReplaceAll(EscapeChar(c, n, false), n as char, ControlEscape(n)) == EscapeChar(c, n + 1, false)
  {
    if c == n as char {
      ReplaceOne(c, ControlEscape(n));
    } else {
      ReplaceAllAbsent(EscapeChar(c, n, false), n as char, ControlEscape(n));
    }
  }

  lemma QuoteReplaced(c: char)
    ensures ReplaceAll(EscapeChar(c, 32, false), '"', "\\\"") == EscapeChar(c, 32, true)
  {
    if c == '"' {
      ReplaceOne(c, "\\\"");
    } else {
      ReplaceAllAbsent(EscapeChar(c, 32, false), '"', "\\\"");
    }
  }

  lemma {:induction false} ReplaceControl(s: string, n: nat)
    requires n < 32
    ensures ReplaceAll(Escaped(s, n, false), n as char, ControlEscape(n)) == Escaped(s, n + 1, false)
  {
    if s != "" {
      ReplaceControl(s[1..], n);
      EscapeCharReplaced(s[0], n);
      ReplaceAllConcat(EscapeChar(s[0], n, false), Escaped(s[1..], n, false), n as char, ControlEscape(n));
    }
  }

  lemma {:induction false} ReplaceQuote(s: string)
    ensures ReplaceAll(Escaped(s, 32, false), '"', "\\\"") == Escaped(s, 32, true)
  {
    if s != "" {
      ReplaceQuote(s[1..]);
      QuoteReplaced(s[0]);
      ReplaceAllConcat(EscapeChar(s[0], 32, false), Escaped(s[1..], 32, false), '"', "\\\"");
    }
  }

  /** Thirty-four replacements of the whole string are one escape of each character. */
  method EscapeJSONString(str: string) returns (r: string)
    ensures r == Escaped(str, 32, true)
  {
    r := ReplaceAll(str, '\\', "\\\\");
    ReplaceBackslash(str);
    for n := 0 to 32
      invariant r == Escaped(str, n, false)
    {
      r := ReplaceAll(r, n as char, ControlEscape(n));
      ReplaceControl(str, n);
    }
    r := ReplaceAll(r, '"', "\\\"");
    ReplaceQuote(str);
  }

  // ---------------------------------------------------------------------------------------
  // The reader of section 7 of RFC 8259

  function HexValue(c: char): Option<nat> {
    if '0' <= c <= '9' then Some((c - '0') as nat)
    else if 'a' <= c <= 'f' then Some((c - 'a') as nat + 10)
    else if 'A' <= c <= 'F' then Some((c - 'A') as nat + 10)
    else None
  }

  function CodeUnit(a: char, b: char, c: char, d: char): Option<nat> {
    var (w, x, y, z) := (HexValue(a), HexValue(b), HexValue(c), HexValue(d));
    if w.Some? && x.Some? && y.Some? && z.Some? then
      Some(w.value * 4096 + x.value * 256 + y.value * 16 + z.value)
    else None
  }

  function ShortEscape(c: char): Option<char> {
    if c == '"' || c == '\\' || c == '/' then Some(c)
    else if c == 'b' then Some(8 as char)
    else if c == 'f' then Some(12 as char)
    else if c == 'n' then Some('\n')
    else if c == 'r' then Some('\r')
    else if c == 't' then Some('\t')
    else None
  }

  function Prepend(c: char, rest: Option<string>): Option<string> {
    if rest.Some? then Some([c] + rest.value) else None
  }

  /** Reads the text between the quotation marks of a JSON string. It fails on a raw control
      character, on a quotation mark that is not escaped, and on a bad escape. Escapes of
      surrogates are not read. */
  function Unescape(s: string): Option<string> {
    if s == "" then Some("")
    else if s[0] as int < 32 || s[0] == '"' then None
    else if s[0] != '\\' then Prepend(s[0], Unescape(s[1..]))
    else if |s| < 2 then None
    else if s[1] == 'u' then
      if |s| < 6 then None
      else
        var u := CodeUnit(s[2], s[3], s[4], s[5]);
        if u.Some? && u.value < 0xd800 then Prepend(u.value as char, Unescape(s[6..])) else None
    else
      var c := ShortEscape(s[1]);
      if c.Some? then Prepend(c.value, Unescape(s[2..])) else None
  }

  lemma HexRoundTrip(n: nat)
    requires n < 32
    ensures CodeUnit('0', '0', HexDigit(n / 16), HexDigit(n % 16)) == Some(n)
  {
    HexDigitValue(n / 16);
    HexDigitValue(n % 16);
  }

  lemma HexDigitValue(n: nat)
    requires n < 16
    ensures HexValue(HexDigit(n)) == Some(n)
  {
  }

  lemma UnescapeOne(c: char, rest: string)
    ensures Unescape(EscapeChar(c, 32, true) + rest) == Prepend(c, Unescape(rest))
  {
    var s := EscapeChar(c, 32, true) + rest;
    if c as int < 32 {
      HexRoundTrip(c as int);
      assert s[..6] == ControlEscape(c as int) && s[6..] == rest;
      assert s[2] == '0' && s[3] == '0' && s[4] == HexDigit(c as int / 16) && s[5] == HexDigit(c as int % 16);
    } else if c == '\\' || c == '"' {
      assert s[2..] == rest;
    } else {
      assert s[1..] == rest;
    }
  }

  /** What is written is a JSON string's text (no raw control character, no unescaped quotation
      mark), and reading it gives the original back. */
  lemma {:induction false} UnescapeRecovers(s: string)
    ensures Unescape(Escaped(s, 32, true)) == Some(s)
  {
    if s != "" {
      UnescapeRecovers(s[1..]);
      UnescapeOne(s[0], Escaped(s[1..], 32, true));
      assert s == [s[0]] + s[1..];
    }
  }

  // ---------------------------------------------------------------------------------------
  // Blank entries

  predicate IsSpace(c: char) {
    c == ' ' || 9 <= c as int <= 13
  }

  function TrimLeft(s: string): string {
    if s != "" && IsSpace(s[0]) then TrimLeft(s[1..]) else s
  }

  function TrimRight(s: string): string {
    if s != "" && IsSpace(s[|s| - 1]) then TrimRight(s[..|s| - 1]) else s
  }

  function TrimSpace(s: string): string {
    TrimRight(TrimLeft(s))
  }

  function NonEmpty(args: seq<string>): seq<string> {
    if args == [] then []
    else
      var rest, v := NonEmpty(args[..|args| - 1]), TrimSpace(args[|args| - 1]);
      if v != "" then rest + [v] else rest
  }

  lemma {:induction false} TrimLeftFacts(s: string)
    ensures |TrimLeft(s)| <= |s| && s[|s| - |TrimLeft(s)|..] == TrimLeft(s)
    ensures TrimLeft(s) != "" ==> !IsSpace(TrimLeft(s)[0])
    ensures forall i :: 0 <= i < |s| - |TrimLeft(s)| ==> IsSpace(s[i])
  {
    if s != "" && IsSpace(s[0]) {
      TrimLeftFacts(s[1..]);
    }
  }

  lemma {:induction false} TrimRightFacts(s: string)
    ensures TrimRight(s) <= s
    ensures TrimRight(s) != "" ==> !IsSpace(TrimRight(s)[|TrimRight(s)| - 1])
    ensures forall i :: |TrimRight(s)| <= i < |s| ==> IsSpace(s[i])
  {
    if s != "" && IsSpace(s[|s| - 1]) {
      TrimRightFacts(s[..|s| - 1]);
    }
  }

  /** Nothing but white space on both sides is taken away, and all of it. */
  ghost predicate IsTrimmed(s: string, t: string, from: nat) {
    && from + |t| <= |s| && s[from..from + |t|] == t
    && (forall i :: 0 <= i < from || from + |t| <= i < |s| ==> IsSpace(s[i]))
    && (t != "" ==> !IsSpace(t[0]) && !IsSpace(t[|t| - 1]))
  }

  lemma TrimSpaceMeaning(s: string)
    ensures exists from: nat :: IsTrimmed(s, TrimSpace(s), from)
  {
    TrimLeftFacts(s);
    TrimRightFacts(TrimLeft(s));
    var from, l, t := |s| - |TrimLeft(s)|, TrimLeft(s), TrimSpace(s);
    forall i | 0 <= i < from || from + |t| <= i < |s|
      ensures IsSpace(s[i])
    {
      assert i >= from ==> s[i] == l[i - from];
    }
    assert IsTrimmed(s, t, from);
  }

  /** A string is blank exactly when trimming leaves nothing, and trimming twice is trimming once. */
  lemma TrimSpaceFacts(s: string)
    ensures TrimSpace(s) == "" <==> forall i :: 0 <= i < |s| ==> IsSpace(s[i])
    ensures TrimSpace(TrimSpace(s)) == TrimSpace(s)
  {
    TrimSpaceMeaning(s);
    var t := TrimSpace(s);
    var from: nat :| IsTrimmed(s, t, from);
    if t != "" {
      assert s[from] == t[0];
      assert TrimLeft(t) == t && TrimRight(t) == t;
    }
  }

  /** No entry that is kept is blank or padded, the entries kept are exactly the trimmed ones that
      are not blank, and order and multiplicity are kept: what comes first in the list comes first
      in the result. */
  lemma {:induction false} NonEmptyMeaning(args: seq<string>, more: seq<string>)
    ensures forall x :: x in NonEmpty(args) ==> x != "" && TrimSpace(x) == x
    ensures forall x :: x in NonEmpty(args) <==> x != "" && exists i :: 0 <= i < |args| && TrimSpace(args[i]) == x
    ensures NonEmpty(args + more) == NonEmpty(args) + NonEmpty(more)
    ensures |args| == 1 ==> NonEmpty(args) == if TrimSpace(args[0]) == "" then [] else [TrimSpace(args[0])]
  {
    hide TrimSpace;
    NonEmptyMembers(args);
    NonEmptyConcat(args, more);
    if |args| == 1 {
      assert NonEmpty(args[..0]) == [];
    }
  }

  lemma {:induction false} NonEmptyConcat(args: seq<string>, more: seq<string>)
    ensures NonEmpty(args + more) == NonEmpty(args) + NonEmpty(more)
  {
    if more == [] {
      assert args + more == args;
    } else {
      NonEmptyConcat(args, more[..|more| - 1]);
      assert (args + more)[..|args + more| - 1] == args + more[..|more| - 1];
    }
  }

  lemma {:induction false} NonEmptyMembers(args: seq<string>)
    ensures forall x :: x in NonEmpty(args) ==> x != "" && TrimSpace(x) == x
    ensures forall x :: x in NonEmpty(args) <==> x != "" && exists i :: 0 <= i < |args| && TrimSpace(args[i]) == x
  {
    hide TrimSpace;
    if args != [] {
      var front, last := args[..|args| - 1], args[|args| - 1];
      NonEmptyMembers(front);
      TrimSpaceFacts(last);
      forall x | x in NonEmpty(args)
        ensures exists i :: 0 <= i < |args| && TrimSpace(args[i]) == x
      {
        if x in NonEmpty(front) {
          var i :| 0 <= i < |front| && TrimSpace(front[i]) == x;
          assert TrimSpace(args[i]) == x;
        } else {
          assert TrimSpace(args[|args| - 1]) == x;
        }
      }
      forall i | 0 <= i < |args| && TrimSpace(args[i]) != ""
        ensures TrimSpace(args[i]) in NonEmpty(args)
      {
        if i < |front| {
          assert TrimSpace(front[i]) in NonEmpty(front);
        }
      }
    }
  }

  method RemoveEmpty(args: seq<string>) returns (ret: seq<string>)
    ensures ret == NonEmpty(args)
  {
    ret := [];
    for i := 0 to |args|
      invariant ret == NonEmpty(args[..i])
    {
      var v := TrimSpace(args[i]);
      if v != "" { ret := ret + [v]; }
      assert args[..i + 1][..i] == args[..i];
    }
    assert args[..|args|] == args;
  }
}
