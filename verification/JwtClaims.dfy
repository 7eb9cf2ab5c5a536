/** JWT claims to and from a map, token/jwt/claims_jwt.go. A map is read in any order. */
module JwtClaims {
  import opened Prelude
  import Strings

  /** The dynamic values a claims map may hold. */
  datatype Any =
    | Str(s: string)
    | Strs(strings: seq<string>)
    | Items(items: seq<Any>)
    | Int64(i: int)
    | Float64(r: real)
    | Unknown(n: int)

  datatype ScopeField = Unset | AsList | AsString | Both

  /** Go's zero time is the first second of year 1. */
  const ZERO_UNIX := -62135596800
  const ZERO_TIME: Time := ZERO_UNIX * SECOND

  /** `scope` is absent when the slice is nil. */
  datatype Claims = Claims(
    subject: string,
    issuer: string,
    audience: seq<string>,
    jti: string,
    issuedAt: Time,
    notBefore: Time,
    expiresAt: Time,
    scope: Option<seq<string>>,
    extra: map<string, Any>,
    scopeField: ScopeField)

  const EMPTY_CLAIMS := Claims("", "", [], "", ZERO_TIME, ZERO_TIME, ZERO_TIME, None, map[], Unset)

  const RESERVED: set<string> := {"jti", "sub", "iss", "aud", "iat", "nbf", "exp", "scp", "scope"}

  function Unix(t: Time): int {
    t / SECOND
  }

  // ---------------------------------------------------------------------------------------
  // Writing

  function Lookup(m: map<string, Any>, key: string): Option<Any> {
    if key in m then Some(m[key]) else None
  }

  function When(present: bool, v: Any): Option<Any> {
    if present then Some(v) else None
  }

  /** What a reserved key is given; `drawn` is the identifier drawn when the claims have none. A
      scope key that the chosen encoding does not use keeps what the extra claims say. */
  function Entry(c: Claims, drawn: string, key: string): Option<Any> {
    if key == "sub" then When(c.subject != "", Str(c.subject))
    else if key == "iss" then When(c.issuer != "", Str(c.issuer))
    else if key == "jti" then Some(Str(if c.jti != "" then c.jti else drawn))
    else if key == "aud" then Some(Strs(c.audience))
    else if key == "iat" then When(c.issuedAt != ZERO_TIME, Int64(Unix(c.issuedAt)))
    else if key == "nbf" then When(c.notBefore != ZERO_TIME, Int64(Unix(c.notBefore)))
    else if key == "exp" then When(c.expiresAt != ZERO_TIME, Int64(Unix(c.expiresAt)))
    else if c.scope.None? then None
    else if key == "scp" && c.scopeField != AsString then Some(Strs(c.scope.value))
    else if key == "scope" && (c.scopeField == AsString || c.scopeField == Both)
        then Some(Str(Strings.Join(c.scope.value, ' ')))
    else Lookup(c.extra, key)
  }

  /** The map once the reserved keys in `done` are written. */
  function Partly(c: Claims, drawn: string, done: set<string>): map<string, Any> {
    map k | k in c.extra.Keys + done && Current(c, drawn, done, k).Some? :: Current(c, drawn, done, k).value
  }

  function Current(c: Claims, drawn: string, done: set<string>, k: string): Option<Any> {
    if k in done then Entry(c, drawn, k) else Lookup(c.extra, k)
  }

  function Written(c: Claims, drawn: string): map<string, Any> {
    Partly(c, drawn, RESERVED)
  }

  lemma WriteOne(c: Claims, drawn: string, done: set<string>, key: string)
    requires key !in done
    ensures var (m, m') := (Partly(c, drawn, done), Partly(c, drawn, done + {key}));
            && (Entry(c, drawn, key) == Lookup(c.extra, key) ==> m' == m)
            && m' == if Entry(c, drawn, key).Some? then m[key := Entry(c, drawn, key).value] else m - {key}
  {
    hide Entry;
  }

  lemma WriteNothing(c: Claims, drawn: string)
    ensures Partly(c, drawn, {}) == c.extra
  {
  }

  // ---------------------------------------------------------------------------------------
  // Reading. `seen` are the keys visited so far.

  function ReadString(m: map<string, Any>, seen: set<string>, key: string, def: string): string {
    if key in seen && key in m && m[key].Str? then m[key].s else def
  }

  function ReadAudience(m: map<string, Any>, seen: set<string>, def: seq<string>): seq<string> {
    if "aud" in seen && "aud" in m && m["aud"].Str? then [m["aud"].s]
    else if "aud" in seen && "aud" in m && m["aud"].Strs? then m["aud"].strings
    else def
  }

  /** Conversion of a float to an integer drops the fraction. */
  function Truncated(r: real): int {
    if r >= 0.0 then r.Floor else -((-r).Floor)
  }

  function ToTime(v: Any, def: Time): Time {
    match v
    case Float64(r) => Truncated(r) * SECOND
    case Int64(i) => i * SECOND
    case _ => def
  }

  function ReadTime(m: map<string, Any>, seen: set<string>, key: string, def: Time): Time {
    if key in seen && key in m then ToTime(m[key], def) else def
  }

  /** A list whose entries that are no strings read as empty ones. */
  function StringsOf(items: seq<Any>): seq<string> {
    seq(|items|, i requires 0 <= i < |items| => if items[i].Str? then items[i].s else "")
  }

  function ScpOf(m: map<string, Any>, seen: set<string>): Option<seq<string>> {
    if "scp" in seen && "scp" in m && m["scp"].Strs? then Some(m["scp"].strings)
    else if "scp" in seen && "scp" in m && m["scp"].Items? then Some(StringsOf(m["scp"].items))
    else None
  }

  function ScopeOf(m: map<string, Any>, seen: set<string>): Option<seq<string>> {
    if "scope" in seen && "scope" in m && m["scope"].Str? then Some(Strings.Split(m["scope"].s, ' ')) else None
  }

  /** When both fields are there, the one visited last decides. */
  function ReadScope(m: map<string, Any>, seen: set<string>, def: Option<seq<string>>, scopeLast: bool)
    : Option<seq<string>>
  {
    var scp, scope := ScpOf(m, seen), ScopeOf(m, seen);
    if scp.Some? && (scope.None? || !scopeLast) then scp
    else if scope.Some? then scope
    else def
  }

  function WithList(f: ScopeField): ScopeField {
    if f == AsString then Both else if f == Unset then AsList else f
  }

  function WithString(f: ScopeField): ScopeField {
    if f == AsList then Both else if f == Unset then AsString else f
  }

  function ReadField(m: map<string, Any>, seen: set<string>, def: ScopeField): ScopeField {
    var f := if ScpOf(m, seen).Some? then WithList(def) else def;
    if ScopeOf(m, seen).Some? then WithString(f) else f
  }

  function ReadExtra(m: map<string, Any>, seen: set<string>): map<string, Any> {
    map k | k in m && k in seen && k !in RESERVED :: m[k]
  }

  function Read(c: Claims, m: map<string, Any>, seen: set<string>, scopeLast: bool): Claims {
    Claims(
      ReadString(m, seen, "sub", c.subject),
      ReadString(m, seen, "iss", c.issuer),
      ReadAudience(m, seen, c.audience),
      ReadString(m, seen, "jti", c.jti),
      ReadTime(m, seen, "iat", c.issuedAt),
      ReadTime(m, seen, "nbf", c.notBefore),
      ReadTime(m, seen, "exp", c.expiresAt),
      ReadScope(m, seen, c.scope, scopeLast),
      ReadExtra(m, seen),
      ReadField(m, seen, c.scopeField))
  }

  lemma ReadNothing(c: Claims, m: map<string, Any>)
    ensures Read(c, m, {}, true) == c.(extra := map[])
  {
  }

  class JWTClaims {
    var subject: string
    var issuer: string
    var audience: seq<string>
    var jti: string
    var issuedAt: Time
    var notBefore: Time
    var expiresAt: Time
    var scope: Option<seq<string>>
    var extra: map<string, Any>
    var scopeField: ScopeField

    function Value(): Claims
      reads this
    {
      Claims(subject, issuer, audience, jti, issuedAt, notBefore, expiresAt, scope, extra, scopeField)
    }

    constructor ()
      ensures Value() == EMPTY_CLAIMS
    {
      subject, issuer, audience, jti := "", "", [], "";
      issuedAt, notBefore, expiresAt := ZERO_TIME, ZERO_TIME, ZERO_TIME;
      scope, extra, scopeField := None, map[], Unset;
    }

    method ToMap(drawn: string) returns (ret: map<string, Any>)
      ensures ret == Written(Value(), drawn)
    {
      hide Partly;
      ghost var c := Value();
      ret := extra;
      WriteNothing(c, drawn);
      WriteOne(c, drawn, {}, "sub");
      if subject != "" { ret := ret["sub" := Str(subject)]; } else { ret := ret - {"sub"}; }
      WriteOne(c, drawn, {} + {"sub"}, "iss");
      if issuer != "" { ret := ret["iss" := Str(issuer)]; } else { ret := ret - {"iss"}; }
      WriteOne(c, drawn, {} + {"sub"} + {"iss"}, "jti");
      if jti != "" { ret := ret["jti" := Str(jti)]; } else { ret := ret["jti" := Str(drawn)]; }
      WriteOne(c, drawn, {} + {"sub"} + {"iss"} + {"jti"}, "aud");
      if |audience| > 0 { ret := ret["aud" := Strs(audience)]; } else { ret := ret["aud" := Strs([])]; }
      ret := WriteTimes(drawn, ret);
      ret := WriteScope(drawn, ret);
    }

    method WriteTimes(drawn: string, m: map<string, Any>) returns (ret: map<string, Any>)
      requires m == Partly(Value(), drawn, {} + {"sub"} + {"iss"} + {"jti"} + {"aud"})
      ensures ret == Partly(Value(), drawn, {"sub", "iss", "jti", "aud", "iat", "nbf", "exp"})
    {
      hide Partly;
      ghost var c, done := Value(), {} + {"sub"} + {"iss"} + {"jti"} + {"aud"};
      ret := m;
      WriteOne(c, drawn, done, "iat");
      if issuedAt != ZERO_TIME { ret := ret["iat" := Int64(Unix(issuedAt))]; } else { ret := ret - {"iat"}; }
      WriteOne(c, drawn, done + {"iat"}, "nbf");
      if notBefore != ZERO_TIME { ret := ret["nbf" := Int64(Unix(notBefore))]; } else { ret := ret - {"nbf"}; }
      WriteOne(c, drawn, done + {"iat"} + {"nbf"}, "exp");
      if expiresAt != ZERO_TIME { ret := ret["exp" := Int64(Unix(expiresAt))]; } else { ret := ret - {"exp"}; }
      assert done + {"iat"} + {"nbf"} + {"exp"} == {"sub", "iss", "jti", "aud", "iat", "nbf", "exp"};
    }

    method WriteScope(drawn: string, m: map<string, Any>) returns (ret: map<string, Any>)
      requires m == Partly(Value(), drawn, {"sub", "iss", "jti", "aud", "iat", "nbf", "exp"})
      ensures ret == Written(Value(), drawn)
    {
      hide Partly;
      ghost var c, done := Value(), {"sub", "iss", "jti", "aud", "iat", "nbf", "exp"};
      WriteOne(c, drawn, done, "scp");
      WriteOne(c, drawn, done + {"scp"}, "scope");
      assert done + {"scp"} + {"scope"} == RESERVED;
      ret := m;
      if scope.Some? {
        if scopeField == Unset || scopeField == AsList || scopeField == Both {
          ret := ret["scp" := Strs(scope.value)];
        }
        if scopeField == AsString || scopeField == Both {
          ret := ret["scope" := Str(Strings.Join(scope.value, ' '))];
        }
      } else {
        ret := ret - {"scp"};
        ret := ret - {"scope"};
      }
    }

    /** Whatever the order in which the map is visited, the outcome is one of two. */
    method FromMap(m: map<string, Any>)
      modifies this
      ensures Value() == Read(old(Value()), m, m.Keys, true) || Value() == Read(old(Value()), m, m.Keys, false)
    {
      hide Read, Visited;
      ReadNothing(Value(), m);
      extra := map[];
      var todo := m.Keys;
      assert m.Keys - todo == {};
      ghost var scopeLast := true;
      while todo != {}
        invariant todo <= m.Keys
        invariant Value() == Read(old(Value()), m, m.Keys - todo, scopeLast)
        decreases |todo|
      {
        var k :| k in todo;
        ghost var last, seen := scopeLast, m.Keys - todo;
        Visit(k, m[k]);
        if k == "scope" && m[k].Str? { scopeLast := true; }
        if k == "scp" && (m[k].Strs? || m[k].Items?) { scopeLast := false; }
        ReadStep(old(Value()), m, seen, k, last, scopeLast);
        assert m.Keys - (todo - {k}) == seen + {k};
        todo := todo - {k};
      }
      assert m.Keys - todo == m.Keys;
    }

    /** The switch on one key. */
    method Visit(k: string, v: Any)
      modifies this
      ensures Value() == Visited(old(Value()), k, v)
    {
      if k == "jti" {
        if v.Str? { jti := v.s; }
      } else if k == "sub" {
        if v.Str? { subject := v.s; }
      } else if k == "iss" {
        if v.Str? { issuer := v.s; }
      } else if k == "aud" {
        if v.Str? { audience := [v.s]; } else if v.Strs? { audience := v.strings; }
      } else if k == "iat" {
        issuedAt := ToTime(v, issuedAt);
      } else if k == "nbf" {
        notBefore := ToTime(v, notBefore);
      } else if k == "exp" {
        expiresAt := ToTime(v, expiresAt);
      } else if k == "scp" {
        if v.Strs? {
          scope := Some(v.strings);
          if scopeField == AsString { scopeField := Both; } else if scopeField == Unset { scopeField := AsList; }
        } else if v.Items? {
          var parts: seq<string> := [];
          for i := 0 to |v.items|
            invariant parts == StringsOf(v.items)[..i]
          {
            parts := parts + [if v.items[i].Str? then v.items[i].s else ""];
          }
          assert StringsOf(v.items)[..|v.items|] == StringsOf(v.items);
          scope := Some(parts);
          if scopeField == AsString { scopeField := Both; } else if scopeField == Unset { scopeField := AsList; }
        }
      } else if k == "scope" {
        if v.Str? {
          scope := Some(Strings.Split(v.s, ' '));
          if scopeField == AsList { scopeField := Both; } else if scopeField == Unset { scopeField := AsString; }
        }
      } else {
        extra := extra[k := v];
      }
    }
  }

  function Visited(c: Claims, k: string, v: Any): Claims {
    if k == "jti" then (if v.Str? then c.(jti := v.s) else c)
    else if k == "sub" then (if v.Str? then c.(subject := v.s) else c)
    else if k == "iss" then (if v.Str? then c.(issuer := v.s) else c)
    else if k == "aud" then
      (if v.Str? then c.(audience := [v.s]) else if v.Strs? then c.(audience := v.strings) else c)
    else if k == "iat" then c.(issuedAt := ToTime(v, c.issuedAt))
    else if k == "nbf" then c.(notBefore := ToTime(v, c.notBefore))
    else if k == "exp" then c.(expiresAt := ToTime(v, c.expiresAt))
    else if k == "scp" then
      if v.Strs? then c.(scope := Some(v.strings), scopeField := WithList(c.scopeField))
      else if v.Items? then c.(scope := Some(StringsOf(v.items)), scopeField := WithList(c.scopeField))
      else c
    else if k == "scope" then
      (if v.Str? then c.(scope := Some(Strings.Split(v.s, ' ')), scopeField := WithString(c.scopeField)) else c)
    else c.(extra := c.extra[k := v])
  }

  /** How each field depends on one more visited key. */
  lemma FieldsStep(m: map<string, Any>, seen: set<string>, k: string)
    requires k in m && k !in seen
    ensures forall key, def :: ReadString(m, seen + {k}, key, def) ==
                               if k == key && m[k].Str? then m[k].s else ReadString(m, seen, key, def)
    ensures forall def :: ReadAudience(m, seen + {k}, def) ==
                          if k == "aud" && m[k].Str? then [m[k].s]
                          else if k == "aud" && m[k].Strs? then m[k].strings
                          else ReadAudience(m, seen, def)
    ensures forall key, def :: ReadTime(m, seen + {k}, key, def) == if k == key then ToTime(m[k], def)
            else ReadTime(m, seen, key, def)
    ensures forall key, def :: k == key ==> ReadTime(m, seen, key, def) == def
    ensures ReadExtra(m, seen + {k}) == if k in RESERVED then ReadExtra(m, seen) else ReadExtra(m, seen)[k := m[k]]
  {
    hide ToTime;
  }

  lemma ScopeStep(m: map<string, Any>, seen: set<string>, k: string)
    requires k in m && k !in seen
    ensures ScpOf(m, seen + {k}) ==
            if k == "scp" && m[k].Strs? then Some(m[k].strings)
            else if k == "scp" && m[k].Items? then Some(StringsOf(m[k].items))
            else ScpOf(m, seen)
    ensures k == "scp" ==> ScpOf(m, seen) == None
    ensures ScopeOf(m, seen + {k}) == if k == "scope" && m[k].Str? then Some(Strings.Split(m[k].s, ' '))
            else ScopeOf(m, seen)
    ensures k == "scope" ==> ScopeOf(m, seen) == None
  {
    hide StringsOf, Strings.Split;
  }

  /** Visiting one more key. */
  lemma ReadStep(c: Claims, m: map<string, Any>, seen: set<string>, k: string, last: bool, scopeLast: bool)
    requires k in m && k !in seen
    requires scopeLast == if k == "scope" && m[k].Str? then true
                          else if k == "scp" && (m[k].Strs? || m[k].Items?) then false else last
    ensures Visited(Read(c, m, seen, last), k, m[k]) == Read(c, m, seen + {k}, scopeLast)
  {
    hide Strings.Split, StringsOf, ToTime, ReadString, ReadAudience, ReadTime, ReadExtra, ScpOf, ScopeOf;
    FieldsStep(m, seen, k);
    ScopeStep(m, seen, k);
  }

  // ---------------------------------------------------------------------------------------
  // Round trip

  predicate WholeSecond(t: Time) {
    t % SECOND == 0
  }

  /** The scopes survive the encoding chosen for them. */
  predicate ScopesSurvive(c: Claims) {
    match c.scope
    case None => c.scopeField == Unset
    case Some(scopes) =>
      match c.scopeField
      case Unset => false
      case AsList => true
      case _ => scopes != [] && forall i :: 0 <= i < |scopes| ==> ' ' !in scopes[i]
  }

  predicate Faithful(c: Claims) {
    && c.jti != ""
    && WholeSecond(c.issuedAt) && WholeSecond(c.notBefore) && WholeSecond(c.expiresAt)
    && c.extra.Keys !! RESERVED
    && ScopesSurvive(c)
  }

  /** What writing and reading back makes of claims, when `scope` is visited last or first. */
  function Back(c: Claims, drawn: string, scopeLast: bool): Claims {
    var m := Written(c, drawn);
    Read(EMPTY_CLAIMS, m, m.Keys, scopeLast)
  }

  lemma WrittenAt(c: Claims, drawn: string, key: string)
    ensures Lookup(Written(c, drawn), key) == if key in RESERVED then Entry(c, drawn, key) else Lookup(c.extra, key)
  {
    hide Entry;
  }

  function WholeSeconds(t: Time): Time {
    Unix(t) * SECOND
  }

  /** Everything but the scopes comes back like this. */
  lemma PlainFieldsBack(c: Claims, drawn: string, scopeLast: bool)
    ensures var b := Back(c, drawn, scopeLast);
            && b.subject == c.subject && b.issuer == c.issuer && b.audience == c.audience
            && b.jti == (if c.jti != "" then c.jti else drawn)
            && b.issuedAt == WholeSeconds(c.issuedAt)
            && b.notBefore == WholeSeconds(c.notBefore)
            && b.expiresAt == WholeSeconds(c.expiresAt)
  {
    hide Written, ReadScope, ReadField, ReadExtra;
    WrittenAt(c, drawn, "sub");
    WrittenAt(c, drawn, "iss");
    WrittenAt(c, drawn, "jti");
    WrittenAt(c, drawn, "aud");
    WrittenAt(c, drawn, "iat");
    WrittenAt(c, drawn, "nbf");
    WrittenAt(c, drawn, "exp");
  }

  lemma ExtraBack(c: Claims, drawn: string, scopeLast: bool)
    ensures Back(c, drawn, scopeLast).extra == c.extra <==> c.extra.Keys !! RESERVED
  {
    hide Written, Entry, ReadString, ReadTime, ReadAudience, ReadScope, ReadField;
    var m := Written(c, drawn);
    forall k | k !in RESERVED
      ensures Lookup(m, k) == Lookup(c.extra, k)
    {
      WrittenAt(c, drawn, k);
    }
    var extra := Back(c, drawn, scopeLast).extra;
    assert forall k :: k in extra ==> k !in RESERVED;
    if c.extra.Keys !! RESERVED {
      assert forall k :: k in c.extra ==> Lookup(m, k) == Lookup(c.extra, k);
      assert forall k :: k in extra ==> Lookup(m, k) == Lookup(c.extra, k);
      assert extra == c.extra;
    }
  }

  lemma ScopesBack(c: Claims, drawn: string)
    requires c.extra.Keys !! RESERVED
    ensures (forall scopeLast: bool ::
            var b := Back(c, drawn, scopeLast);
            b.scope == c.scope && b.scopeField == c.scopeField)
            <==> ScopesSurvive(c)
  {
    hide Written, ReadString, ReadTime, ReadAudience, ReadExtra, Strings.Split, Strings.Join;
    WrittenAt(c, drawn, "scp");
    WrittenAt(c, drawn, "scope");
    assert "scp" in RESERVED && "scope" in RESERVED;
    if c.scope.Some? {
      Strings.SplitOfJoin(c.scope.value, ' ');
    }
    assert Back(c, drawn, true).scopeField == Back(c, drawn, false).scopeField;
  }

  /** Claims come back unchanged from every visiting order if and only if they have an identifier,
      whole-second times, no reserved key among the extra ones, an explicit scope encoding, and,
      where the scopes are written as one string, at least one scope and no space in any. */
  lemma RoundTripExactly(c: Claims, drawn: string)
    requires drawn != ""
    ensures (forall scopeLast: bool :: Back(c, drawn, scopeLast) == c) <==> Faithful(c)
  {
    hide Back, ScopesSurvive;
    forall scopeLast: bool
      ensures Back(c, drawn, scopeLast) == c <==>
              && c.jti != "" && WholeSecond(c.issuedAt) && WholeSecond(c.notBefore) && WholeSecond(c.expiresAt)
              && c.extra.Keys !! RESERVED
              && Back(c, drawn, scopeLast).scope == c.scope && Back(c, drawn, scopeLast).scopeField == c.scopeField
    {
      PlainFieldsBack(c, drawn, scopeLast);
      ExtraBack(c, drawn, scopeLast);
    }
    if c.extra.Keys !! RESERVED {
      ScopesBack(c, drawn);
    }
  }

  /** The visiting order matters only if both scope fields are there and say different things. */
  lemma OrderMattersExactly(c: Claims, m: map<string, Any>)
    ensures Read(c, m, m.Keys, true) != Read(c, m, m.Keys, false) <==>
            ScpOf(m, m.Keys).Some? && ScopeOf(m, m.Keys).Some? && ScpOf(m, m.Keys) != ScopeOf(m, m.Keys)
  {
  }

  // ---------------------------------------------------------------------------------------
  // The map a JSON decoder makes: numbers are floats, and lists hold dynamic values.

  function Decoded(v: Any): Any {
    match v
    case Int64(i) => Float64(i as real)
    case Strs(strings) => Items(seq(|strings|, i requires 0 <= i < |strings| => Str(strings[i])))
    case Items(items) => Items(seq(|items|, i requires 0 <= i < |items| => Decoded(items[i])))
    case _ => v
  }

  function JsonForm(m: map<string, Any>): map<string, Any> {
    map k | k in m :: Decoded(m[k])
  }

  /** A fraction of a second is dropped toward the first second of 1970. */
  lemma FractionsAreDropped(r: real, def: Time)
    ensures var t := ToTime(Float64(r), def);
            && t % SECOND == 0
            && (r >= 0.0 ==> 0 <= t && (t / SECOND) as real <= r < (t / SECOND) as real + 1.0)
            && (r <= 0.0 ==> t <= 0 && (t / SECOND) as real - 1.0 < r <= (t / SECOND) as real)
  {
    assert ToTime(Float64(r), def) == Truncated(r) * SECOND;
  }

  /** Whole seconds read the same as floats, whatever the sign. */
  lemma WholeSecondsDecoded(v: Any, def: Time)
    ensures ToTime(Decoded(v), def) == ToTime(v, def)
  {
  }

  lemma ScopesDecoded(m: map<string, Any>)
    ensures ScpOf(JsonForm(m), m.Keys) == ScpOf(m, m.Keys) && ScopeOf(JsonForm(m), m.Keys) == ScopeOf(m, m.Keys)
  {
    hide Strings.Split;
    if "scp" in m && m["scp"].Strs? {
      assert StringsOf(Decoded(m["scp"]).items) == m["scp"].strings;
    }
    if "scp" in m && m["scp"].Items? {
      assert StringsOf(Decoded(m["scp"]).items) == StringsOf(m["scp"].items);
    }
  }

  /** A single audience may be given as a string or as a list of one. */
  lemma SingleAudience(c: Claims, m: map<string, Any>, audience: string, scopeLast: bool)
    ensures var (one, many) := (m["aud" := Str(audience)], m["aud" := Strs([audience])]);
            Read(c, one, one.Keys, scopeLast).audience == Read(c, many, many.Keys, scopeLast).audience == [audience]
  {
  }

  /** Reading a decoded map gives what reading the map gives, except that a list of audiences is not
      recognised and the extra claims are decoded as well. */
  lemma DecodedRead(c: Claims, m: map<string, Any>, scopeLast: bool)
    requires "aud" in m && m["aud"].Strs?
    ensures var (plain, decoded) := (Read(c, m, m.Keys, scopeLast), JsonForm(m));
            Read(c, decoded, decoded.Keys, scopeLast)
            == plain.(audience := c.audience, extra := JsonForm(plain.extra))
  {
    hide ToTime, StringsOf, Strings.Split;
    ScopesDecoded(m);
    forall key, def
      ensures ReadTime(JsonForm(m), m.Keys, key, def) == ReadTime(m, m.Keys, key, def)
    {
      if key in m { WholeSecondsDecoded(m[key], def); }
    }
    assert JsonForm(m).Keys == m.Keys;
    assert ReadExtra(JsonForm(m), m.Keys) == JsonForm(ReadExtra(m, m.Keys));
    hide ScpOf, ScopeOf;
  }

  /** What writing, decoding and reading back makes of claims. */
  function DecodedBack(c: Claims, drawn: string, scopeLast: bool): Claims {
    var m := JsonForm(Written(c, drawn));
    Read(EMPTY_CLAIMS, m, m.Keys, scopeLast)
  }

  /** Through JSON claims survive if and only if they would without it, name no audience, and have
      extra claims that JSON keeps: a list of audiences is written but not read back. */
  lemma JsonRoundTripExactly(c: Claims, drawn: string)
    requires drawn != ""
    ensures (forall scopeLast: bool :: DecodedBack(c, drawn, scopeLast) == c)
            <==> Faithful(c) && c.audience == [] && JsonForm(c.extra) == c.extra
    ensures Faithful(c) ==> forall scopeLast: bool ::
              DecodedBack(c, drawn, scopeLast) == c.(audience := [], extra := JsonForm(c.extra))
  {
    hide Written, Read, Faithful, JsonForm;
    WrittenAt(c, drawn, "aud");
    forall scopeLast: bool
      ensures var b := Back(c, drawn, scopeLast);
              && DecodedBack(c, drawn, scopeLast) == b.(audience := [], extra := JsonForm(b.extra))
              && b.audience == c.audience
              && (JsonForm(b.extra) == c.extra <==> JsonForm(c.extra) == c.extra && b.extra == c.extra)
    {
      DecodedRead(EMPTY_CLAIMS, Written(c, drawn), scopeLast);
      PlainFieldsBack(c, drawn, scopeLast);
      ExtraBack(c, drawn, scopeLast);
      ExtraReserved(c, drawn, scopeLast);
    }
    RoundTripExactly(c, drawn);
    if forall scopeLast: bool :: DecodedBack(c, drawn, scopeLast) == c {
      forall scopeLast: bool
        ensures Back(c, drawn, scopeLast) == c
      {
        assert DecodedBack(c, drawn, scopeLast) == c;
      }
    }
    if Faithful(c) {
      assert forall scopeLast: bool :: Back(c, drawn, scopeLast) == c;
    }
  }

  lemma ExtraReserved(c: Claims, drawn: string, scopeLast: bool)
    ensures JsonForm(Back(c, drawn, scopeLast).extra) == c.extra ==> c.extra.Keys !! RESERVED
  {
    hide Written, ReadString, ReadTime, ReadAudience, ReadScope, ReadField;
    assert JsonForm(Back(c, drawn, scopeLast).extra).Keys == Back(c, drawn, scopeLast).extra.Keys;
  }
}
