/** Opaque tokens: token/hmac/hmacsha.go generates a random key together with its MAC and checks
    the MAC under the current secret and every rotated one; handler/oauth2/strategy_hmacsha_prefixed.go
    and handler/rfc8628/strategy_hmacsha.go put a readable prefix before them. */
module HMAC {
  import opened Prelude
  import opened Grants
  import Strings

  type Bytes = seq<bv8>

  /** Base64 and the MAC, and the secrets of the configuration. */
  datatype Settings = Settings(
    encode: Bytes -> string,
    decode: string -> Option<Bytes>,
    mac: (Bytes, Bytes) -> Bytes,
    global: Bytes,
    rotated: seq<Bytes>,
    entropy: int)

  const MINIMUM_ENTROPY := 32
  const MINIMUM_SECRET_LENGTH := 32

  /** What the code needs of unpadded base64 and of the MAC. */
  ghost predicate Lawful(s: Settings) {
    && (forall b: Bytes :: s.decode(s.encode(b)) == Some(b))
    && (forall b: Bytes :: '.' !in s.encode(b))
    && (forall b: Bytes :: b != [] ==> s.encode(b) != "")
    && (forall data: Bytes, key: Bytes :: s.mac(data, key) != [])
  }

  const TOO_SHORT := Other(1)
  const NO_SECRET := Other(2)
  const BAD_BASE64 := Other(3)

  /** `strings.Cut` at the first dot. */
  function Cut(token: string): Option<(string, string)> {
    if token == "" then None
    else if token[0] == '.' then Some(("", token[1..]))
    else
      var rest := Cut(token[1..]);
      if rest.Some? then Some(([token[0]] + rest.value.0, rest.value.1)) else None
  }

  function Key(secret: Bytes): Bytes
    requires |secret| >= MINIMUM_SECRET_LENGTH
  {
    secret[..32]
  }

  /** The decision under one secret. */
  function CheckUnder(s: Settings, secret: Bytes, token: string): Option<Error> {
    if |secret| < MINIMUM_SECRET_LENGTH then Some(TOO_SHORT)
    else
      var parts := Cut(token);
      if parts.None? || parts.value.0 == "" || parts.value.1 == "" then Some(InvalidTokenFormat)
      else
        var (signature, key) := (s.decode(parts.value.1), s.decode(parts.value.0));
        if signature.None? || key.None? then Some(BAD_BASE64)
        else if s.mac(key.value, Key(secret)) != signature.value then Some(TokenSignatureMismatch)
        else None
  }

  /** The secrets in the order in which they are tried. */
  function Keys(s: Settings): seq<Bytes> {
    (if |s.global| > 0 then [s.global] else []) + s.rotated
  }

  /** The first secret that does more than not match decides. */
  function Decide(s: Settings, keys: seq<Bytes>, token: string): Option<Error>
    requires keys != []
  {
    var err := CheckUnder(s, keys[0], token);
    if err == Some(TokenSignatureMismatch) && |keys| > 1 then Decide(s, keys[1..], token) else err
  }

  function Verdict(s: Settings, token: string): Option<Error> {
    if Keys(s) == [] then Some(NO_SECRET) else Decide(s, Keys(s), token)
  }

  function Signature(token: string): string {
    var parts := Strings.Split(token, '.');
    if |parts| != 2 then "" else parts[1]
  }

  /** `tokenKey` are the random bytes drawn. */
  function Token(s: Settings, secret: Bytes, tokenKey: Bytes): Generated
    requires |secret| >= MINIMUM_SECRET_LENGTH
  {
    var signature := s.encode(s.mac(tokenKey, Key(secret)));
    Generated(s.encode(tokenKey) + "." + signature, signature)
  }

  /** The number of random bytes a token is made of. */
  function Entropy(s: Settings): nat {
    if s.entropy < MINIMUM_ENTROPY then MINIMUM_ENTROPY else s.entropy
  }

  method Generate(s: Settings, random: nat -> Bytes) returns (token: Option<Generated>, err: Option<Error>)
    ensures |s.global| < MINIMUM_SECRET_LENGTH ==> token == None && err == Some(TOO_SHORT)
    ensures |s.global| >= MINIMUM_SECRET_LENGTH ==> err == None && token == Some(Token(s, s.global, random(Entropy(s))))
  {
    if |s.global| < MINIMUM_SECRET_LENGTH { return None, Some(TOO_SHORT); }
    var signingKey := new bv8[32];
    for i := 0 to 32
      invariant signingKey[..i] == s.global[..i]
    {
      signingKey[i] := s.global[i];
    }
    var entropy := s.entropy;
    if entropy < MINIMUM_ENTROPY { entropy := MINIMUM_ENTROPY; }
    var tokenKey := random(entropy);
    assert signingKey[..] == Key(s.global);
    var signature := s.mac(tokenKey, signingKey[..]);
    var encodedSignature := s.encode(signature);
    return Some(Generated(s.encode(tokenKey) + "." + encodedSignature, encodedSignature)), None;
  }

  method Validate(s: Settings, token: string) returns (err: Option<Error>)
    ensures err == Verdict(s, token)
  {
    var keys: seq<Bytes> := [];
    if |s.global| > 0 { keys := keys + [s.global]; }
    keys := keys + s.rotated;
    if |keys| == 0 { return Some(NO_SECRET); }
    err := None;
    for i := 0 to |keys|
      invariant i > 0 ==> err == Some(TokenSignatureMismatch)
      invariant i < |keys| ==> Decide(s, keys[i..], token) == Verdict(s, token)
      invariant i == |keys| ==> err == Verdict(s, token)
    {
      assert keys[i..][1..] == keys[i + 1..];
      err := CheckUnder(s, keys[i], token);
      if err == None { return None; }
      if err != Some(TokenSignatureMismatch) { return; }
    }
  }

  // ---------------------------------------------------------------------------------------
  // Which tokens validate

  /** The token's two parts, decoded. */
  function Parsed(s: Settings, token: string): Option<(Bytes, Bytes)> {
    var parts := Cut(token);
    if parts.None? || parts.value.0 == "" || parts.value.1 == "" then None
    else
      var (key, signature) := (s.decode(parts.value.0), s.decode(parts.value.1));
      if key.None? || signature.None? then None else Some((key.value, signature.value))
  }

  ghost predicate SignedUnder(s: Settings, secret: Bytes, parsed: (Bytes, Bytes)) {
    |secret| >= MINIMUM_SECRET_LENGTH && s.mac(parsed.0, Key(secret)) == parsed.1
  }

  ghost predicate SignedByOne(s: Settings, keys: seq<Bytes>, parsed: (Bytes, Bytes)) {
    exists i :: 0 <= i < |keys| && SignedUnder(s, keys[i], parsed)
        && forall j :: 0 <= j < i ==> |keys[j]| >= MINIMUM_SECRET_LENGTH
  }

  lemma {:induction false} DecideIsExact(s: Settings, keys: seq<Bytes>, token: string)
    requires keys != []
    ensures Decide(s, keys, token) == None <==>
            Parsed(s, token).Some? && SignedByOne(s, keys, Parsed(s, token).value)
  {
    hide Cut;
    var parsed := Parsed(s, token);
    if |keys| > 1 {
      var rest := keys[1..];
      DecideIsExact(s, rest, token);
      if parsed.Some? && SignedByOne(s, rest, parsed.value) && |keys[0]| >= MINIMUM_SECRET_LENGTH {
        var i :| 0 <= i < |rest| && SignedUnder(s, rest[i], parsed.value)
            && forall j :: 0 <= j < i ==> |rest[j]| >= MINIMUM_SECRET_LENGTH;
        assert SignedUnder(s, keys[i + 1], parsed.value);
        assert forall j :: 0 < j < i + 1 ==> keys[j] == rest[j - 1];
      }
      if parsed.Some? && SignedByOne(s, keys, parsed.value) && !SignedUnder(s, keys[0], parsed.value) {
        var i :| 0 <= i < |keys| && SignedUnder(s, keys[i], parsed.value)
            && forall j :: 0 <= j < i ==> |keys[j]| >= MINIMUM_SECRET_LENGTH;
        assert rest[i - 1] == keys[i];
        assert forall j :: 0 <= j < i - 1 ==> rest[j] == keys[j + 1];
      }
    }
  }

  /** A token validates if and only if it is well formed, its MAC verifies under the current or a
      rotated secret, and no secret tried before that one is too short: a secret of fewer than 32
      bytes in the list disables all that follow. */
  lemma ValidatesExactly(s: Settings, token: string)
    ensures Verdict(s, token) == None <==>
            Parsed(s, token).Some? && SignedByOne(s, Keys(s), Parsed(s, token).value)
  {
    if Keys(s) != [] {
      DecideIsExact(s, Keys(s), token);
    }
  }

  lemma {:induction false} MismatchUnderAll(s: Settings, keys: seq<Bytes>, token: string)
    requires keys != []
    ensures Decide(s, keys, token) == Some(TokenSignatureMismatch) <==>
              && Parsed(s, token).Some?
              && forall i :: 0 <= i < |keys| ==>
                   |keys[i]| >= MINIMUM_SECRET_LENGTH && !SignedUnder(s, keys[i], Parsed(s, token).value)
  {
    hide Cut;
    if |keys| > 1 {
      var rest := keys[1..];
      MismatchUnderAll(s, rest, token);
      assert forall i :: 0 <= i < |rest| ==> rest[i] == keys[i + 1];
      assert forall i :: 0 < i < |keys| ==> keys[i] == rest[i - 1];
    }
  }

  /** A signature mismatch is reported if and only if the token is well formed, there are secrets, all of
      them are long enough and it was signed under none of them. */
  lemma MismatchExactly(s: Settings, token: string)
    ensures Verdict(s, token) == Some(TokenSignatureMismatch) <==>
              && Parsed(s, token).Some? && Keys(s) != []
              && forall i :: 0 <= i < |Keys(s)| ==>
                   |Keys(s)[i]| >= MINIMUM_SECRET_LENGTH && !SignedUnder(s, Keys(s)[i], Parsed(s, token).value)
  {
    if Keys(s) != [] {
      MismatchUnderAll(s, Keys(s), token);
    }
  }

  lemma {:induction false} CutConcat(a: string, b: string)
    requires '.' !in a
    ensures Cut(a + "." + b) == Some((a, b))
  {
    var whole := a + "." + b;
    if a == "" {
      assert whole[1..] == b;
    } else {
      CutConcat(a[1..], b);
      assert whole[1..] == a[1..] + "." + b;
      assert a == [a[0]] + a[1..];
    }
  }

  // ---------------------------------------------------------------------------------------
  // Prefixes

  function PrefixOf(t: TokenKind): string {
    match t
    case AccessToken => "pocket_id_at_"
    case RefreshToken => "pocket_id_rt_"
    case AuthorizeCode => "pocket_id_ac_"
    case DeviceCode => "pocket_id_dc_"
  }

  /** Only the prefixed strategy leaves an empty token alone; a generated token is never empty. */
  function SetPrefix(t: TokenKind, token: string): string {
    if token == "" && t != DeviceCode then "" else PrefixOf(t) + token
  }

  function TrimPrefix(t: TokenKind, token: string): string {
    if PrefixOf(t) <= token then token[|PrefixOf(t)|..] else token
  }

  /** What a client is given, and the signature its session is stored under. */
  function Issued(s: Settings, secret: Bytes, t: TokenKind, tokenKey: Bytes): Generated
    requires |secret| >= MINIMUM_SECRET_LENGTH
  {
    var g := Token(s, secret, tokenKey);
    Generated(SetPrefix(t, g.token), g.sig)
  }

  /** The configuration of the grant handlers when tokens are of this kind. */
  function UsingHMAC(cfg: Config, s: Settings): Config {
    cfg.(signature := token => Signature(token),
         mac := (t: TokenKind, token: string) => Verdict(s, TrimPrefix(t, token)))
  }

  lemma NoDotInPrefix(t: TokenKind)
    ensures '.' !in PrefixOf(t)
  {
  }

  lemma SignatureOfConcat(a: string, b: string)
    requires '.' !in a && '.' !in b
    ensures Signature(a + "." + b) == b
  {
    Strings.SplitConcat(a, b, '.');
    Strings.SplitWithout(a, '.');
    Strings.SplitWithout(b, '.');
    assert a + "." + b == a + ['.'] + b;
  }

  lemma PrefixRoundTrip(t: TokenKind, token: string)
    requires token != ""
    ensures SetPrefix(t, token) == PrefixOf(t) + token
    ensures TrimPrefix(t, SetPrefix(t, token)) == token
  {
    var issued := PrefixOf(t) + token;
    assert PrefixOf(t) <= issued && issued[|PrefixOf(t)|..] == token;
  }

  lemma GeneratedParses(s: Settings, secret: Bytes, tokenKey: Bytes)
    requires Lawful(s) && |secret| >= MINIMUM_SECRET_LENGTH && tokenKey != []
    ensures Parsed(s, Token(s, secret, tokenKey).token) == Some((tokenKey, s.mac(tokenKey, Key(secret))))
    ensures Token(s, secret, tokenKey).sig != "" && '.' !in Token(s, secret, tokenKey).sig && '.' !in s.encode(tokenKey)
  {
    hide Cut;
    CutConcat(s.encode(tokenKey), s.encode(s.mac(tokenKey, Key(secret))));
  }

  lemma GeneratedValidates(s: Settings, secret: Bytes, tokenKey: Bytes)
    requires Lawful(s) && |secret| >= MINIMUM_SECRET_LENGTH && tokenKey != []
    requires forall k :: k in Keys(s) ==> |k| >= MINIMUM_SECRET_LENGTH
    requires secret in Keys(s)
    ensures Verdict(s, Token(s, secret, tokenKey).token) == None
  {
    hide Lawful, Verdict, Keys, Parsed, Token;
    GeneratedParses(s, secret, tokenKey);
    var token := Token(s, secret, tokenKey).token;
    var i :| 0 <= i < |Keys(s)| && Keys(s)[i] == secret;
    assert SignedUnder(s, Keys(s)[i], Parsed(s, token).value);
    ValidatesExactly(s, token);
  }

  lemma IssuedSignature(s: Settings, secret: Bytes, t: TokenKind, tokenKey: Bytes)
    requires Lawful(s) && |secret| >= MINIMUM_SECRET_LENGTH && tokenKey != []
    ensures Signature(Issued(s, secret, t, tokenKey).token) == Issued(s, secret, t, tokenKey).sig
  {
    hide Lawful, Parsed, Signature;
    GeneratedParses(s, secret, tokenKey);
    var key, sig := s.encode(tokenKey), Token(s, secret, tokenKey).sig;
    NoDotInPrefix(t);
    SignatureOfConcat(PrefixOf(t) + key, sig);
    assert PrefixOf(t) + (key + "." + sig) == (PrefixOf(t) + key) + "." + sig;
    PrefixRoundTrip(t, key + "." + sig);
  }

  /** A token issued under a secret keeps validating, prefix and all, as long as that secret is the
      current one or among the rotated ones and every listed secret is long enough; and at every
      time the signature taken from the prefixed token is the one its session was stored under. */
  lemma IssuedTokensSurviveRotation(cfg: Config, before: Settings, now: Settings, secret: Bytes, t: TokenKind,
                                    tokenKey: Bytes)
    requires Lawful(now) && now.encode == before.encode && now.decode == before.decode && now.mac == before.mac
    requires |secret| >= MINIMUM_SECRET_LENGTH && tokenKey != []
    requires forall k :: k in Keys(now) ==> |k| >= MINIMUM_SECRET_LENGTH
    requires secret == now.global || secret in now.rotated
    ensures var g := Issued(before, secret, t, tokenKey);
            && UsingHMAC(cfg, now).mac(t, g.token) == None
            && UsingHMAC(cfg, now).signature(g.token) == g.sig
            && g.sig != ""
  {
    hide Lawful, Verdict, Signature, Parsed;
    assert secret in Keys(now);
    assert Issued(before, secret, t, tokenKey) == Issued(now, secret, t, tokenKey);
    GeneratedParses(now, secret, tokenKey);
    GeneratedValidates(now, secret, tokenKey);
    PrefixRoundTrip(t, Token(now, secret, tokenKey).token);
    IssuedSignature(now, secret, t, tokenKey);
  }
}
