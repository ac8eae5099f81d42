/**
  The input validators of the security module: pattern and test-string
  length limits, regular-expression flags, extension messages, licence keys
  and external link targets.
*/
module Security {
  import opened Js

  /** The `{ valid, error }` records the validators return. */
  datatype Validation = Valid | Invalid(error: string)

  const PatternLimit: nat := 10000
  const TestStringLimit: nat := 100000

  /** `validatePattern`. Compiling the pattern is the host's regular-expression
      engine, passed in as `compile`: the error message it throws, or `None`
      when the pattern compiles. */
  function ValidatePattern(pattern: Value, compile: string -> Option<string>): (r: Validation)
    ensures pattern.NotString? ==> r == Invalid("Pattern must be a string")
    ensures pattern.Str? && |pattern.s| > PatternLimit ==> r == Invalid("Pattern too long (max 10,000 chars)")
    ensures r.Valid? <==> pattern.Str? && |pattern.s| <= PatternLimit && compile(pattern.s).None?
  {
    match pattern
    case NotString => Invalid("Pattern must be a string")
    case Str(s) =>
      if |s| > PatternLimit then Invalid("Pattern too long (max 10,000 chars)")
      else
        match compile(s)
        case None => Valid
        case Some(e) => Invalid(e)
  }

  /** A pattern over the limit is refused whatever the engine would say: the
      length check comes before compilation. */
  lemma LongPatternNeverCompiled(s: string, c1: string -> Option<string>, c2: string -> Option<string>)
    requires |s| > PatternLimit
    ensures ValidatePattern(Str(s), c1) == ValidatePattern(Str(s), c2)
  {
  }

  /** `validateTestString` */
  function ValidateTestString(str: Value): (r: Validation)
    ensures r.Valid? <==> str.Str? && |str.s| <= TestStringLimit
    ensures str.NotString? ==> r == Invalid("Test string must be a string")
    ensures str.Str? && !r.Valid? ==> r == Invalid("Test string too long (max 100,000 chars)")
  {
    match str
    case NotString => Invalid("Test string must be a string")
    case Str(s) =>
      if |s| > TestStringLimit then Invalid("Test string too long (max 100,000 chars)") else Valid
  }

  // ---------------------------------------------------------------------------
  // Flags

  const FlagLetters: set<char> := {'g', 'i', 'm', 's', 'u', 'y', 'd'}

  /** The characters of `s` as a set: `new Set(s.split(''))`. */
  function Elements(s: string): set<char> {
    set i | 0 <= i < |s| :: s[i]
  }

  predicate NoRepeats(s: string) {
    forall i, j | 0 <= i < j < |s| :: s[i] != s[j]
  }

  lemma ElementsCons(s: string)
    requires s != []
    ensures Elements(s) == {s[0]} + Elements(s[1..])
  {
    forall c | c in Elements(s) ensures c in {s[0]} + Elements(s[1..]) {
      var i :| 0 <= i < |s| && s[i] == c;
      if i > 0 {
        assert s[1..][i - 1] == c;
      }
    }
    forall c | c in Elements(s[1..]) ensures c in Elements(s) {
      var i :| 0 <= i < |s[1..]| && s[1..][i] == c;
      assert s[i + 1] == c;
    }
  }

  lemma ElementsBound(s: string)
    ensures |Elements(s)| <= |s|
  {
    if s != [] {
      ElementsCons(s);
      ElementsBound(s[1..]);
    }
  }

  /** The duplicate test by set size is the same as asking for two equal
      characters at different positions. */
  lemma {:induction false} DistinctIffNoRepeats(s: string)
    ensures |Elements(s)| == |s| <==> NoRepeats(s)
    decreases |s|
  {
    if s != [] {
      var t := s[1..];
      ElementsCons(s);
      DistinctIffNoRepeats(t);
      ElementsBound(t);
      if s[0] in Elements(t) {
        var i :| 0 <= i < |t| && t[i] == s[0];
        assert s[i + 1] == s[0];
        assert |Elements(s)| < |s|;
      } else {
        assert |Elements(s)| == 1 + |Elements(t)|;
        if NoRepeats(t) {
          forall i, j | 0 <= i < j < |s| ensures s[i] != s[j] {
            if i == 0 {
              assert s[j] == t[j - 1];
            } else {
              assert s[i] == t[i - 1] && s[j] == t[j - 1];
            }
          }
        } else {
          var i, j :| 0 <= i < j < |t| && t[i] == t[j];
          assert s[i + 1] == s[j + 1];
        }
      }
    }
  }

  /** `validateFlags`: the first character that is no flag letter is
      reported; only when every character is a flag letter are duplicates
      looked for. */
  method ValidateFlags(flags: string) returns (r: Validation)
    ensures r.Valid? <==> (forall k | 0 <= k < |flags| :: flags[k] in FlagLetters) && NoRepeats(flags)
    ensures (exists k | 0 <= k < |flags| :: flags[k] !in FlagLetters) ==>
      exists k | 0 <= k < |flags| ::
        && flags[k] !in FlagLetters
        && (forall j | 0 <= j < k :: flags[j] in FlagLetters)
        && r == Invalid("Invalid flag: " + [flags[k]])
    ensures (forall k | 0 <= k < |flags| :: flags[k] in FlagLetters) && !NoRepeats(flags) ==>
      r == Invalid("Duplicate flags")
  {
    var n := 0;
    while n < |flags|
      invariant n <= |flags|
      invariant forall j | 0 <= j < n :: flags[j] in FlagLetters
    {
      if flags[n] !in FlagLetters {
        return Invalid("Invalid flag: " + [flags[n]]);
      }
      n := n + 1;
    }
    DistinctIffNoRepeats(flags);
    if |Elements(flags)| != |flags| {
      return Invalid("Duplicate flags");
    }
    return Valid;
  }

  // ---------------------------------------------------------------------------
  // Messages

  /** A message as the extension receives it: anything that is not a non-null
      object, or an object with its `action` property (a missing property is
      `NotString`). */
  datatype Message = NotObject | Object(action: Value)

  const ActionLimit: nat := 100

  /** `validateMessage` */
  function ValidateMessage(m: Message): (r: bool)
    ensures r <==> m.Object? && m.action.Str? && 0 < |m.action.s| <= ActionLimit
  {
    match m
    case NotObject => false
    case Object(action) =>
      match action
      case NotString => false
      case Str(a) => a != "" && |a| <= ActionLimit
  }

  // ---------------------------------------------------------------------------
  // Licence keys

  /** The characters `String.prototype.trim` removes: white space (including
      the space separators) and line terminators. */
  predicate IsJsSpace(c: char) {
    || c == '\t' || c == '\n' || c == '\U{000B}' || c == '\U{000C}' || c == '\r' || c == ' '
    || c == '\U{00A0}' || c == '\U{1680}' || ('\U{2000}' <= c <= '\U{200A}')
    || c == '\U{2028}' || c == '\U{2029}' || c == '\U{202F}' || c == '\U{205F}'
    || c == '\U{3000}' || c == '\U{FEFF}'
  }

  function TrimStart(s: string): (r: string)
    ensures |r| <= |s| && r == s[|s| - |r|..]
    ensures r == [] || !IsJsSpace(r[0])
    ensures forall i | 0 <= i < |s| - |r| :: IsJsSpace(s[i])
  {
    if s != [] && IsJsSpace(s[0]) then TrimStart(s[1..]) else s
  }

  function TrimEnd(s: string): (r: string)
    ensures |r| <= |s| && r == s[..|r|]
    ensures r == [] || !IsJsSpace(r[|r| - 1])
    ensures forall i | |r| <= i < |s| :: IsJsSpace(s[i])
  {
    if s != [] && IsJsSpace(s[|s| - 1]) then TrimEnd(s[..|s| - 1]) else s
  }

  /** How many characters `TrimStart` removes. */
  function Leading(s: string): (n: nat)
    ensures n <= |s|
  {
    |s| - |TrimStart(s)|
  }

  lemma SpacesShift(s: string, a: nat, m: nat)
    requires a + m <= |s| && forall j | m <= j < |s| - a :: IsJsSpace(s[a..][j])
    ensures forall i | a + m <= i < |s| :: IsJsSpace(s[i])
  {
    forall i | a + m <= i < |s| ensures IsJsSpace(s[i]) {
      assert s[i] == s[a..][i - a];
    }
  }

  /** `s.trim()`: a stretch of the input with only white space removed
      around it and none left at either end. */
  function Trim(s: string): (r: string)
    ensures r == [] || (!IsJsSpace(r[0]) && !IsJsSpace(r[|r| - 1]))
    ensures Leading(s) + |r| <= |s| && r == s[Leading(s)..Leading(s) + |r|]
    ensures forall i | 0 <= i < Leading(s) :: IsJsSpace(s[i])
    ensures forall i | Leading(s) + |r| <= i < |s| :: IsJsSpace(s[i])
  {
    var u := TrimStart(s);
    var r := TrimEnd(u);
    SpacesShift(s, |s| - |u|, |r|);
    r
  }

  lemma TrimIdempotent(s: string)
    ensures Trim(Trim(s)) == Trim(s)
  {
    var t := Trim(s);
    if t != [] {
      assert TrimStart(t) == t;
      assert TrimEnd(t) == t;
    }
  }

  /** `[A-Z0-9-]` under the case-insensitive flag. */
  predicate IsKeyChar(c: char) {
    IsAsciiUpper(c) || IsAsciiLower(c) || IsDigit(c) || c == '-'
  }

  const KeyMin: nat := 10
  const KeyMax: nat := 50

  /** A run of white space, as `trim` removes it. */
  predicate IsPadding(s: string) {
    forall i | 0 <= i < |s| :: IsJsSpace(s[i])
  }

  /** What `[A-Z0-9-]{10,50}` matches under the case-insensitive flag. */
  predicate IsKeyBody(k: string) {
    KeyMin <= |k| <= KeyMax && forall i | 0 <= i < |k| :: IsKeyChar(k[i])
  }

  /** `validateLicenseKey`: after trimming, 10 to 50 key characters. An
      accepted key is a string of at least 10 characters whose trimmed form
      is 10 to 50 key characters and so holds no white space. */
  function ValidateLicenseKey(key: Value): (r: bool)
    ensures r ==> key.Str? && KeyMin <= |key.s|
    ensures r ==> KeyMin <= |Trim(key.s)| <= KeyMax && forall i | 0 <= i < |Trim(key.s)| :: IsKeyChar(Trim(key.s)[i])
    ensures r ==> forall i | 0 <= i < |Trim(key.s)| :: !IsJsSpace(Trim(key.s)[i])
  {
    match key
    case NotString => false
    case Str(s) =>
      var t := Trim(s);
      var ok := KeyMin <= |t| <= KeyMax && forall i | 0 <= i < |t| :: IsKeyChar(t[i]);
      KeyCharsNotSpace(t);
      ok
  }

  /** A key character is never white space. */
  lemma KeyCharsNotSpace(t: string)
    ensures (forall i | 0 <= i < |t| :: IsKeyChar(t[i])) ==> forall i | 0 <= i < |t| :: !IsJsSpace(t[i])
  {
    if forall i | 0 <= i < |t| :: IsKeyChar(t[i]) {
      forall i | 0 <= i < |t| ensures !IsJsSpace(t[i]) {
        assert IsKeyChar(t[i]);
      }
    }
  }

  /** White space around a well-formed key is ignored. */
  lemma LicenseKeyPadding(pad1: string, key: string, pad2: string)
    requires forall i | 0 <= i < |pad1| :: IsJsSpace(pad1[i])
    requires forall i | 0 <= i < |pad2| :: IsJsSpace(pad2[i])
    requires KeyMin <= |key| <= KeyMax && forall i | 0 <= i < |key| :: IsKeyChar(key[i])
    ensures ValidateLicenseKey(Str(pad1 + key + pad2))
  {
    TrimPadded(pad1, key, pad2);
  }

  /** A string is accepted exactly when it is a key body with white space
      around it. */
  lemma LicenseKeyIff(s: string)
    ensures ValidateLicenseKey(Str(s)) <==>
      exists p1, k, p2 | IsPadding(p1) && IsPadding(p2) && IsKeyBody(k) :: s == p1 + k + p2
  {
    if ValidateLicenseKey(Str(s)) {
      var p1, p2 := TrimSplit(s);
      assert IsKeyBody(Trim(s));
    }
    if exists p1, k, p2 | IsPadding(p1) && IsPadding(p2) && IsKeyBody(k) :: s == p1 + k + p2 {
      var p1, k, p2 :| IsPadding(p1) && IsPadding(p2) && IsKeyBody(k) && s == p1 + k + p2;
      LicenseKeyPadding(p1, k, p2);
    }
  }

  /** Every string is its trimmed form with white space around it. */
  lemma TrimSplit(s: string) returns (p1: string, p2: string)
    ensures IsPadding(p1) && IsPadding(p2) && s == p1 + Trim(s) + p2
  {
    var t, n := Trim(s), Leading(s);
    SplitAround(s, n, |t|);
    p1, p2 := s[..n], s[n + |t|..];
  }

  /** Cutting out a middle stretch whose surroundings are white space. */
  lemma SplitAround(s: string, n: nat, m: nat)
    requires n + m <= |s|
    requires forall i | 0 <= i < n :: IsJsSpace(s[i])
    requires forall i | n + m <= i < |s| :: IsJsSpace(s[i])
    ensures IsPadding(s[..n]) && IsPadding(s[n + m..])
    ensures s == s[..n] + s[n..n + m] + s[n + m..]
  {
    var tail := s[n + m..];
    forall i | 0 <= i < |tail| ensures IsJsSpace(tail[i]) {
      assert tail[i] == s[n + m + i];
    }
  }

  /** A key with white space inside it is refused. */
  lemma InnerSpaceRefused(a: string, c: char, b: string)
    requires IsJsSpace(c) && a != [] && b != [] && !IsJsSpace(a[0]) && !IsJsSpace(b[|b| - 1])
    ensures !ValidateLicenseKey(Str(a + [c] + b))
  {
    var s := a + [c] + b;
    var t := Trim(s);
    assert s[0] == a[0] && s[|s| - 1] == b[|b| - 1];
    assert Leading(s) == 0;
    assert |t| == |s|;
    assert t[|a|] == c;
  }

  /** Trimming a string of non-space key characters padded with white space
      gives the string back. */
  lemma TrimPadded(pad1: string, key: string, pad2: string)
    requires forall i | 0 <= i < |pad1| :: IsJsSpace(pad1[i])
    requires forall i | 0 <= i < |pad2| :: IsJsSpace(pad2[i])
    requires key != [] && !IsJsSpace(key[0]) && !IsJsSpace(key[|key| - 1])
    ensures Trim(pad1 + key + pad2) == key
  {
    var s := pad1 + key + pad2;
    StartSkips(pad1, key + pad2);
    assert s == pad1 + (key + pad2);
    EndSkips(key, pad2);
  }

  lemma {:induction false} StartSkips(pad: string, rest: string)
    requires forall i | 0 <= i < |pad| :: IsJsSpace(pad[i])
    requires rest != [] && !IsJsSpace(rest[0])
    ensures TrimStart(pad + rest) == rest
    decreases |pad|
  {
    if pad == [] {
      assert pad + rest == rest;
    } else {
      assert (pad + rest)[1..] == pad[1..] + rest;
      StartSkips(pad[1..], rest);
    }
  }

  lemma {:induction false} EndSkips(rest: string, pad: string)
    requires forall i | 0 <= i < |pad| :: IsJsSpace(pad[i])
    requires rest != [] && !IsJsSpace(rest[|rest| - 1])
    ensures TrimEnd(rest + pad) == rest
    decreases |pad|
  {
    if pad == [] {
      assert rest + pad == rest;
    } else {
      var s := rest + pad;
      assert s[..|s| - 1] == rest + pad[..|pad| - 1];
      EndSkips(rest, pad[..|pad| - 1]);
    }
  }

  // ---------------------------------------------------------------------------
  // External links

  const ZovoPrefix: string := "https://zovo.one"
  const WebStorePrefix: string := "https://chrome.google.com/webstore"

  /** `isAllowedURL`: a plain prefix test against the two allowed prefixes. */
  function IsAllowedURL(url: string): (r: bool)
    ensures r <==> exists rest :: url == ZovoPrefix + rest || url == WebStorePrefix + rest
  {
    if StartsWith(url, ZovoPrefix) then
      assert url == ZovoPrefix + url[|ZovoPrefix|..];
      true
    else if StartsWith(url, WebStorePrefix) then
      assert url == WebStorePrefix + url[|WebStorePrefix|..];
      true
    else
      assert forall rest :: (ZovoPrefix + rest)[..|ZovoPrefix|] == ZovoPrefix;
      assert forall rest :: (WebStorePrefix + rest)[..|WebStorePrefix|] == WebStorePrefix;
      false
  }

  /** The test does not look at the host's end: any continuation of an
      allowed prefix passes, `https://zovo.one.x` included. */
  lemma LongerHostAllowed(rest: string)
    ensures IsAllowedURL(ZovoPrefix + rest)
    ensures IsAllowedURL("https://zovo.one.x")
  {
    assert "https://zovo.one.x" == ZovoPrefix + ".x";
  }
}
