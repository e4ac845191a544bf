// Version strings (LWJGL backend).  GL_VERSION and GL_SHADING_LANGUAGE_VERSION
// are parsed by stripping an "OpenGL ES " prefix (or "OpenGL ES GLSL ES "),
// splitting the rest with a StringTokenizer on '.', and splitting the second
// token again on ' '.  The strings glGetString returns are parameters.

module Versions {
  import opened Wrappers

  datatype Api = ApiES | ApiFull

  /** JCGLVersion: the parsed number, the API and the whole string. */
  datatype Version = Version(major: int, minor: int, api: Api, text: string)

  /** JCGLSLVersion: either the fixed GLSL ES 1.00 constant or a version made
      from a parsed number. */
  datatype ShadingVersion =
    | GLSLES100
    | MadeVersion(major: int, minor: int, api: Api, text: string)

  predicate StartsWith(s: string, prefix: string)
  {
    |prefix| <= |s| && s[..|prefix|] == prefix
  }

  /** String.contains. */
  predicate Contains(s: string, part: string)
  {
    exists i :: 0 <= i <= |s| && StartsWith(s[i..], part)
  }

  const ES_PREFIX: string := "OpenGL ES "
  const SL_ES_PREFIX: string := "OpenGL ES GLSL ES "

  /** metaVersionIsES. */
  function VersionIsES(v: string): (r: bool)
    ensures r <==> |v| >= 9 && v[..9] == "OpenGL ES"
  {
    StartsWith(v, "OpenGL ES")
  }

  /** replaceFirst with an anchored literal pattern: the prefix is removed
      once when present, and the string is left alone otherwise. */
  function StripPrefix(v: string, prefix: string): (r: string)
    ensures StartsWith(v, prefix) ==> v == prefix + r
    ensures !StartsWith(v, prefix) ==> r == v
  {
    if StartsWith(v, prefix) then
      assert v == v[..|prefix|] + v[|prefix|..];
      v[|prefix|..]
    else v
  }

  // StringTokenizer with a single delimiter character.

  predicate NoDelimiter(s: string, d: char)
  {
    forall i :: 0 <= i < |s| ==> s[i] != d
  }

  /** The length of the run of non-delimiter characters `s` starts with. */
  function RunLength(s: string, d: char): (k: nat)
    ensures k <= |s|
    ensures NoDelimiter(s[..k], d)
    ensures k < |s| ==> s[k] == d
  {
    if |s| == 0 || s[0] == d then 0
    else
      var k := 1 + RunLength(s[1..], d);
      assert s[..k] == [s[0]] + s[1..][..k - 1];
      k
  }

  /** The tokens successive nextToken calls return: maximal non-empty runs of
      non-delimiter characters, in order. */
  function Tokens(s: string, d: char): (ts: seq<string>)
    ensures forall i :: 0 <= i < |ts| ==> |ts[i]| > 0 && NoDelimiter(ts[i], d)
    decreases |s|
  {
    if |s| == 0 then []
    else if s[0] == d then Tokens(s[1..], d)
    else
      var k := RunLength(s, d);
      [s[..k]] + Tokens(s[k..], d)
  }

  /** The tokens joined with one delimiter between neighbours. */
  function JoinTokens(ts: seq<string>, d: char): string
  {
    if |ts| == 0 then []
    else if |ts| == 1 then ts[0]
    else ts[0] + [d] + JoinTokens(ts[1..], d)
  }

  lemma RunLengthOfToken(a: string, rest: string, d: char)
    requires NoDelimiter(a, d)
    requires rest == [] || rest[0] == d
    ensures RunLength(a + rest, d) == |a|
    decreases |a|
  {
    if |a| > 0 {
      assert (a + rest)[1..] == a[1..] + rest;
      RunLengthOfToken(a[1..], rest, d);
    }
  }

  /** A token followed by a delimiter, or by nothing, is the first token. */
  lemma {:induction false} TokensHead(a: string, rest: string, d: char)
    requires |a| > 0 && NoDelimiter(a, d)
    requires rest == [] || rest[0] == d
    ensures Tokens(a + rest, d) == [a] + Tokens(rest, d)
  {
    var s := a + rest;
    RunLengthOfToken(a, rest, d);
    assert s[0] == a[0];
    assert s[..|a|] == a;
    assert s[|a|..] == rest;
  }

  /** Tokenising joined tokens gives them back. */
  lemma {:induction false} TokensJoin(ts: seq<string>, d: char)
    requires forall i :: 0 <= i < |ts| ==> |ts[i]| > 0 && NoDelimiter(ts[i], d)
    ensures Tokens(JoinTokens(ts, d), d) == ts
  {
    if |ts| == 1 {
      TokensHead(ts[0], [], d);
      assert ts[0] + [] == ts[0];
    } else if |ts| > 1 {
      var tail := JoinTokens(ts[1..], d);
      assert JoinTokens(ts, d) == ts[0] + ([d] + tail);
      TokensHead(ts[0], [d] + tail, d);
      assert ([d] + tail)[1..] == tail;
      TokensJoin(ts[1..], d);
      assert ts == [ts[0]] + ts[1..];
    }
  }

  // Integer.valueOf on decimal text.

  predicate IsDigit(c: char)
  {
    '0' <= c <= '9'
  }

  predicate AllDigits(s: string)
  {
    forall i :: 0 <= i < |s| ==> IsDigit(s[i])
  }

  function DigitsValue(s: string): (n: nat)
    requires AllDigits(s)
  {
    if |s| == 0 then 0 else DigitsValue(s[..|s| - 1]) * 10 + (s[|s| - 1] - '0') as int
  }

  /** The decimal digits of a natural number, without leading zeros. */
  function Show(n: nat): (s: string)
    ensures |s| > 0 && AllDigits(s)
  {
    if n < 10 then [('0' as int + n) as char]
    else Show(n / 10) + [('0' as int + n % 10) as char]
  }

  /** Integer.valueOf: an optional '-' or '+' followed by at least one
      decimal digit, whose value is an int; anything else throws
      NumberFormatException. */
  function ParseInt(s: string): (r: Result<int>)
    ensures r.Ok? ==> INT_MIN <= r.value <= INT_MAX
    ensures r.Err? ==> r.error == NumberFormat
    ensures r.Ok? ==> |s| > 0
  {
    if |s| == 0 then Err(NumberFormat)
    else
      var signed := s[0] == '-' || s[0] == '+';
      var digits := if signed then s[1..] else s;
      if |digits| == 0 || !AllDigits(digits) then Err(NumberFormat)
      else
        var v: int := DigitsValue(digits);
        var n := if s[0] == '-' then -v else v;
        if n < INT_MIN || INT_MAX < n then Err(NumberFormat) else Ok(n)
  }

  lemma {:induction false} ShowValue(n: nat)
    ensures DigitsValue(Show(n)) == n
  {
    if n >= 10 {
      var s := Show(n);
      assert s[..|s| - 1] == Show(n / 10);
      ShowValue(n / 10);
    }
  }

  /** Integer.valueOf reads back the decimal text of every int. */
  lemma ParseShow(n: int)
    requires INT_MIN <= n <= INT_MAX
    ensures n >= 0 ==> ParseInt(Show(n)) == Ok(n)
    ensures n < 0 ==> ParseInt("-" + Show(-n)) == Ok(n)
  {
    if n >= 0 {
      ShowValue(n);
    } else {
      ShowValue(-n);
      assert ("-" + Show(-n))[1..] == Show(-n);
    }
  }

  /** metaParseVersion / metaParseSLVersion: strip the prefix, take the first
      '.'-token as the major number and the first ' '-token of the second
      '.'-token as the minor number.  A missing token is a
      NoSuchElementException; a token that is not an int a
      NumberFormatException, the major number being parsed first. */
  function ParseVersionWith(v0: string, prefix: string): (r: Result<(int, int)>)
    ensures r.Ok? ==> |Tokens(StripPrefix(v0, prefix), '.')| >= 2
    ensures r.Ok? ==> ParseInt(Tokens(StripPrefix(v0, prefix), '.')[0]) == Ok(r.value.0)
    ensures |Tokens(StripPrefix(v0, prefix), '.')| < 2 ==> r == Err(NoSuchElement)
  {
    var v1 := StripPrefix(v0, prefix);
    var tdot := Tokens(v1, '.');
    if |tdot| < 2 then Err(NoSuchElement)
    else
      var tspa := Tokens(tdot[1], ' ');
      if |tspa| == 0 then Err(NoSuchElement)
      else
        var major := ParseInt(tdot[0]);
        var minor := ParseInt(tspa[0]);
        if major.Err? then Err(major.error)
        else if minor.Err? then Err(minor.error)
        else Ok((major.value, minor.value))
  }

  /** metaParseVersion. */
  function ParseVersion(v0: string): (r: Result<(int, int)>)
    ensures r == ParseVersionWith(v0, ES_PREFIX)
  {
    ParseVersionWith(v0, ES_PREFIX)
  }

  /** metaParseSLVersion. */
  function ParseSLVersion(v0: string): (r: Result<(int, int)>)
    ensures r == ParseVersionWith(v0, SL_ES_PREFIX)
  {
    ParseVersionWith(v0, SL_ES_PREFIX)
  }

  /** The text after the minor number: empty, or a space and anything. */
  predicate IsVendorSuffix(s: string)
  {
    s == [] || s[0] == ' '
  }

  /** "<a>.<b><vendor>" splits into the '.'-tokens a and b-with-the-vendor
      text up to its first '.', and the latter's first ' '-token is b. */
  lemma {:induction false} NumberTokens(a: string, b: string, vendor: string)
    requires |a| > 0 && NoDelimiter(a, '.')
    requires |b| > 0 && NoDelimiter(b, '.') && NoDelimiter(b, ' ')
    requires IsVendorSuffix(vendor)
    ensures |Tokens(a + "." + b + vendor, '.')| >= 2
    ensures Tokens(a + "." + b + vendor, '.')[0] == a
    ensures |Tokens(Tokens(a + "." + b + vendor, '.')[1], ' ')| >= 1
    ensures Tokens(Tokens(a + "." + b + vendor, '.')[1], ' ')[0] == b
  {
    var x := b + vendor;
    var core := a + "." + b + vendor;
    assert core == a + ("." + x);
    TokensHead(a, "." + x, '.');
    assert ("." + x)[1..] == x;
    var second := FirstTokenExtends(b, vendor);
    assert Tokens(core, '.') == [a] + Tokens(x, '.');
    assert Tokens(x, '.')[0] == second;
    TokensHead(b, second[|b|..], ' ');
    assert second == b + second[|b|..];
  }

  /** The first '.'-token of b followed by the vendor text is b extended by
      vendor text that starts with a space, if it is longer. */
  lemma FirstTokenExtends(b: string, vendor: string) returns (second: string)
    requires |b| > 0 && NoDelimiter(b, '.')
    requires IsVendorSuffix(vendor)
    ensures |Tokens(b + vendor, '.')| >= 1 && Tokens(b + vendor, '.')[0] == second
    ensures |b| <= |second| && second[..|b|] == b
    ensures second[|b|..] == [] || second[|b|..][0] == ' '
  {
    var x := b + vendor;
    var k := RunLength(x, '.');
    RunLengthAtLeast(b, vendor, '.');
    second := x[..k];
    assert x == second + x[k..];
    TokensHead(second, x[k..], '.');
    assert second[..|b|] == b;
    if k > |b| {
      assert second[|b|..][0] == vendor[0];
    }
  }

  /** The prefix is removed when present and nothing is removed from text
      that starts with a digit. */
  lemma StripToCore(prefix: string, withPrefix: bool, core: string)
    requires |prefix| > 0 && prefix[0] == 'O'
    requires |core| > 0 && IsDigit(core[0])
    ensures StripPrefix((if withPrefix then prefix else "") + core, prefix) == core
  {
    var v0 := (if withPrefix then prefix else "") + core;
    if withPrefix {
      assert v0[..|prefix|] == prefix;
      assert v0[|prefix|..] == core;
    } else {
      assert v0 == core;
      assert v0[0] != prefix[0];
    }
  }

  /** Integer.valueOf of plain decimal digits is their value. */
  lemma ParseDigits(digits: string)
    requires |digits| > 0 && AllDigits(digits) && DigitsValue(digits) <= INT_MAX
    ensures ParseInt(digits) == Ok(DigitsValue(digits))
  {
    assert IsDigit(digits[0]);
  }

  predicate IsNumberText(s: string)
  {
    |s| > 0 && AllDigits(s) && DigitsValue(s) <= INT_MAX
  }

  lemma DigitsHaveNoSeparators(s: string)
    requires AllDigits(s)
    ensures NoDelimiter(s, '.') && NoDelimiter(s, ' ')
  {
    assert forall i :: 0 <= i < |s| ==> IsDigit(s[i]);
  }

  /** The parse, once the prefix is gone, of text whose '.'-tokens and
      ' '-tokens start with two decimal numbers. */
  lemma ParseOfTokens(v0: string, prefix: string, a: string, b: string)
    requires IsNumberText(a) && IsNumberText(b)
    requires |Tokens(StripPrefix(v0, prefix), '.')| >= 2
    requires Tokens(StripPrefix(v0, prefix), '.')[0] == a
    requires |Tokens(Tokens(StripPrefix(v0, prefix), '.')[1], ' ')| >= 1
    requires Tokens(Tokens(StripPrefix(v0, prefix), '.')[1], ' ')[0] == b
    ensures ParseVersionWith(v0, prefix) == Ok((DigitsValue(a), DigitsValue(b)))
  {
    ParseDigits(a);
    ParseDigits(b);
  }

  /** "<a>.<b>" followed by vendor text, with or without the prefix, parses
      to the values of the digit strings a and b, whatever '.'s the vendor
      text holds. */
  lemma ParseVersionWithOfDigits(v0: string, prefix: string, withPrefix: bool, a: string, b: string, vendor: string)
    requires IsNumberText(a) && IsNumberText(b)
    requires |prefix| > 0 && prefix[0] == 'O'
    requires IsVendorSuffix(vendor)
    requires v0 == (if withPrefix then prefix else "") + (a + "." + b + vendor)
    ensures ParseVersionWith(v0, prefix) == Ok((DigitsValue(a), DigitsValue(b)))
  {
    var core := a + "." + b + vendor;
    DigitsHaveNoSeparators(a);
    DigitsHaveNoSeparators(b);
    assert core[0] == a[0];
    StripToCore(prefix, withPrefix, core);
    NumberTokens(a, b, vendor);
    ParseOfTokens(v0, prefix, a, b);
  }

  /** The decimal texts of two ints followed by vendor text, with or without
      the prefix, parse back to the two ints. */
  lemma ParseVersionWithOfNumbers(prefix: string, withPrefix: bool, major: nat, minor: nat, vendor: string)
    requires major <= INT_MAX && minor <= INT_MAX
    requires |prefix| > 0 && prefix[0] == 'O'
    requires IsVendorSuffix(vendor)
    ensures ParseVersionWith((if withPrefix then prefix else "") + (Show(major) + "." + Show(minor) + vendor), prefix)
            == Ok((major, minor))
  {
    ShowValue(major);
    ShowValue(minor);
    var v0 := (if withPrefix then prefix else "") + (Show(major) + "." + Show(minor) + vendor);
    ParseVersionWithOfDigits(v0, prefix, withPrefix, Show(major), Show(minor), vendor);
  }

  lemma RunLengthAtLeast(a: string, rest: string, d: char)
    requires NoDelimiter(a, d)
    ensures RunLength(a + rest, d) >= |a|
    decreases |a|
  {
    if |a| > 0 {
      assert (a + rest)[1..] == a[1..] + rest;
      RunLengthAtLeast(a[1..], rest, d);
    }
  }

  /** "3.0" followed by vendor text parses as 3.0, with or without the
      prefix. */
  lemma ParseThreeZero(v0: string, withPrefix: bool, three: string, zero: string, vendor: string)
    requires three == "3" && zero == "0" && IsVendorSuffix(vendor)
    requires v0 == (if withPrefix then ES_PREFIX else "") + (three + "." + zero + vendor)
    ensures ParseVersion(v0) == Ok((3, 0))
  {
    assert DigitsValue(three) == 3 && DigitsValue(zero) == 0;
    ParseVersionWithOfDigits(v0, ES_PREFIX, withPrefix, three, zero, vendor);
  }

  /** The GL_VERSION string of an OpenGL ES 3.0 context on Mesa 9.1 parses as
      3.0 ... */
  lemma ParseMesaVersion(prefixed: string)
    requires prefixed == "OpenGL ES 3.0 Mesa 9.1.0"
    ensures ParseVersion(prefixed) == Ok((3, 0))
  {
    var three, zero, vendor := "3", "0", " Mesa 9.1.0";
    assert prefixed == ES_PREFIX + (three + "." + zero + vendor);
    ParseThreeZero(prefixed, true, three, zero, vendor);
  }

  /** ... and so does the same string without the ES prefix. */
  lemma ParseMesaVersionBare(bare: string)
    requires bare == "3.0 Mesa 9.1.0"
    ensures ParseVersion(bare) == Ok((3, 0))
  {
    var three, zero, vendor := "3", "0", " Mesa 9.1.0";
    assert bare == "" + (three + "." + zero + vendor);
    ParseThreeZero(bare, false, three, zero, vendor);
  }

  /** metaGetVersion: the parsed GL_VERSION, its API and the whole string. */
  function GetVersion(x: string): (r: Result<Version>)
    ensures r.Ok? <==> ParseVersion(x).Ok?
    ensures r.Ok? ==> r.value.text == x
    ensures r.Ok? ==> (r.value.api == ApiES <==> VersionIsES(x))
    ensures r.Ok? ==> (r.value.major, r.value.minor) == ParseVersion(x).value
  {
    var p := ParseVersion(x);
    if p.Err? then Err(p.error)
    else Ok(Version(p.value.0, p.value.1, if VersionIsES(x) then ApiES else ApiFull, x))
  }

  /** The Mesa 9.1 quirk: an ES 3 context whose GL_VERSION mentions
      "Mesa 9.1." claims GLSL ES 3.00 support it does not have. */
  predicate MesaQuirk(sl: string, v: Version)
  {
    v.major == 3 && VersionIsES(sl) && Contains(v.text, "Mesa 9.1.")
  }

  /** metaGetSLVersion: GLSL ES 1.00 under the quirk, otherwise the parsed
      GL_SHADING_LANGUAGE_VERSION with the API that string names. */
  function GetSLVersion(sl: string, glVersion: string): (r: Result<ShadingVersion>)
    ensures GetVersion(glVersion).Err? ==> r == Err(GetVersion(glVersion).error)
    ensures r == Ok(GLSLES100) <==> GetVersion(glVersion).Ok? && MesaQuirk(sl, GetVersion(glVersion).value)
    ensures GetVersion(glVersion).Ok? && !MesaQuirk(sl, GetVersion(glVersion).value) ==>
              (r.Ok? <==> ParseSLVersion(sl).Ok?)
    ensures r.Ok? && r.value.MadeVersion? ==>
              (r.value.major, r.value.minor) == ParseSLVersion(sl).value
              && r.value.text == sl
              && (r.value.api == ApiES <==> VersionIsES(sl))
  {
    var isES := VersionIsES(sl);
    var v := GetVersion(glVersion);
    if v.Err? then Err(v.error)
    else if v.value.major == 3 && isES && Contains(v.value.text, "Mesa 9.1.") then Ok(GLSLES100)
    else
      var p := ParseSLVersion(sl);
      if p.Err? then Err(p.error)
      else Ok(MadeVersion(p.value.0, p.value.1, if isES then ApiES else ApiFull, sl))
  }

  /** The quirk fires exactly on the strings it was written for. */
  lemma MesaQuirkApplies(sl: string, glVersion: string)
    requires GetVersion(glVersion) == Ok(Version(3, 0, ApiES, glVersion))
    requires |glVersion| >= 14
    requires StartsWith(sl, "OpenGL ES") && StartsWith(glVersion[14..], "Mesa 9.1.")
    ensures GetSLVersion(sl, glVersion) == Ok(GLSLES100)
  {
  }

  /** The GLSL ES 3.00 string parses as 3.0. */
  lemma ParseGLSLES300(sl: string)
    requires sl == "OpenGL ES GLSL ES 3.00"
    ensures ParseSLVersion(sl) == Ok((3, 0))
  {
    var three, zeros, empty := "3", "00", "";
    assert DigitsValue(three) == 3 && DigitsValue(zeros) == 0;
    assert sl == SL_ES_PREFIX + (three + "." + zeros + empty);
    ParseVersionWithOfDigits(sl, SL_ES_PREFIX, true, three, zeros, empty);
  }

  /** On Mesa 9.1 an ES 3.0 context is downgraded to GLSL ES 1.00 even though
      its shading language string would parse as 3.00. */
  lemma MesaDowngrade(sl: string, glVersion: string)
    requires sl == "OpenGL ES GLSL ES 3.00" && glVersion == "OpenGL ES 3.0 Mesa 9.1.0"
    ensures ParseSLVersion(sl) == Ok((3, 0))
    ensures GetSLVersion(sl, glVersion) == Ok(GLSLES100)
  {
    ParseGLSLES300(sl);
    ParseMesaVersion(glVersion);
    assert glVersion[..9] == "OpenGL ES";
    assert StartsWith(glVersion[14..], "Mesa 9.1.");
    assert sl[..9] == "OpenGL ES";
    MesaQuirkApplies(sl, glVersion);
  }
}
