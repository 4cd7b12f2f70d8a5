/** String helpers with the semantics of the JavaScript built-ins the source uses:
    `split(c)[0]`, `trim()`, `toLowerCase()` on ASCII, `parseInt(s, 10)` and the
    decimal form of an integer in a template string. */
module Text {
  import opened Wrappers

  /** `s.split(c)[0]`: the part of `s` before the first `c`, or all of `s`. */
  function BeforeFirst(s: string, c: char): (r: string)
    ensures c !in r
    ensures |r| <= |s| && r == s[..|r|]
    ensures c !in s ==> r == s
    ensures c in s ==> |r| < |s| && s[|r|] == c
  {
    if s == [] then []
    else if s[0] == c then []
    else [s[0]] + BeforeFirst(s[1..], c)
  }

  /** A string with no `c` before the `c` that starts the tail is cut exactly there. */
  lemma {:induction false} BeforeFirstOfJoin(a: string, c: char, b: string)
    requires c !in a
    ensures BeforeFirst(a + [c] + b, c) == a
  {
    if a != [] {
      assert (a + [c] + b)[1..] == a[1..] + [c] + b;
      BeforeFirstOfJoin(a[1..], c, b);
    }
  }

  /** The characters `String.prototype.trim` removes: WhiteSpace and
      LineTerminator of section 12.2 and 12.3 of ECMA-262. */
  predicate IsJsSpace(c: char)
  {
    c == '\t' || c == '\n' || c == '\U{000B}' || c == '\U{000C}' || c == '\r' || c == ' '
    || c == '\U{00A0}' || c == '\U{1680}' || ('\U{2000}' <= c <= '\U{200A}')
    || c == '\U{2028}' || c == '\U{2029}' || c == '\U{202F}' || c == '\U{205F}'
    || c == '\U{3000}' || c == '\U{FEFF}'
  }

  /** The longest suffix of `s` that does not start with a `space`
      character: only `space` characters are cut from the front. */
  function TrimStartBy(s: string, space: char -> bool): (r: string)
    ensures |r| <= |s| && r == s[|s| - |r|..]
    ensures forall k :: 0 <= k < |s| - |r| ==> space(s[k])
    ensures r == [] || !space(r[0])
  {
    if s != [] && space(s[0]) then
      var r := TrimStartBy(s[1..], space);
      assert forall k :: 1 <= k < |s| - |r| ==> s[k] == s[1..][k - 1];
      r
    else s
  }

  /** The longest prefix of `s` that does not end with a `space` character:
      only `space` characters are cut from the back. */
  function TrimEndBy(s: string, space: char -> bool): (r: string)
    ensures |r| <= |s| && r == s[..|r|]
    ensures forall k :: |r| <= k < |s| ==> space(s[k])
    ensures r == [] || !space(r[|r| - 1])
  {
    if s != [] && space(s[|s| - 1]) then
      var r := TrimEndBy(s[..|s| - 1], space);
      assert forall k :: |r| <= k < |s| - 1 ==> s[k] == s[..|s| - 1][k];
      r
    else s
  }

  /** Both ends cut: a contiguous piece of `s`, with only `space` characters
      cut on either side, neither of whose ends is a `space` character. */
  function TrimBy(s: string, space: char -> bool): (r: string)
    ensures var i := |s| - |TrimStartBy(s, space)|;
      i + |r| <= |s| && r == s[i..i + |r|]
      && (forall k :: 0 <= k < i ==> space(s[k]))
      && (forall k :: i + |r| <= k < |s| ==> space(s[k]))
    ensures r == [] || (!space(r[0]) && !space(r[|r| - 1]))
  {
    var t := TrimStartBy(s, space);
    var r := TrimEndBy(t, space);
    TrimmedPiece(s, t, r, space);
    r
  }

  /** A prefix `r` of a suffix `t` of `s`, where only `space` characters were
      cut each time and neither cut stopped at a `space`, is a slice of `s`
      with only `space` characters around it and none at either end. */
  lemma TrimmedPiece(s: string, t: string, r: string, space: char -> bool)
    requires |t| <= |s| && t == s[|s| - |t|..]
    requires forall k :: 0 <= k < |s| - |t| ==> space(s[k])
    requires t == [] || !space(t[0])
    requires |r| <= |t| && r == t[..|r|]
    requires forall k :: |r| <= k < |t| ==> space(t[k])
    requires r == [] || !space(r[|r| - 1])
    ensures var i := |s| - |t|;
      i + |r| <= |s| && r == s[i..i + |r|]
      && (forall k :: 0 <= k < i ==> space(s[k]))
      && (forall k :: i + |r| <= k < |s| ==> space(s[k]))
    ensures r == [] || (!space(r[0]) && !space(r[|r| - 1]))
  {
    var i := |s| - |t|;
    forall k | i + |r| <= k < |s| ensures space(s[k]) {
      assert s[k] == t[k - i];
    }
    if r != [] {
      assert r[0] == t[0];
    }
  }

  /** `trimStart()`. */
  function TrimStart(s: string): string
  {
    TrimStartBy(s, IsJsSpace)
  }

  /** `trimEnd()`. */
  function TrimEnd(s: string): string
  {
    TrimEndBy(s, IsJsSpace)
  }

  /** `trim()`: a contiguous piece of `s` with only spaces cut on either side,
      neither of whose ends is a space. */
  function Trim(s: string): (r: string)
    ensures var i := |s| - |TrimStart(s)|;
      i + |r| <= |s| && r == s[i..i + |r|]
      && (forall k :: 0 <= k < i ==> IsJsSpace(s[k]))
      && (forall k :: i + |r| <= k < |s| ==> IsJsSpace(s[k]))
    ensures r == [] || (!IsJsSpace(r[0]) && !IsJsSpace(r[|r| - 1]))
  {
    TrimBy(s, IsJsSpace)
  }

  /** ASCII `toLowerCase()` of one character. */
  function LowerChar(c: char): char
  {
    if 'A' <= c <= 'Z' then (c as int + 32) as char else c
  }

  /** `toLowerCase()`, ASCII letters only. */
  function AsciiLower(s: string): (r: string)
    ensures |r| == |s|
  {
    seq(|s|, i requires 0 <= i < |s| => LowerChar(s[i]))
  }

  /** Case-insensitive equality of ASCII strings (the `i` flag of a regular
      expression whose pattern is ASCII). */
  predicate EqualsIgnoreCase(a: string, b: string)
  {
    AsciiLower(a) == AsciiLower(b)
  }

  predicate IsDigit(c: char)
  {
    '0' <= c <= '9'
  }

  function DigitChar(d: nat): (c: char)
    requires d < 10
    ensures IsDigit(c) && c as int - '0' as int == d
  {
    ('0' as int + d) as char
  }

  /** The decimal digits of `n`, most significant first, without leading zeros. */
  function NatToString(n: nat): (r: string)
    ensures |r| >= 1
    ensures forall k :: 0 <= k < |r| ==> IsDigit(r[k])
    decreases n
  {
    if n < 10 then [DigitChar(n)] else NatToString(n / 10) + [DigitChar(n % 10)]
  }

  /** An integer in a template string (`${n}`). */
  function IntToString(n: int): (r: string)
    ensures |r| >= 1
    ensures forall k :: 0 <= k < |r| ==> IsDigit(r[k]) || (k == 0 && r[k] == '-')
  {
    if n < 0 then "-" + NatToString(-n) else NatToString(n)
  }

  /** The decimal form of an integer holds no path separator and no query mark. */
  lemma IntToStringPlain(n: int)
    ensures '/' !in IntToString(n) && '?' !in IntToString(n)
  {
    var r := IntToString(n);
    forall k | 0 <= k < |r| ensures r[k] != '/' && r[k] != '?' {
    }
  }

  /** The longest prefix of `s` made of decimal digits. */
  function LeadingDigits(s: string): (r: string)
    ensures |r| <= |s| && r == s[..|r|]
    ensures forall k :: 0 <= k < |r| ==> IsDigit(r[k])
    ensures |r| < |s| ==> !IsDigit(s[|r|])
  {
    if s != [] && IsDigit(s[0]) then [s[0]] + LeadingDigits(s[1..]) else []
  }

  /** The value of a string of decimal digits. */
  function DigitsValue(d: string): nat
    requires forall k :: 0 <= k < |d| ==> IsDigit(d[k])
  {
    if d == [] then 0
    else
      var last := d[|d| - 1];
      assert IsDigit(last);
      DigitsValue(d[..|d| - 1]) * 10 + (last as int - '0' as int)
  }

  /** `parseInt(s, 10)`: `None` is `NaN`. Leading spaces are skipped, one sign
      is read, then the longest run of digits. */
  function ParseInt10(s: string): (r: Option<int>)
    ensures r.None? <==> LeadingDigits(UnsignedPart(TrimStart(s))) == []
  {
    var t := TrimStart(s);
    var d := LeadingDigits(UnsignedPart(t));
    if d == [] then None
    else
      var v: int := DigitsValue(d);
      Some(if t[0] == '-' then -v else v)
  }

  /** What follows an optional leading `+` or `-`. */
  function UnsignedPart(t: string): string
  {
    if t != [] && (t[0] == '-' || t[0] == '+') then t[1..] else t
  }

  lemma {:induction false} DigitsOfNat(n: nat)
    ensures LeadingDigits(NatToString(n)) == NatToString(n)
    ensures DigitsValue(NatToString(n)) == n
    decreases n
  {
    var r := NatToString(n);
    LeadingDigitsOfDigits(r);
    if n >= 10 {
      DigitsOfNat(n / 10);
      assert r[..|r| - 1] == NatToString(n / 10);
    }
  }

  lemma {:induction false} LeadingDigitsOfDigits(d: string)
    requires forall k :: 0 <= k < |d| ==> IsDigit(d[k])
    ensures LeadingDigits(d) == d
  {
    if d != [] {
      LeadingDigitsOfDigits(d[1..]);
    }
  }

  /** `parseInt(String(n), 10) == n`: the decimal form reads back as the integer. */
  lemma ParseIntOfIntToString(n: int)
    ensures ParseInt10(IntToString(n)) == Some(n)
  {
    var s := IntToString(n);
    assert !IsJsSpace(s[0]);
    assert TrimStart(s) == s;
    DigitsOfNat(if n < 0 then -n else n);
    if n < 0 {
      assert UnsignedPart(s) == NatToString(-n);
    } else {
      assert UnsignedPart(s) == NatToString(n);
    }
  }
}

/** Configuration lookup with the default of `ConfigService.get(key, default)`:
    the default is used only when the key is absent. */
module Config {
  type Config = map<string, string>

  function GetOr(config: Config, key: string, default: string): (r: string)
    ensures key in config ==> r == config[key]
    ensures key !in config ==> r == default
  {
    if key in config then config[key] else default
  }
}
