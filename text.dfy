/**
 * Python string operations the core relies on, stated over `string`
 * (a sequence of Unicode scalar values): `strip`, `lower`, `title`,
 * `split`, `startswith`, `in`, `int(...)` and decimal rendering.
 */
module Text {

  datatype Option<T> = None | Some(value: T)

  /** The characters Python's `str.isspace` accepts, which `strip()` removes. */
  predicate IsSpace(c: char) {
    c == ' ' || ('\t' <= c <= '\r') || ('\U{1C}' <= c <= '\U{1F}')
    || c == '\U{85}' || c == '\U{A0}' || c == '\U{1680}'
    || ('\U{2000}' <= c <= '\U{200A}') || c == '\U{2028}' || c == '\U{2029}'
    || c == '\U{202F}' || c == '\U{205F}' || c == '\U{3000}'
  }

  predicate IsBlank(s: string) {
    forall i :: 0 <= i < |s| ==> IsSpace(s[i])
  }

  /** `s.lstrip()` */
  function LStrip(s: string): (r: string)
    ensures |r| <= |s| && r == s[|s| - |r|..]
    ensures r == [] || !IsSpace(r[0])
    decreases |s|
  {
    if s != [] && IsSpace(s[0]) then LStrip(s[1..]) else s
  }

  /** `s.rstrip()` */
  function RStrip(s: string): (r: string)
    ensures |r| <= |s| && r == s[..|r|]
    ensures r == [] || !IsSpace(r[|r| - 1])
    decreases |s|
  {
    if s != [] && IsSpace(s[|s| - 1]) then RStrip(s[..|s| - 1]) else s
  }

  /** `s.strip()`: `s` without its leading and trailing whitespace. */
  function Strip(s: string): (r: string)
    ensures |r| <= |s|
    ensures r == [] || (!IsSpace(r[0]) && !IsSpace(r[|r| - 1]))
  {
    var l := LStrip(s);
    var r := RStrip(l);
    assert r != [] ==> r[0] == l[0];
    r
  }

  lemma {:induction false} LStripEmptyIffBlank(s: string)
    ensures LStrip(s) == [] <==> IsBlank(s)
    decreases |s|
  {
    if s != [] {
      LStripEmptyIffBlank(s[1..]);
      if IsSpace(s[0]) {
        assert IsBlank(s) <==> IsBlank(s[1..]) by {
          if IsBlank(s[1..]) {
            forall k | 0 <= k < |s| ensures IsSpace(s[k]) {
              if k > 0 { assert s[k] == s[1..][k - 1]; }
            }
          }
        }
      }
    }
  }

  lemma {:induction false} RStripEmptyIffBlank(s: string)
    ensures RStrip(s) == [] <==> IsBlank(s)
    decreases |s|
  {
    if s != [] {
      var p := s[..|s| - 1];
      RStripEmptyIffBlank(p);
      if IsSpace(s[|s| - 1]) {
        assert IsBlank(s) <==> IsBlank(p) by {
          if IsBlank(p) {
            forall k | 0 <= k < |s| ensures IsSpace(s[k]) {
              if k < |s| - 1 { assert s[k] == p[k]; }
            }
          }
        }
      }
    }
  }

  /** Stripping leaves nothing exactly when every character is whitespace. */
  lemma StripEmptyIffBlank(s: string)
    ensures Strip(s) == [] <==> IsBlank(s)
  {
    var l := LStrip(s);
    LStripEmptyIffBlank(s);
    RStripEmptyIffBlank(l);
    if l != [] {
      assert !IsBlank(l) by { assert !IsSpace(l[0]); }
    }
  }

  /** ASCII upper-case letters to lower case; everything else unchanged. */
  function LowerChar(c: char): char {
    if 'A' <= c <= 'Z' then (c as int + 32) as char else c
  }

  function UpperChar(c: char): char {
    if 'a' <= c <= 'z' then (c as int - 32) as char else c
  }

  predicate IsCased(c: char) {
    ('a' <= c <= 'z') || ('A' <= c <= 'Z')
  }

  /** `s.lower()` */
  function Lower(s: string): (r: string)
    ensures |r| == |s| && forall i :: 0 <= i < |s| ==> r[i] == LowerChar(s[i])
  {
    seq(|s|, i requires 0 <= i < |s| => LowerChar(s[i]))
  }

  /** `s.title()`: a cased character that follows a cased character is lowered,
      any other cased character is raised. */
  function Title(s: string): (r: string)
    ensures |r| == |s|
    ensures forall i :: 0 <= i < |s| ==>
              r[i] == if i > 0 && IsCased(s[i - 1]) then LowerChar(s[i]) else UpperChar(s[i])
  {
    seq(|s|, i requires 0 <= i < |s| =>
      if i > 0 && IsCased(s[i - 1]) then LowerChar(s[i]) else UpperChar(s[i]))
  }

  predicate StartsWith(s: string, p: string) {
    |p| <= |s| && s[..|p|] == p
  }

  predicate EndsWith(s: string, p: string) {
    |p| <= |s| && s[|s| - |p|..] == p
  }

  /** `sub in s` */
  predicate Contains(s: string, sub: string)
    decreases |s|
  {
    StartsWith(s, sub) || (s != [] && Contains(s[1..], sub))
  }

  /** Index of the first occurrence of `c` in `s`, if any. */
  function IndexOf(s: string, c: char): (r: Option<nat>)
    ensures r.None? <==> c !in s
    ensures r.Some? ==> r.value < |s| && s[r.value] == c && c !in s[..r.value]
  {
    if s == [] then None
    else if s[0] == c then Some(0)
    else match IndexOf(s[1..], c)
      case None => None
      case Some(k) => assert s[1..][..k] == s[1..k + 1]; Some(k + 1)
  }

  /** `s.split(sep)` for a one-character separator. */
  function Split(s: string, sep: char): (r: seq<string>)
    ensures |r| >= 1
    ensures forall k :: 0 <= k < |r| ==> sep !in r[k]
    decreases |s|
  {
    match IndexOf(s, sep)
    case None => [s]
    case Some(i) => [s[..i]] + Split(s[i + 1..], sep)
  }

  /** `sep.join(parts)` for a one-character separator. */
  function Join(parts: seq<string>, sep: char): string {
    if |parts| <= 1 then (if parts == [] then "" else parts[0])
    else parts[0] + [sep] + Join(parts[1..], sep)
  }

  lemma {:induction false} JoinSplit(s: string, sep: char)
    ensures Join(Split(s, sep), sep) == s
    decreases |s|
  {
    match IndexOf(s, sep)
    case None =>
    case Some(i) =>
      var rest := Split(s[i + 1..], sep);
      var parts := [s[..i]] + rest;
      assert Split(s, sep) == parts;
      assert Join(parts, sep) == s[..i] + [sep] + Join(rest, sep) by {
        assert parts[0] == s[..i] && parts[1..] == rest && |parts| >= 2;
      }
      JoinSplit(s[i + 1..], sep);
      assert s[..i] + [sep] + s[i + 1..] == s by {
        assert s[i] == sep;
      }
  }

  /** Splitting at the first separator: the part before it, then the rest split. */
  lemma SplitAtFirst(a: string, sep: char, b: string)
    requires sep !in a
    ensures Split(a + [sep] + b, sep) == [a] + Split(b, sep)
  {
    var s := a + [sep] + b;
    assert s[|a|] == sep;
    assert s[..|a|] == a;
    assert sep !in s[..|a|];
    assert IndexOf(s, sep) == Some(|a|);
    assert s[|a| + 1..] == b;
  }

  /** Concatenation regroups freely. */
  lemma AppendAssoc<T>(a: seq<T>, b: seq<T>, c: seq<T>)
    ensures a + (b + c) == (a + b) + c
  {
  }

  /** Adjacent slices join into one. */
  lemma SliceJoin<T>(s: seq<T>, a: nat, b: nat)
    requires a <= b <= |s|
    ensures s[a..b] + s[b..] == s[a..]
  {
  }

  lemma SplitNoSeparator(a: string, sep: char)
    requires sep !in a
    ensures Split(a, sep) == [a]
  {
  }

  // ---------------------------------------------------------------------
  // Decimal integers
  // ---------------------------------------------------------------------

  predicate IsDigit(c: char) { '0' <= c <= '9' }

  predicate AllDigits(s: string) { forall i :: 0 <= i < |s| ==> IsDigit(s[i]) }

  function DigitChar(d: nat): char
    requires d < 10
  {
    ('0' as int + d) as char
  }

  function DigitsValue(s: string): nat
    requires AllDigits(s)
  {
    if s == [] then 0 else DigitsValue(s[..|s| - 1]) * 10 + (s[|s| - 1] as int - '0' as int)
  }

  /** `str(n)` for a non-negative integer: shortest decimal digits. */
  function NatToString(n: nat): (r: string)
    ensures |r| >= 1 && AllDigits(r)
    ensures |r| > 1 ==> r[0] != '0'
  {
    if n < 10 then [DigitChar(n)] else NatToString(n / 10) + [DigitChar(n % 10)]
  }

  /** `str(i)` for any integer. */
  function IntToString(i: int): string {
    if i < 0 then "-" + NatToString(-i) else NatToString(i)
  }

  /** `f"{n:02d}"` for a non-negative integer. */
  function Pad2(n: nat): (r: string)
    ensures |r| >= 2 && AllDigits(r)
  {
    if n < 10 then "0" + NatToString(n) else NatToString(n)
  }

  lemma {:induction false} NatToStringValue(n: nat)
    ensures DigitsValue(NatToString(n)) == n
  {
    if n >= 10 {
      NatToStringValue(n / 10);
      var s := NatToString(n);
      assert s[..|s| - 1] == NatToString(n / 10);
    }
  }

  lemma Pad2Value(n: nat)
    ensures DigitsValue(Pad2(n)) == n
  {
    NatToStringValue(n);
    if n < 10 {
      var s := Pad2(n);
      assert s[..|s| - 1] == "0";
    }
  }

  /** The digits of `body` once the single underscores Python allows between
      digits are removed; None when `body` is not such a literal. */
  function IntBody(body: string): (r: Option<string>)
    ensures r.Some? ==> AllDigits(r.value) && |r.value| >= 1
    decreases |body|
  {
    if body == [] || !IsDigit(body[0]) then None
    else if |body| == 1 then Some(body)
    else if body[1] == '_' then
      (if |body| >= 3 && IsDigit(body[2]) then
         match IntBody(body[2..])
         case None => None
         case Some(rest) => Some([body[0]] + rest)
       else None)
    else
      match IntBody(body[1..])
      case None => None
      case Some(rest) => Some([body[0]] + rest)
  }

  /** An unsigned literal: its digits' value, None when malformed. */
  function ParseUnsigned(body: string): (r: Option<nat>)
    ensures r.Some? <==> IntBody(body).Some?
  {
    match IntBody(body)
    case None => None
    case Some(ds) => Some(DigitsValue(ds))
  }

  /** An optionally signed literal with no surrounding whitespace. */
  function ParseSigned(t: string): (r: Option<int>)
    ensures t == [] ==> r.None?
  {
    if t == [] then None
    else if t[0] == '-' then
      (match ParseUnsigned(t[1..]) case None => None case Some(v) => var w: int := v; Some(-w))
    else if t[0] == '+' then
      (match ParseUnsigned(t[1..]) case None => None case Some(v) => Some(v))
    else
      (match ParseUnsigned(t) case None => None case Some(v) => Some(v))
  }

  /** `int(s)` on a string: None where Python raises ValueError. */
  function ParseInt(s: string): (r: Option<int>)
    ensures IsBlank(s) ==> r.None?
  {
    StripEmptyIffBlank(s);
    ParseSigned(Strip(s))
  }

  lemma {:induction false} IntBodyOfDigits(s: string)
    requires AllDigits(s) && |s| >= 1
    ensures IntBody(s) == Some(s)
  {
    if |s| > 1 {
      IntBodyOfDigits(s[1..]);
      assert [s[0]] + s[1..] == s;
    }
  }

  lemma StripUnchanged(s: string)
    requires s == [] || (!IsSpace(s[0]) && !IsSpace(s[|s| - 1]))
    ensures Strip(s) == s
  {
    assert LStrip(s) == s;
  }

  lemma StripDigits(s: string)
    requires AllDigits(s) && |s| >= 1
    ensures Strip(s) == s
  {
    assert IsDigit(s[0]) && IsDigit(s[|s| - 1]);
    StripUnchanged(s);
  }

  lemma ParseSignedDigits(s: string)
    requires AllDigits(s) && |s| >= 1
    ensures ParseSigned(s) == Some(DigitsValue(s))
  {
    IntBodyOfDigits(s);
    assert ParseUnsigned(s) == Some(DigitsValue(s));
    assert IsDigit(s[0]);
  }

  lemma ParseIntOfDigits(s: string)
    requires AllDigits(s) && |s| >= 1
    ensures ParseInt(s) == Some(DigitsValue(s))
  {
    StripDigits(s);
    ParseSignedDigits(s);
  }

  /** `int(str(n)) == n`. */
  lemma ParseIntOfNat(n: nat)
    ensures ParseInt(NatToString(n)) == Some(n)
  {
    ParseIntOfDigits(NatToString(n));
    NatToStringValue(n);
  }
}
