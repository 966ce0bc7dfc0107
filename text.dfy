/**
  The few Python `str` operations the core relies on, over `seq<char>`:
  `str.isspace`, `str.strip`, `str.upper` (ASCII letters) and `str(int)`.
 */
module Text {

  /** Python's `str.isspace()` for one character (the Unicode whitespace characters). */
  predicate IsSpace(c: char) {
    c == ' ' || ('\t' <= c <= '\r') || ('\U{1C}' <= c <= '\U{1F}')
    || c == '\U{85}' || c == '\U{A0}' || c == '\U{1680}'
    || ('\U{2000}' <= c <= '\U{200A}') || c == '\U{2028}' || c == '\U{2029}'
    || c == '\U{202F}' || c == '\U{205F}' || c == '\U{3000}'
  }

  predicate AllSpace(s: string) {
    forall i :: 0 <= i < |s| ==> IsSpace(s[i])
  }

  /** `s.lstrip()`: drop the leading whitespace. */
  function LStrip(s: string): (r: string)
    ensures |r| <= |s| && r == s[|s| - |r|..]
    ensures AllSpace(s[..|s| - |r|])
    ensures r == [] || !IsSpace(r[0])
  {
    if s != [] && IsSpace(s[0]) then
      var t := LStrip(s[1..]);
      assert s[..|s| - |t|] == [s[0]] + s[1..][..|s[1..]| - |t|];
      t
    else s
  }

  /** `s.rstrip()`: drop the trailing whitespace. */
  function RStrip(s: string): (r: string)
    ensures |r| <= |s| && r == s[..|r|]
    ensures AllSpace(s[|r|..])
    ensures r == [] || !IsSpace(r[|r| - 1])
  {
    if s != [] && IsSpace(s[|s| - 1]) then
      var t := RStrip(s[..|s| - 1]);
      assert s[|t|..] == s[..|s| - 1][|t|..] + [s[|s| - 1]];
      t
    else s
  }

  /** `s.strip()`. */
  function Strip(s: string): (r: string)
  {
    RStrip(LStrip(s))
  }

  /**
    `r` is `s[i..j]`, what is left of `s` once its leading and trailing
    whitespace is removed: whitespace on both sides of the slice, and no
    whitespace at either end of it.
   */
  predicate TrimsAt(s: string, r: string, i: int, j: int) {
    0 <= i <= j <= |s| && r == s[i..j]
    && AllSpace(s[..i]) && AllSpace(s[j..])
    && (r == [] || (!IsSpace(r[0]) && !IsSpace(r[|r| - 1])))
  }

  /** `r` is the trimmed form of `s`. */
  ghost predicate Trims(s: string, r: string) {
    exists i, j :: TrimsAt(s, r, i, j)
  }

  /** `Strip` meets the description of a trimmed string. */
  lemma StripTrims(s: string)
    ensures Trims(s, Strip(s))
  {
    var l := LStrip(s);
    var r := RStrip(l);
    TrimsFromStrips(s, l, r);
    assert TrimsAt(s, r, |s| - |l|, |s| - |l| + |r|);
  }

  /** What `lstrip` then `rstrip` promise makes their result a trimmed form. */
  lemma TrimsFromStrips(s: string, l: string, r: string)
    requires |l| <= |s| && l == s[|s| - |l|..] && AllSpace(s[..|s| - |l|]) && (l == [] || !IsSpace(l[0]))
    requires |r| <= |l| && r == l[..|r|] && AllSpace(l[|r|..]) && (r == [] || !IsSpace(r[|r| - 1]))
    ensures TrimsAt(s, r, |s| - |l|, |s| - |l| + |r|)
  {
    var i := |s| - |l|;
    var j := i + |r|;
    assert r == s[i..j];
    assert l[|r|..] == s[j..];
    assert r != [] ==> r[0] == l[0];
  }

  /** Past `i` leading whitespace characters and at a non-space one (or the end), `lstrip` stops. */
  lemma {:induction false} LStripStopsAt(s: string, i: nat)
    requires i <= |s| && AllSpace(s[..i])
    requires i == |s| || !IsSpace(s[i])
    ensures LStrip(s) == s[i..]
  {
    if i > 0 {
      assert s[1..][..i - 1] == s[..i][1..];
      assert s[0] == s[..i][0];
      LStripStopsAt(s[1..], i - 1);
      assert s[1..][i - 1..] == s[i..];
    }
  }

  /** Before whitespace from `m` on and after a non-space character (or the start), `rstrip` stops. */
  lemma {:induction false} RStripStopsAt(s: string, m: nat)
    requires m <= |s| && AllSpace(s[m..])
    requires m == 0 || !IsSpace(s[m - 1])
    ensures RStrip(s) == s[..m]
  {
    if m < |s| {
      var t := s[..|s| - 1];
      assert t[m..] == s[m..][..|s| - 1 - m];
      assert s[|s| - 1] == s[m..][|s| - 1 - m];
      RStripStopsAt(t, m);
      assert t[..m] == s[..m];
    }
  }

  /** `strip()` leaves nothing exactly when the string is all whitespace. */
  lemma StripEmptyIffAllSpace(s: string)
    ensures Strip(s) == [] <==> AllSpace(s)
  {
    var l := LStrip(s);
    if Strip(s) == [] {
      assert l[0..] == l;
      assert l == [];
      assert s[..|s|] == s;
    }
    if AllSpace(s) {
      assert s[..|s|] == s;
      LStripStopsAt(s, |s|);
    }
  }

  /** Any trimmed form of `s` is `Strip(s)`: with `StripTrims`, `Trims` defines `strip()`. */
  lemma TrimsIsStrip(s: string, r: string)
    requires Trims(s, r)
    ensures r == Strip(s)
  {
    var i, j :| TrimsAt(s, r, i, j);
    SliceIsStrip(s, i, j);
  }

  /** The slice between whitespace-only ends, with no whitespace at its own ends, is `Strip(s)`. */
  lemma SliceIsStrip(s: string, i: nat, j: nat)
    requires i <= j <= |s| && AllSpace(s[..i]) && AllSpace(s[j..])
    requires i == j || (!IsSpace(s[i]) && !IsSpace(s[j - 1]))
    ensures s[i..j] == Strip(s)
  {
    if i == j {
      SpacesAroundEmptySlice(s, i);
      StripEmptyIffAllSpace(s);
    } else {
      NonEmptySliceIsStrip(s, i, j);
    }
  }

  lemma NonEmptySliceIsStrip(s: string, i: nat, j: nat)
    requires i < j <= |s| && AllSpace(s[..i]) && AllSpace(s[j..])
    requires !IsSpace(s[i]) && !IsSpace(s[j - 1])
    ensures s[i..j] == Strip(s)
  {
    var t := s[i..];
    LStripStopsAt(s, i);
    assert LStrip(s) == t;
    assert t[j - i..] == s[j..];
    assert t[j - i - 1] == s[j - 1];
    RStripStopsAt(t, j - i);
    assert Strip(s) == RStrip(t) == t[..j - i];
    assert t[..j - i] == s[i..j];
  }

  /** Whitespace before and from `i` on is whitespace everywhere. */
  lemma SpacesAroundEmptySlice(s: string, i: nat)
    requires i <= |s| && AllSpace(s[..i]) && AllSpace(s[i..])
    ensures AllSpace(s)
  {
    forall k | 0 <= k < |s| ensures IsSpace(s[k]) {
      if k < i { assert s[..i][k] == s[k]; } else { assert s[i..][k - i] == s[k]; }
    }
  }

  /** Python's `c.upper()` on ASCII letters; every other character is kept. */
  function UpperChar(c: char): char {
    if 'a' <= c <= 'z' then (c as int - 32) as char else c
  }

  /** `s.upper()`, letter by letter. */
  function Upper(s: string): (r: string)
    ensures |r| == |s|
    ensures forall i :: 0 <= i < |s| ==> r[i] == UpperChar(s[i])
  {
    if s == [] then [] else [UpperChar(s[0])] + Upper(s[1..])
  }

  /** The decimal digit `d` as a character. */
  function DigitChar(d: nat): (c: char)
    requires d < 10
    ensures '0' <= c <= '9' && c as int - '0' as int == d
  {
    (d + '0' as int) as char
  }

  predicate IsDigits(s: string) {
    forall i :: 0 <= i < |s| ==> '0' <= s[i] <= '9'
  }

  /** `str(n)` for a natural number: decimal, without leading zeros. */
  function NatToString(n: nat): (r: string)
    ensures |r| >= 1 && IsDigits(r)
    ensures |r| > 1 ==> r[0] != '0'
  {
    if n < 10 then [DigitChar(n)] else NatToString(n / 10) + [DigitChar(n % 10)]
  }

  /** The value of a non-empty string of decimal digits. */
  function ParseNat(s: string): nat
    requires |s| >= 1 && IsDigits(s)
  {
    var d := s[|s| - 1] as int - '0' as int;
    if |s| == 1 then d else ParseNat(s[..|s| - 1]) * 10 + d
  }

  /** Reading back the decimal rendering of `n` gives `n`. */
  lemma {:induction false} ParseNatToString(n: nat)
    ensures ParseNat(NatToString(n)) == n
  {
    if n >= 10 {
      var r := NatToString(n);
      assert r[..|r| - 1] == NatToString(n / 10);
      ParseNatToString(n / 10);
    }
  }

  /** `str(i)` for any Python `int`: a minus sign before the digits of a negative number. */
  function IntToString(i: int): (r: string)
    ensures |r| >= 1
    ensures (r[0] == '-') <==> i < 0
  {
    if i < 0 then "-" + NatToString(-i) else NatToString(i)
  }

  /** Different integers are rendered differently. */
  lemma IntToStringInjective(a: int, b: int)
    requires IntToString(a) == IntToString(b)
    ensures a == b
  {
    if a < 0 {
      assert b < 0;
      NegativeDigits(a);
      NegativeDigits(b);
      ParseNatToString(-a);
      ParseNatToString(-b);
    } else {
      assert b >= 0;
      ParseNatToString(a);
      ParseNatToString(b);
    }
  }

  /** After its minus sign, a negative number is rendered as its magnitude. */
  lemma NegativeDigits(i: int)
    requires i < 0
    ensures IntToString(i)[1..] == NatToString(-i)
  {
    assert IntToString(i) == "-" + NatToString(-i);
  }
}
