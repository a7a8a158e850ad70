/** The pieces of Rust's `str` API that the scaffolding core uses, on
    `string = seq<char>`. Case mapping and character classes are ASCII only. */
module Strings {

  // ---------------------------------------------------------------- chars

  predicate IsUpper(c: char) { 'A' <= c <= 'Z' }

  predicate IsLower(c: char) { 'a' <= c <= 'z' }

  predicate IsDigit(c: char) { '0' <= c <= '9' }

  predicate IsAlphanumeric(c: char) { IsUpper(c) || IsLower(c) || IsDigit(c) }

  function ToUpperChar(c: char): (r: char)
    ensures !IsLower(r)
    ensures IsLower(c) ==> IsUpper(r)
    ensures !IsLower(c) ==> r == c
  {
    if IsLower(c) then (c as int - 32) as char else c
  }

  function ToLowerChar(c: char): (r: char)
    ensures !IsUpper(r)
    ensures IsUpper(c) ==> IsLower(r)
    ensures !IsUpper(c) ==> r == c
  {
    if IsUpper(c) then (c as int + 32) as char else c
  }

  // -------------------------------------------------------------- strings

  function ToLower(s: string): (r: string)
    ensures |r| == |s|
    ensures forall i :: 0 <= i < |s| ==> r[i] == ToLowerChar(s[i])
  {
    if s == [] then [] else [ToLowerChar(s[0])] + ToLower(s[1..])
  }

  lemma {:induction false} ToLowerAppend(a: string, b: string)
    ensures ToLower(a + b) == ToLower(a) + ToLower(b)
  {
    if a != [] {
      assert (a + b)[1..] == a[1..] + b;
      ToLowerAppend(a[1..], b);
    }
  }

  /** Lower-casing twice is lower-casing once. */
  lemma {:induction false} ToLowerIdempotent(s: string)
    ensures ToLower(ToLower(s)) == ToLower(s)
  {
    var t := ToLower(s);
    assert forall i :: 0 <= i < |t| ==> ToLower(t)[i] == t[i];
  }

  predicate NoUpper(s: string) { forall i :: 0 <= i < |s| ==> !IsUpper(s[i]) }

  predicate NoChar(s: string, c: char) { forall i :: 0 <= i < |s| ==> s[i] != c }

  predicate StartsWith(s: string, p: string) { |p| <= |s| && s[..|p|] == p }

  lemma StartsWithConcat(a: string, b: string)
    ensures StartsWith(a + b, a)
  {
    assert (a + b)[..|a|] == a;
  }

  predicate EndsWith(s: string, q: string) { |q| <= |s| && s[|s| - |q|..] == q }

  predicate OccursAt(s: string, t: string, i: int) {
    0 <= i && i + |t| <= |s| && s[i..i + |t|] == t
  }

  /** `str::contains` with a string pattern. */
  predicate Contains(s: string, t: string) {
    exists i | 0 <= i <= |s| :: OccursAt(s, t, i)
  }

  /** A text that ends with `q` contains every prefix of `q`. */
  lemma EndsWithContains(s: string, q: string, t: string)
    requires EndsWith(s, q) && StartsWith(q, t)
    ensures Contains(s, t)
  {
    var i := |s| - |q|;
    assert s[i..i + |t|] == q[..|t|];
    assert OccursAt(s, t, i);
  }

  /** Appending keeps an occurrence and a prefix. */
  lemma AppendKeeps(s: string, u: string, t: string)
    ensures Contains(s, t) ==> Contains(s + u, t)
    ensures StartsWith(s, t) ==> StartsWith(s + u, t)
  {
    if Contains(s, t) {
      var i :| 0 <= i <= |s| && OccursAt(s, t, i);
      assert (s + u)[i..i + |t|] == s[i..i + |t|];
      assert OccursAt(s + u, t, i);
    }
    if StartsWith(s, t) {
      assert (s + u)[..|t|] == s[..|t|];
    }
  }

  /** `s.strip_prefix(p).unwrap_or(s)` */
  function StripPrefixOr(s: string, p: string): (r: string)
    ensures StartsWith(s, p) ==> s == p + r
    ensures !StartsWith(s, p) ==> r == s
  {
    if StartsWith(s, p) then s[|p|..] else s
  }

  /** `s.strip_suffix(q).unwrap_or(s)` */
  function StripSuffixOr(s: string, q: string): (r: string)
    ensures EndsWith(s, q) ==> s == r + q
    ensures !EndsWith(s, q) ==> r == s
  {
    if EndsWith(s, q) then s[..|s| - |q|] else s
  }

  /** `s.replace(a, b)` for single characters `a` and `b`. */
  function ReplaceChar(s: string, a: char, b: char): (r: string)
    ensures |r| == |s|
    ensures forall i :: 0 <= i < |s| ==> r[i] == (if s[i] == a then b else s[i])
  {
    if s == [] then [] else [if s[0] == a then b else s[0]] + ReplaceChar(s[1..], a, b)
  }

  /** `s.replace(cs, "")`: every character in `cs` removed. */
  function RemoveChars(s: string, cs: set<char>): (r: string)
    ensures |r| <= |s|
    ensures forall i :: 0 <= i < |r| ==> r[i] !in cs
    ensures forall i :: 0 <= i < |r| ==> r[i] in s
  {
    if s == [] then []
    else if s[0] in cs then RemoveChars(s[1..], cs)
    else [s[0]] + RemoveChars(s[1..], cs)
  }

  function CountIn(s: string, cs: set<char>): (n: nat)
    ensures n <= |s|
  {
    if s == [] then 0 else (if s[0] in cs then 1 else 0) + CountIn(s[1..], cs)
  }

  function CountUpper(s: string): (n: nat)
    ensures n <= |s|
  {
    if s == [] then 0 else (if IsUpper(s[0]) then 1 else 0) + CountUpper(s[1..])
  }

  /** The text after the last `sep` (all of `s` when `sep` does not occur):
      `s.split(sep).next_back().unwrap()`. */
  function LastSegment(s: string, sep: char): (r: string)
    ensures |r| <= |s| && r == s[|s| - |r|..]
    ensures NoChar(r, sep)
    ensures |r| < |s| ==> s[|s| - |r| - 1] == sep
  {
    if s == [] then []
    else if s[|s| - 1] == sep then []
    else LastSegment(s[..|s| - 1], sep) + [s[|s| - 1]]
  }

  /** A character other than `sep` added at the end extends the last segment. */
  lemma LastSegmentSnoc(s: string, c: char, sep: char)
    requires c != sep
    ensures LastSegment(s + [c], sep) == LastSegment(s, sep) + [c]
  {
    assert (s + [c])[..|s|] == s;
  }

  /** A string without `sep` is its own last segment. */
  lemma {:induction false} LastSegmentOfPlain(b: string, sep: char)
    requires NoChar(b, sep)
    ensures LastSegment(b, sep) == b
  {
    if b != [] {
      LastSegmentOfPlain(b[..|b| - 1], sep);
      assert b == b[..|b| - 1] + [b[|b| - 1]];
    }
  }

  /** The last segment is the part after the final `sep`. */
  lemma {:induction false} LastSegmentAfter(a: string, b: string, sep: char)
    requires NoChar(b, sep)
    ensures LastSegment(a + [sep] + b, sep) == b
  {
    var s := a + [sep] + b;
    if b != [] {
      var b' := b[..|b| - 1];
      assert s[..|s| - 1] == a + [sep] + b';
      LastSegmentAfter(a, b', sep);
      assert b == b' + [b[|b| - 1]];
    }
  }

  /** Whatever precedes a `sep` does not reach the last segment. */
  lemma {:induction false} LastSegmentAfterSep(a: string, b: string, sep: char)
    ensures LastSegment(a + [sep] + b, sep) == LastSegment(b, sep)
  {
    if b != [] {
      var b', c := b[..|b| - 1], b[|b| - 1];
      assert b == b' + [c];
      assert a + [sep] + b == (a + [sep] + b') + [c];
      if c != sep {
        LastSegmentAfterSep(a, b', sep);
        LastSegmentSnoc(a + [sep] + b', c, sep);
        LastSegmentSnoc(b', c, sep);
      }
    }
  }

  /** Text without `sep` added at the end extends the last segment. */
  lemma {:induction false} LastSegmentAppendPlain(s: string, t: string, sep: char)
    requires NoChar(t, sep)
    ensures LastSegment(s + t, sep) == LastSegment(s, sep) + t
  {
    if t != [] {
      var t', c := t[..|t| - 1], t[|t| - 1];
      assert t == t' + [c];
      assert s + t == (s + t') + [c];
      LastSegmentAppendPlain(s, t', sep);
      LastSegmentSnoc(s + t', c, sep);
    } else {
      assert s + t == s;
    }
  }

  /** Number of bytes of the UTF-8 encoding of `s` (Rust's `str::len`). */
  function Utf8Len(s: string): (n: nat)
    ensures n >= |s|
  {
    if s == [] then 0 else Utf8Width(s[0]) + Utf8Len(s[1..])
  }

  function Utf8Width(c: char): (w: nat)
    ensures 1 <= w <= 4
  {
    if c as int < 0x80 then 1
    else if c as int < 0x800 then 2
    else if c as int < 0x1_0000 then 3
    else 4
  }

  predicate IsAscii(s: string) { forall i :: 0 <= i < |s| ==> s[i] as int < 0x80 }

  lemma {:induction false} AsciiUtf8Len(s: string)
    requires IsAscii(s)
    ensures Utf8Len(s) == |s|
  {
    if s != [] {
      assert IsAscii(s[1..]) by {
        forall i | 0 <= i < |s[1..]| ensures s[1..][i] as int < 0x80 { assert s[1..][i] == s[i + 1]; }
      }
      AsciiUtf8Len(s[1..]);
    }
  }

  // ------------------------------------------------------ decimal numbers

  function DigitChar(d: nat): (c: char)
    requires d < 10
    ensures IsDigit(c)
  {
    ('0' as int + d) as char
  }

  /** The decimal rendering of a natural number, as `format!("{}", n)`. */
  function Decimal(n: nat): (r: string)
    ensures |r| >= 1
    ensures forall i :: 0 <= i < |r| ==> IsDigit(r[i])
    decreases n
  {
    if n < 10 then [DigitChar(n)] else Decimal(n / 10) + [DigitChar(n % 10)]
  }

  /** Reads a non-empty string of decimal digits back to its value. */
  function ParseDecimal(s: string): (n: nat)
    requires forall i :: 0 <= i < |s| ==> IsDigit(s[i])
  {
    if s == [] then 0 else ParseDecimal(s[..|s| - 1]) * 10 + DigitValue(s[|s| - 1])
  }

  function DigitValue(c: char): (d: nat)
    requires IsDigit(c)
    ensures d < 10
  {
    c as int - '0' as int
  }

  lemma {:induction false} DecimalRoundTrip(n: nat)
    ensures ParseDecimal(Decimal(n)) == n
    decreases n
  {
    var r := Decimal(n);
    if n >= 10 {
      DecimalRoundTrip(n / 10);
      assert r[..|r| - 1] == Decimal(n / 10);
    }
  }
}
