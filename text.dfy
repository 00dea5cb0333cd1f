/** String helpers the editor uses, restricted to ASCII: `toLowerCase`,
    `toUpperCase`, `includes`, the `/\s+/g` replacement behind category slugs,
    and the decimal rendering of a non-negative integer. */
module Text {

  predicate IsAsciiUpper(c: char) { 'A' <= c <= 'Z' }

  predicate IsAsciiLower(c: char) { 'a' <= c <= 'z' }

  predicate IsDigit(c: char) { '0' <= c <= '9' }

  /** A character of the regular-expression class `\w`. */
  predicate IsWordChar(c: char) { IsAsciiUpper(c) || IsAsciiLower(c) || IsDigit(c) || c == '_' }

  /** A character of the regular-expression class `\s` (its ASCII members). */
  predicate IsWhitespace(c: char) {
    c == ' ' || c == '\t' || c == '\n' || c == '\r' || c == '\U{B}' || c == '\U{C}'
  }

  function LowerChar(c: char): (d: char)
    ensures !IsAsciiUpper(d)
    ensures IsAsciiUpper(c) ==> d as int == c as int + 32
    ensures !IsAsciiUpper(c) ==> d == c
  {
    if IsAsciiUpper(c) then (c as int + 32) as char else c
  }

  function UpperChar(c: char): (d: char)
    ensures !IsAsciiLower(d)
    ensures IsAsciiLower(c) ==> d as int == c as int - 32
    ensures !IsAsciiLower(c) ==> d == c
  {
    if IsAsciiLower(c) then (c as int - 32) as char else c
  }

  /** `s.toLowerCase()` on ASCII. */
  function Lower(s: string): (r: string)
    ensures |r| == |s|
  {
    seq(|s|, i requires 0 <= i < |s| => LowerChar(s[i]))
  }

  /** Lower-casing leaves no upper-case letter and keeps every other character. */
  lemma LowerShape(s: string)
    ensures forall i :: 0 <= i < |s| ==> !IsAsciiUpper(Lower(s)[i])
    ensures forall i :: 0 <= i < |s| && !IsAsciiUpper(s[i]) ==> Lower(s)[i] == s[i]
  {
  }

  /** Lower-casing twice is lower-casing once. */
  lemma LowerIdempotent(s: string)
    ensures Lower(Lower(s)) == Lower(s)
  {
  }

  /** `q` occurs in `s` starting at index `i`. */
  predicate OccursAt(s: string, q: string, i: nat) {
    i + |q| <= |s| && s[i..i + |q|] == q
  }

  /** `s.includes(q)`: `q` occurs in `s` at some position. */
  predicate Includes(s: string, q: string)
    ensures Includes(s, q) <==> exists i: nat :: OccursAt(s, q, i)
    decreases |s|
  {
    if |q| > |s| then false
    else if q <= s then assert OccursAt(s, q, 0); true
    else
      assert !OccursAt(s, q, 0);
      assert forall i: nat :: OccursAt(s, q, i + 1) == OccursAt(s[1..], q, i) by {
        forall i: nat ensures OccursAt(s, q, i + 1) == OccursAt(s[1..], q, i) {
          if i + 1 + |q| <= |s| {
            var a, b := s[i + 1..i + 1 + |q|], s[1..][i..i + |q|];
            assert forall k :: 0 <= k < |q| ==> a[k] == b[k];
            assert a == b;
          }
        }
      }
      assert (exists i: nat :: OccursAt(s, q, i)) ==> exists i: nat :: OccursAt(s[1..], q, i) by {
        if exists i: nat :: OccursAt(s, q, i) {
          var i: nat :| OccursAt(s, q, i);
          assert i != 0;
          assert OccursAt(s[1..], q, i - 1);
        }
      }
      Includes(s[1..], q)
  }

  /** Every string includes the empty string. */
  lemma IncludesEmpty(s: string)
    ensures Includes(s, "")
  {
    assert OccursAt(s, "", 0);
  }

  /** `s.replace(/\s+/g, '-')`: every maximal run of whitespace becomes one `-`. */
  function DashWhitespaceRuns(s: string): string {
    DashRuns(s, |s|)
  }

  /** The replacement on a string `s` of length `n`, scanning left to right: a
      whitespace character followed by more whitespace is dropped, the last one of
      a run becomes `-`. The length travels as its own argument so that the
      verifier unfolds the recursion on demand rather than evaluating it eagerly
      on literal strings. */
  function DashRuns(s: string, n: nat): string
    requires n == |s|
    decreases n
  {
    if s == [] then []
    else if !IsWhitespace(s[0]) then [s[0]] + DashRuns(s[1..], n - 1)
    else if 1 < |s| && IsWhitespace(s[1]) then DashRuns(s[1..], n - 1)
    else "-" + DashRuns(s[1..], n - 1)
  }

  /** The replacement leaves no whitespace, never lengthens, keeps the absence of
      upper-case letters, and is the identity on a string without whitespace. */
  lemma {:induction false} DashRunsShape(s: string, n: nat)
    requires n == |s|
    ensures forall i :: 0 <= i < |DashRuns(s, n)| ==> !IsWhitespace(DashRuns(s, n)[i])
    ensures |DashRuns(s, n)| <= n
    ensures (forall i :: 0 <= i < |s| ==> !IsAsciiUpper(s[i])) ==>
      forall i :: 0 <= i < |DashRuns(s, n)| ==> !IsAsciiUpper(DashRuns(s, n)[i])
    ensures NoWhitespace(s) ==> DashRuns(s, n) == s
    decreases n
  {
    if s != [] {
      DashRunsShape(s[1..], n - 1);
    }
  }

  /** The category slug: `s.toLowerCase().replace(/\s+/g, '-')`. */
  function Slug(s: string): string {
    DashWhitespaceRuns(Lower(s))
  }

  /** A slug has neither whitespace nor upper-case letters. */
  lemma SlugShape(s: string)
    ensures forall i :: 0 <= i < |Slug(s)| ==> !IsWhitespace(Slug(s)[i]) && !IsAsciiUpper(Slug(s)[i])
  {
    LowerShape(s);
    DashRunsShape(Lower(s), |s|);
  }

  predicate NoWhitespace(s: string) {
    forall i :: 0 <= i < |s| ==> !IsWhitespace(s[i])
  }

  /** The slug of a single word is its lower-case form. */
  lemma SlugOfWord(w: string)
    requires NoWhitespace(w)
    ensures Slug(w) == Lower(w)
  {
    LowerShape(w);
    DashRunsShape(Lower(w), |w|);
  }

  /** A word, one space and the rest: the space becomes `-`. */
  lemma SlugJoin(w: string, rest: string)
    requires NoWhitespace(w)
    requires rest != [] && !IsWhitespace(rest[0])
    ensures Slug(w + " " + rest) == Lower(w) + "-" + Slug(rest)
  {
    var s := w + " " + rest;
    assert Lower(s) == Lower(w) + " " + Lower(rest) by {
      assert forall i :: 0 <= i < |w| ==> s[i] == w[i];
      assert forall i :: 0 <= i < |rest| ==> s[|w| + 1 + i] == rest[i];
    }
    DashJoin(Lower(w), Lower(rest));
  }

  /** Two words joined by one space slug to their lower-case forms joined by `-`. */
  lemma SlugOfTwoWords(a: string, b: string)
    requires NoWhitespace(a) && NoWhitespace(b) && b != []
    ensures Slug(a + " " + b) == Lower(a) + "-" + Lower(b)
  {
    SlugOfWord(b);
    SlugJoin(a, b);
  }

  /** Four words joined by single spaces slug to their lower-case forms joined by `-`. */
  lemma SlugOfFourWords(a: string, b: string, c: string, d: string)
    requires NoWhitespace(a) && NoWhitespace(b) && NoWhitespace(c) && NoWhitespace(d)
    requires b != [] && c != [] && d != []
    ensures Slug(a + " " + b + " " + c + " " + d) == Lower(a) + "-" + Lower(b) + "-" + Lower(c) + "-" + Lower(d)
  {
    SlugOfWord(d);
    SlugJoin(c, d);
    assert (c + " " + d)[0] == c[0];
    SlugJoin(b, c + " " + d);
    assert (b + " " + (c + " " + d))[0] == b[0];
    SlugJoin(a, b + " " + (c + " " + d));
    assert a + " " + b + " " + c + " " + d == a + " " + (b + " " + (c + " " + d));
  }

  lemma {:induction false} DashJoin(a: string, b: string)
    requires NoWhitespace(a) && b != [] && !IsWhitespace(b[0])
    ensures DashWhitespaceRuns(a + " " + b) == a + "-" + DashWhitespaceRuns(b)
    decreases |a|
  {
    var s := a + " " + b;
    if a == [] {
      assert s == " " + b;
      assert s[1..] == b;
    } else {
      assert s[1..] == a[1..] + " " + b;
      DashJoin(a[1..], b);
    }
  }

  function DigitChar(d: nat): (c: char)
    requires d < 10
    ensures IsDigit(c)
  {
    "0123456789"[d]
  }

  function DigitValue(c: char): nat
    requires IsDigit(c)
  {
    c as int - '0' as int
  }

  /** `String(n)` for a non-negative integer: its decimal digits, no leading zero. */
  function NatToString(n: nat): (r: string)
    ensures |r| >= 1
    ensures forall i :: 0 <= i < |r| ==> IsDigit(r[i])
    ensures r[0] == '0' ==> n == 0 && r == "0"
  {
    if n < 10 then [DigitChar(n)] else NatToString(n / 10) + [DigitChar(n % 10)]
  }

  /** The number a string of decimal digits denotes. */
  function DigitsValue(s: string): nat
    requires forall i :: 0 <= i < |s| ==> IsDigit(s[i])
  {
    if s == [] then 0 else DigitsValue(s[..|s| - 1]) * 10 + DigitValue(s[|s| - 1])
  }

  /** Reading back the decimal rendering gives the number. */
  lemma {:induction false} NatToStringRoundTrip(n: nat)
    ensures DigitsValue(NatToString(n)) == n
  {
    if n >= 10 {
      var r := NatToString(n);
      assert r[..|r| - 1] == NatToString(n / 10);
      NatToStringRoundTrip(n / 10);
    }
  }

  /** Distinct numbers render as distinct strings. */
  lemma NatToStringInjective(m: nat, n: nat)
    requires NatToString(m) == NatToString(n)
    ensures m == n
  {
    NatToStringRoundTrip(m);
    NatToStringRoundTrip(n);
  }

  // ---------------------------------------------------------------------
  // UTF-16: how JavaScript measures and slices strings
  // ---------------------------------------------------------------------

  /** The UTF-16 code units of one character: the character itself below
      U+10000, otherwise a high surrogate followed by a low surrogate. */
  function CodeUnits(c: char): (u: seq<int>)
    ensures |u| == 1 <==> (c as int) < 0x10000
    ensures |u| == 1 ==> u[0] == c as int
    ensures |u| == 2 ==> 0xD800 <= u[0] < 0xDC00 && 0xDC00 <= u[1] < 0xE000
    ensures |u| == 2 ==> 0x10000 + (u[0] - 0xD800) * 0x400 + (u[1] - 0xDC00) == c as int
  {
    var n := c as int;
    if n < 0x10000 then [n]
    else [0xD800 + (n - 0x10000) / 0x400, 0xDC00 + (n - 0x10000) % 0x400]
  }

  /** The UTF-16 code units of `s`, the sequence `length` counts and `slice` cuts. */
  function Utf16(s: string): (u: seq<int>)
    ensures |u| >= |s|
    ensures forall i :: 0 <= i < |u| ==> 0 <= u[i] < 0x10000
  {
    if s == [] then [] else CodeUnits(s[0]) + Utf16(s[1..])
  }

  /** Encoding distributes over concatenation. */
  lemma {:induction false} Utf16Append(a: string, b: string)
    ensures Utf16(a + b) == Utf16(a) + Utf16(b)
    decreases |a|
  {
    if a == [] {
      assert a + b == b;
    } else {
      assert (a + b)[1..] == a[1..] + b;
      Utf16Append(a[1..], b);
    }
  }

  /** Below U+10000 every character is one code unit, so JavaScript's length
      is the character count. */
  lemma {:induction false} Utf16Bmp(s: string)
    requires forall i :: 0 <= i < |s| ==> (s[i] as int) < 0x10000
    ensures |Utf16(s)| == |s|
    ensures forall i :: 0 <= i < |s| ==> Utf16(s)[i] == s[i] as int
  {
    if s != [] {
      Utf16Bmp(s[1..]);
    }
  }

  /** From U+10000 on every character is two code units. */
  lemma {:induction false} Utf16Astral(s: string)
    requires forall i :: 0 <= i < |s| ==> (s[i] as int) >= 0x10000
    ensures |Utf16(s)| == 2 * |s|
  {
    if s != [] {
      Utf16Astral(s[1..]);
    }
  }
}
