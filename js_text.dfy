/**
 * The small part of JavaScript's string semantics the core relies on:
 * the white-space set shared by `String.prototype.trim` and the regular
 * expression class `\s`, the line terminators that `.` does not match,
 * `trim`, `includes`, and `split` on a fixed case-insensitive delimiter.
 */
module JsText {
  import opened Wrappers

  /** WhiteSpace and LineTerminator code points of ECMAScript (section 12.2 and
      12.3 of ECMA-262): what `\s` matches and what `trim` removes. */
  predicate IsWhitespace(c: char) {
    c == '\t' || c == '\n' || c == '\U{000B}' || c == '\U{000C}' || c == '\r' || c == ' '
    || c == '\U{00A0}' || c == '\U{1680}' || ('\U{2000}' <= c <= '\U{200A}')
    || c == '\U{2028}' || c == '\U{2029}' || c == '\U{202F}' || c == '\U{205F}'
    || c == '\U{3000}' || c == '\U{FEFF}'
  }

  /** The characters that the regular-expression atom `.` refuses. */
  predicate IsLineTerminator(c: char) {
    c == '\n' || c == '\r' || c == '\U{2028}' || c == '\U{2029}'
  }

  lemma LineTerminatorIsWhitespace(c: char)
    requires IsLineTerminator(c)
    ensures IsWhitespace(c)
  {
  }

  predicate AllWhitespace(s: string) {
    forall k :: 0 <= k < |s| ==> IsWhitespace(s[k])
  }

  /** `s.trimStart()`: the suffix of `s` left after dropping leading white space. */
  function TrimStart(s: string): string
    decreases |s|
  {
    if |s| > 0 && IsWhitespace(s[0]) then TrimStart(s[1..]) else s
  }

  /** `trimStart` drops a white-space prefix and stops at the first other character. */
  lemma {:induction false} TrimStartFacts(s: string)
    ensures var r := TrimStart(s);
      && |r| <= |s| && r == s[|s| - |r|..]
      && AllWhitespace(s[..|s| - |r|])
      && (r == [] || !IsWhitespace(r[0]))
    decreases |s|
  {
    if |s| > 0 && IsWhitespace(s[0]) {
      TrimStartFacts(s[1..]);
      var r := TrimStart(s[1..]);
      assert s[1..][|s| - 1 - |r|..] == s[|s| - |r|..];
      assert s[..|s| - |r|] == [s[0]] + s[1..][..|s| - 1 - |r|];
    } else {
      assert s[..0] == [];
    }
  }

  /** `s.trimEnd()`: the prefix of `s` left after dropping trailing white space. */
  function TrimEnd(s: string): string
    decreases |s|
  {
    if |s| > 0 && IsWhitespace(s[|s| - 1]) then TrimEnd(s[..|s| - 1]) else s
  }

  /** `trimEnd` drops a white-space suffix and stops at the last other character. */
  lemma {:induction false} TrimEndFacts(s: string)
    ensures var r := TrimEnd(s);
      && |r| <= |s| && r == s[..|r|]
      && AllWhitespace(s[|r|..])
      && (r == [] || !IsWhitespace(r[|r| - 1]))
    decreases |s|
  {
    if |s| > 0 && IsWhitespace(s[|s| - 1]) {
      var p := s[..|s| - 1];
      TrimEndFacts(p);
      var r := TrimEnd(p);
      assert p[..|r|] == s[..|r|];
      assert s[|r|..] == p[|r|..] + [s[|s| - 1]];
    } else {
      assert s[|s|..] == [];
    }
  }

  /** Neither end of `s` is white space. */
  predicate Unpadded(s: string) {
    s == [] || (!IsWhitespace(s[0]) && !IsWhitespace(s[|s| - 1]))
  }

  /** `s.trim()`. */
  function Trim(s: string): (r: string)
    ensures Unpadded(r)
  {
    var a := TrimStart(s);
    TrimStartFacts(s);
    TrimEndFacts(a);
    var r := TrimEnd(a);
    assert r != [] ==> r[0] == a[0];
    r
  }

  /** `trim` keeps a contiguous middle of `s` that neither starts nor ends with
      white space, and everything it drops is white space. */
  lemma TrimIsMiddle(s: string)
    ensures exists i, j :: 0 <= i <= j <= |s| && Trim(s) == s[i..j]
                           && AllWhitespace(s[..i]) && AllWhitespace(s[j..])
    ensures Trim(s) == [] || (!IsWhitespace(Trim(s)[0]) && !IsWhitespace(Trim(s)[|Trim(s)| - 1]))
  {
    var a := TrimStart(s);
    TrimStartFacts(s);
    TrimEndFacts(a);
    var i := |s| - |a|;
    var j := i + |TrimEnd(a)|;
    assert Trim(s) == s[i..j];
    assert s[j..] == a[|TrimEnd(a)|..];
  }

  /** A string is blank for `!s.trim()` exactly when it is all white space. */
  lemma TrimEmptyIffBlank(s: string)
    ensures Trim(s) == [] <==> AllWhitespace(s)
  {
    var a := TrimStart(s);
    TrimStartFacts(s);
    TrimEndFacts(a);
    var i := |s| - |a|;
    if a == [] {
      assert s[..i] == s;
    } else {
      assert a[0] == s[i];
      var t := TrimEnd(a);
      assert AllWhitespace(a[|t|..]);
    }
  }

  /** `t` occurs in `s` starting at index `i`. */
  predicate OccursAt(s: string, t: string, i: nat) {
    i + |t| <= |s| && s[i..i + |t|] == t
  }

  /** `s.includes(t)`. */
  function Includes(s: string, t: string): (r: bool)
    ensures r <==> exists i: nat :: OccursAt(s, t, i)
    decreases |s|
  {
    if |s| < |t| then false
    else if s[..|t|] == t then (assert OccursAt(s, t, 0); true)
    else (
      var r := Includes(s[1..], t);
      assert forall i: nat :: OccursAt(s[1..], t, i) <==> OccursAt(s, t, i + 1) by {
        forall i: nat ensures OccursAt(s[1..], t, i) <==> OccursAt(s, t, i + 1) {
          if i + 1 + |t| <= |s| { assert s[1..][i..i + |t|] == s[i + 1..i + 1 + |t|]; }
        }
      }
      assert forall i: nat :: OccursAt(s, t, i) ==> i > 0 ==> OccursAt(s[1..], t, i - 1);
      r
    )
  }

  /** ASCII upper-casing. For a delimiter made of ASCII letters and punctuation,
      comparing through it is exactly the `i` flag of a non-Unicode regular
      expression: no character outside ASCII canonicalises to an ASCII letter. */
  function AsciiUpper(c: char): char {
    if 'a' <= c <= 'z' then (c as int - 32) as char else c
  }

  /** The case-insensitive delimiter `d` matches `s` at index `i`. */
  predicate MatchesAt(s: string, d: string, i: nat) {
    i + |d| <= |s| && forall k :: 0 <= k < |d| ==> AsciiUpper(s[i + k]) == AsciiUpper(d[k])
  }

  /** The leftmost match of `d` in `s` at or after `from`. */
  function FindFrom(s: string, d: string, from: nat): (r: Option<nat>)
    ensures r.Some? ==> from <= r.value && MatchesAt(s, d, r.value)
    ensures r.Some? ==> forall k: nat :: from <= k < r.value ==> !MatchesAt(s, d, k)
    ensures r.None? ==> forall k: nat :: from <= k ==> !MatchesAt(s, d, k)
    decreases |s| - from
  {
    if from + |d| > |s| then None
    else if MatchesAt(s, d, from) then Some(from)
    else FindFrom(s, d, from + 1)
  }

  /** `s.split(/d/i)` for a non-empty literal delimiter `d`: the pieces between
      the leftmost non-overlapping matches, in order. */
  function SplitIgnoreCase(s: string, d: string): (r: seq<string>)
    requires |d| > 0
    ensures |r| >= 1
    decreases |s|
  {
    match FindFrom(s, d, 0)
    case None => [s]
    case Some(i) => [s[..i]] + SplitIgnoreCase(s[i + |d|..], d)
  }

  /** The first piece of a split is everything before the first match (all of
      `s` when there is none); a second piece exists exactly when `d` occurs. */
  lemma SplitHead(s: string, d: string)
    requires |d| > 0
    ensures var r := SplitIgnoreCase(s, d);
      (forall k: nat :: !MatchesAt(s, d, k)) <==> (|r| == 1 && r[0] == s)
    ensures var r := SplitIgnoreCase(s, d);
      forall k: nat :: MatchesAt(s, d, k) && (forall j: nat :: j < k ==> !MatchesAt(s, d, j)) ==>
        |r| >= 2 && r[0] == s[..k]
  {
    var r := SplitIgnoreCase(s, d);
    match FindFrom(s, d, 0)
    case None =>
    case Some(i) =>
      assert |r| >= 2 && r[0] == s[..i];
      assert |s[..i]| < |s|;
      forall k: nat | MatchesAt(s, d, k) && (forall j: nat :: j < k ==> !MatchesAt(s, d, j))
        ensures k == i
      {
      }
  }

  /** A match inside a prefix of `s` is a match in `s` that ends inside the prefix. */
  lemma PrefixMatch(s: string, n: nat, d: string, k: nat)
    requires n <= |s|
    ensures MatchesAt(s[..n], d, k) ==> MatchesAt(s, d, k) && k + |d| <= n
  {
    if MatchesAt(s[..n], d, k) {
      forall m | 0 <= m < |d| ensures AsciiUpper(s[k + m]) == AsciiUpper(d[m]) {
        assert s[..n][k + m] == s[k + m];
      }
    }
  }

  /** No piece of a split contains the delimiter. */
  lemma {:induction false} SplitPiecesFree(s: string, d: string)
    requires |d| > 0
    ensures forall p: nat, k: nat :: p < |SplitIgnoreCase(s, d)| ==> !MatchesAt(SplitIgnoreCase(s, d)[p], d, k)
    decreases |s|
  {
    var r := SplitIgnoreCase(s, d);
    match FindFrom(s, d, 0)
    case None =>
    case Some(i) =>
      var rest := s[i + |d|..];
      SplitPiecesFree(rest, d);
      forall p: nat, k: nat | p < |r| ensures !MatchesAt(r[p], d, k) {
        if p == 0 {
          PrefixMatch(s, i, d, k);
        } else {
          assert r[p] == SplitIgnoreCase(rest, d)[p - 1];
        }
      }
  }

  function Digit(d: nat): char
    requires d < 10
  {
    "0123456789"[d]
  }

  /** A non-negative integer converted to a string (as in a template
      literal): its decimal digits, without leading zeros. */
  function Decimal(n: nat): (r: string)
    ensures |r| > 0
    decreases n
  {
    if n < 10 then [Digit(n)] else Decimal(n / 10) + [Digit(n % 10)]
  }

  /** Appending a digit to a positive number appends it to its decimal string. */
  lemma DecimalStep(n: nat, d: nat, w: string)
    requires 0 < n && d < 10 && Decimal(n) == w
    ensures Decimal(10 * n + d) == w + [Digit(d)]
  {
    assert (10 * n + d) / 10 == n && (10 * n + d) % 10 == d;
  }

  /** A character outside the Basic Multilingual Plane, which UTF-16 stores
      as a surrogate pair. */
  predicate Astral(c: char) {
    c as int >= 0x1_0000
  }

  /** `String.prototype.length`: the number of UTF-16 code units, two for
      each astral character and one for every other. */
  function Utf16Length(s: string): (n: nat)
    ensures |s| <= n <= 2 * |s|
    ensures n == |s| <==> forall k :: 0 <= k < |s| ==> !Astral(s[k])
    decreases |s|
  {
    if s == [] then 0
    else (if Astral(s[0]) then 2 else 1) + Utf16Length(s[1..])
  }

  /** The code units of a concatenation are those of its parts. */
  lemma {:induction false} Utf16LengthAppend(a: string, b: string)
    ensures Utf16Length(a + b) == Utf16Length(a) + Utf16Length(b)
    decreases |a|
  {
    if a == [] {
      assert a + b == b;
    } else {
      assert (a + b)[0] == a[0] && (a + b)[1..] == a[1..] + b;
      Utf16LengthAppend(a[1..], b);
    }
  }

  /** Three emoji are six code units long. */
  lemma ThreeEmojiAreSixUnits()
    ensures Utf16Length("\U{1F600}\U{1F600}\U{1F600}") == 6
  {
    var e := "\U{1F600}";
    assert Astral(e[0]);
    assert Utf16Length(e) == 2;
    Utf16LengthAppend(e, e);
    assert e + e + e == "\U{1F600}\U{1F600}\U{1F600}";
    Utf16LengthAppend(e + e, e);
  }
}
