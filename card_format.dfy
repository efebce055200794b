/**
 * The inline formatter of a study card: two global replacements, first of
 * the pattern `**(.*?)**` (asterisks escaped) by `<strong>$1</strong>`, then
 * of every newline by `<br>`. The first replacement scans left to right; at each position it tries a
 * `**`, then the shortest run of characters other than line terminators
 * that is followed by `**`, and after a match continues behind it.
 */
module CardFormat {
  import opened Wrappers
  import JsText

  const Open: string := "<strong>"
  const Close: string := "</strong>"
  const Br: string := "<br>"

  /** What a match becomes: its group between the tags. */
  function Strong(group: string): string {
    Open + group + Close
  }

  /** `**` starts at index `i` of `s`. */
  predicate StarsAt(s: string, i: int) {
    0 <= i && i + 1 < |s| && s[i] == '*' && s[i + 1] == '*'
  }

  /** No character of `s[j..k]` is a line terminator, so `.` can consume all of them. */
  predicate LineFree(s: string, j: nat, k: nat)
    requires j <= k <= |s|
  {
    forall m :: j <= m < k ==> !JsText.IsLineTerminator(s[m])
  }

  /** Where the lazy `(.*?)` that starts at `j` stops: the first `**` at or
      after `j` reached without crossing a line terminator. */
  function CloseFrom(s: string, j: nat): (r: Option<nat>)
    ensures r.Some? ==> j <= r.value && StarsAt(s, r.value)
    decreases |s| - j
  {
    if j + 1 >= |s| then None
    else if StarsAt(s, j) then Some(j)
    else if JsText.IsLineTerminator(s[j]) then None
    else CloseFrom(s, j + 1)
  }

  /** The lazy group is the shortest possible: the closing `**` found is the
      first one after `j`, nothing before it is a line terminator, and when
      none is found every later `**` lies behind a line terminator. */
  lemma {:induction false} CloseFromIsShortest(s: string, j: nat)
    ensures CloseFrom(s, j).Some? ==> LineFree(s, j, CloseFrom(s, j).value)
    ensures CloseFrom(s, j).Some? ==> forall k :: j <= k < CloseFrom(s, j).value ==> !StarsAt(s, k)
    ensures CloseFrom(s, j).None? ==> forall k :: j <= k < |s| && StarsAt(s, k) ==> !LineFree(s, j, k)
    decreases |s| - j
  {
    if j + 1 < |s| && !StarsAt(s, j) && !JsText.IsLineTerminator(s[j]) {
      CloseFromIsShortest(s, j + 1);
    }
  }

  /** The pattern matches at `i`; the result is the index of the closing `**`. */
  function MatchAt(s: string, i: nat): (r: Option<nat>)
    ensures r.Some? ==> StarsAt(s, i) && i + 2 <= r.value && StarsAt(s, r.value)
  {
    if StarsAt(s, i) then CloseFrom(s, i + 2) else None
  }

  /** The first replacement: every match becomes `<strong>` + its group + `</strong>`. */
  function Bold(s: string): string
    decreases |s|
  {
    if s == [] then []
    else match MatchAt(s, 0)
      case Some(c) => Strong(s[2..c]) + Bold(s[c + 2..])
      case None => [s[0]] + Bold(s[1..])
  }

  /** The second replacement: every `\n` becomes `<br>`. */
  function BreakLines(s: string): string
    decreases |s|
  {
    if s == [] then []
    else (if s[0] == '\n' then Br else [s[0]]) + BreakLines(s[1..])
  }

  /** No newline survives the second replacement, and a text without
      newlines passes through it unchanged. */
  lemma {:induction false} BreakLinesRemovesNewlines(s: string)
    ensures forall k :: 0 <= k < |BreakLines(s)| ==> BreakLines(s)[k] != '\n'
    ensures (forall k :: 0 <= k < |s| ==> s[k] != '\n') ==> BreakLines(s) == s
    decreases |s|
  {
    if s != [] {
      BreakLinesRemovesNewlines(s[1..]);
      var h := if s[0] == '\n' then Br else [s[0]];
      assert forall k :: 0 <= k < |h| ==> h[k] != '\n';
      var r := BreakLines(s);
      assert r == h + BreakLines(s[1..]);
      forall k | 0 <= k < |r| ensures r[k] != '\n' {
        if k >= |h| { assert r[k] == BreakLines(s[1..])[k - |h|]; }
      }
      if forall k :: 0 <= k < |s| ==> s[k] != '\n' {
        assert forall k :: 0 <= k < |s[1..]| ==> s[1..][k] != '\n' by {
          forall k | 0 <= k < |s[1..]| ensures s[1..][k] != '\n' { assert s[1..][k] == s[k + 1]; }
        }
        assert [s[0]] + s[1..] == s;
      }
    }
  }

  /** The card's inner HTML. It holds no newline. */
  function FormatCard(content: string): (r: string)
    ensures forall k :: 0 <= k < |r| ==> r[k] != '\n'
  {
    BreakLinesRemovesNewlines(Bold(content));
    BreakLines(Bold(content))
  }

  /** Replacing newlines works piece by piece. */
  lemma {:induction false} BreakLinesAppend(a: string, b: string)
    ensures BreakLines(a + b) == BreakLines(a) + BreakLines(b)
    decreases |a|
  {
    if a == [] {
      assert a + b == b;
    } else {
      var h := if a[0] == '\n' then Br else [a[0]];
      assert (a + b)[0] == a[0] && (a + b)[1..] == a[1..] + b;
      assert BreakLines(a + b) == h + BreakLines(a[1..] + b);
      assert BreakLines(a) == h + BreakLines(a[1..]);
      BreakLinesAppend(a[1..], b);
    }
  }

  /** The closing search does not depend on what precedes the searched part. */
  lemma {:induction false} CloseFromShift(s: string, j: nat)
    requires 0 < |s| && 1 <= j
    ensures CloseFrom(s, j) == (match CloseFrom(s[1..], j - 1) case None => None case Some(c) => Some(c + 1))
    decreases |s| - j
  {
    var t := s[1..];
    if j + 1 < |s| {
      assert StarsAt(s, j) == StarsAt(t, j - 1);
      assert s[j] == t[j - 1];
      if !StarsAt(s, j) && !JsText.IsLineTerminator(s[j]) {
        CloseFromShift(s, j + 1);
      }
    }
  }

  lemma MatchAtShift(s: string, i: nat)
    requires 0 < i < |s|
    ensures MatchAt(s, i) == (match MatchAt(s[1..], i - 1) case None => None case Some(c) => Some(c + 1))
  {
    assert StarsAt(s, i) == StarsAt(s[1..], i - 1);
    if StarsAt(s, i) {
      CloseFromShift(s, i + 2);
    }
  }

  /** Where the pattern matches nowhere the text is unchanged. */
  lemma {:induction false} BoldWithoutMatch(s: string)
    requires forall i: nat :: i < |s| ==> MatchAt(s, i).None?
    ensures Bold(s) == s
    decreases |s|
  {
    if s != [] {
      var t := s[1..];
      forall j: nat | j < |t| ensures MatchAt(t, j).None? {
        MatchAtShift(s, j + 1);
      }
      BoldWithoutMatch(t);
      assert Bold(s) == [s[0]] + Bold(t);
    }
  }

  /** Without a match at its start, the first character is copied. */
  lemma BoldSkip(s: string)
    requires s != [] && MatchAt(s, 0).None?
    ensures Bold(s) == [s[0]] + Bold(s[1..])
  {
  }

  /** Leftmost, shortest, non-overlapping: the text before the leftmost
      match `i` is kept, the match is replaced by its group between the
      tags, and the replacement goes on behind the match. */
  lemma {:induction false} BoldAtFirstMatch(s: string, i: nat, c: nat)
    requires i < |s| && MatchAt(s, i) == Some(c)
    requires forall j: nat :: j < i ==> MatchAt(s, j).None?
    ensures Bold(s) == s[..i] + Strong(s[i + 2..c]) + Bold(s[c + 2..])
    decreases i
  {
    if i > 0 {
      var t := s[1..];
      BoldSkip(s);
      MatchAtShift(s, i);
      NoMatchBeforeShift(s, i);
      BoldAtFirstMatch(t, i - 1, c - 1);
      Reassemble(s, i, c, Bold(t));
    } else {
      BoldAtStart(s, c);
      assert s[..0] == [];
    }
  }

  /** A match at the very start is replaced first. */
  lemma BoldAtStart(s: string, c: nat)
    requires s != [] && MatchAt(s, 0) == Some(c)
    ensures Bold(s) == Strong(s[2..c]) + Bold(s[c + 2..])
  {
  }

  /** No match before `i` in `s` means none before `i - 1` in `s[1..]`. */
  lemma NoMatchBeforeShift(s: string, i: nat)
    requires 0 < i < |s|
    requires forall j: nat :: j < i ==> MatchAt(s, j).None?
    ensures forall j: nat :: j < i - 1 ==> MatchAt(s[1..], j).None?
  {
    forall j: nat | j < i - 1 ensures MatchAt(s[1..], j).None? {
      MatchAtShift(s, j + 1);
    }
  }

  /** Putting the first character back in front of the rewritten rest. */
  lemma Reassemble(s: string, i: nat, c: nat, rest: string)
    requires 0 < i && i + 2 <= c && c + 2 <= |s|
    requires rest == s[1..][..i - 1] + Strong(s[1..][i + 1..c - 1]) + Bold(s[1..][c + 1..])
    ensures [s[0]] + rest == s[..i] + Strong(s[i + 2..c]) + Bold(s[c + 2..])
  {
    SuffixSlices(s, i, c);
  }

  /** Slices of `s[1..]` are slices of `s` shifted by one. */
  lemma SuffixSlices(s: string, i: nat, c: nat)
    requires 0 < i && i + 2 <= c && c + 2 <= |s|
    ensures [s[0]] + s[1..][..i - 1] == s[..i]
    ensures s[1..][i + 1..c - 1] == s[i + 2..c] && s[1..][c + 1..] == s[c + 2..]
  {
  }

  /** A text without any `**` is unchanged by the first replacement, so
      the formatter only replaces its newlines. */
  lemma NoStarsOnlyBreaksLines(s: string)
    requires forall i :: 0 <= i < |s| ==> !StarsAt(s, i)
    ensures Bold(s) == s
    ensures FormatCard(s) == BreakLines(s)
  {
    BoldWithoutMatch(s);
  }

  /** A text that is one match from end to end is its group between the tags. */
  lemma BoldWhole(s: string)
    requires |s| >= 4 && MatchAt(s, 0) == Some(|s| - 2)
    ensures Bold(s) == Open + s[2..|s| - 2] + Close
  {
    assert s[|s|..] == [];
  }
  /** The leftmost `**` of such a text pairs with its trailing `**`. */
  lemma PairMatches(x: string, s: string)
    requires forall k :: 0 <= k < |x| ==> x[k] != '*' && !JsText.IsLineTerminator(x[k])
    requires s == "**" + x + "**"
    ensures MatchAt(s, 0) == Some(|x| + 2)
  {
    var c := |x| + 2;
    forall k | 2 <= k < c ensures s[k] == x[k - 2] && !StarsAt(s, k) {
    }
    CloseFromReaches(s, 2, c);
  }

  /** A pair of `**` around a text without asterisks and line terminators
      becomes a `<strong>` element holding that text. */
  lemma BoldPair(x: string)
    requires forall k :: 0 <= k < |x| ==> x[k] != '*' && !JsText.IsLineTerminator(x[k])
    ensures Bold("**" + x + "**") == Open + x + Close
  {
    var s := "**" + x + "**";
    PairMatches(x, s);
    assert s[2..|x| + 2] == x;
    BoldWhole(s);
  }

  /** A search started before the first `**` of a line-free stretch stops there. */
  lemma {:induction false} CloseFromReaches(s: string, j: nat, c: nat)
    requires j <= c && StarsAt(s, c)
    requires forall k :: j <= k < c ==> !StarsAt(s, k) && !JsText.IsLineTerminator(s[k])
    ensures CloseFrom(s, j) == Some(c)
    decreases c - j
  {
    if j < c {
      CloseFromReaches(s, j + 1, c);
    }
  }

  /** `****` is an empty bold element. */
  lemma FourStarsIsEmptyBold()
    ensures Bold("****") == Open + Close
  {
    BoldPair("");
  }

  /** A trailing `**` with no partner after it is left as it is. */
  lemma UnpairedStarsKept(s: string)
    requires forall i :: 0 <= i < |s| ==> !StarsAt(s, i)
    ensures Bold(s + "**") == s + "**"
  {
    var t := s + "**";
    NoMatchInUnpaired(s, t);
    BoldWithoutMatch(t);
  }

  /** No `**` of such a text has a partner. */
  lemma NoMatchInUnpaired(s: string, t: string)
    requires forall i :: 0 <= i < |s| ==> !StarsAt(s, i)
    requires t == s + "**"
    ensures forall i: nat :: i < |t| ==> MatchAt(t, i).None?
  {
    forall i: nat | i < |t| ensures MatchAt(t, i).None? {
      if i + 1 < |s| {
        assert !StarsAt(s, i);
        assert t[i] == s[i] && t[i + 1] == s[i + 1];
      } else {
        assert i + 3 >= |t|;
        assert CloseFrom(t, i + 2).None?;
      }
    }
  }


  /** A bold span never crosses a line break: `**a\nb**` keeps its
      asterisks and only gains a `<br>`. */
  lemma BoldStopsAtLineBreak()
    ensures FormatCard("**a\nb**") == "**a<br>b**"
  {
    LineBreakSampleHasNoMatch("**a\nb**");
    BoldWithoutMatch("**a\nb**");
    LineBreakSampleBreaks("**a\nb**");
  }

  /** The `**` of `**a\nb**` cannot pair across the newline. */
  lemma LineBreakSampleHasNoMatch(s: string)
    requires s == "**a\nb**"
    ensures forall i: nat :: i < |s| ==> MatchAt(s, i).None?
  {
    assert s[0] == '*' && s[1] == '*' && s[2] == 'a' && s[3] == '\n' && s[4] == 'b' && s[5] == '*' && s[6] == '*';
    assert JsText.IsLineTerminator(s[3]);
    assert CloseFrom(s, 3).None?;
    assert CloseFrom(s, 2).None?;
    forall i: nat | i < |s| ensures MatchAt(s, i).None? {
      if i != 0 && i != 5 {
        assert !StarsAt(s, i);
      }
    }
  }

  /** The newline of `**a\nb**` becomes `<br>`. */
  lemma LineBreakSampleBreaks(s: string)
    requires s == "**a\nb**"
    ensures BreakLines(s) == "**a<br>b**"
  {
    assert s == "**a" + ("\n" + "b**");
    BreakLinesAppend("**a", "\n" + "b**");
    BreakLinesAppend("\n", "b**");
  }
}
