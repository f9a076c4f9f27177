/** JavaScript string semantics the core relies on: `String.prototype.trim`,
    `split(/\s+/)`, `filter(Boolean)`, and the word list those produce. */
module JsText {

  /** The characters matched by `\s` in a JavaScript regular expression,
      which are also the characters `trim()` removes (WhiteSpace and
      LineTerminator in ECMAScript). */
  predicate IsSpace(c: char) {
    || c == ' ' || c == '\t' || c == '\n' || c == '\r'
    || c == '\U{000B}' || c == '\U{000C}' || c == '\U{00A0}' || c == '\U{1680}'
    || ('\U{2000}' <= c <= '\U{200A}')
    || c == '\U{2028}' || c == '\U{2029}' || c == '\U{202F}' || c == '\U{205F}'
    || c == '\U{3000}' || c == '\U{FEFF}'
  }

  predicate NoSpace(s: string) {
    forall k :: 0 <= k < |s| ==> !IsSpace(s[k])
  }

  /** The end of the run of white space that starts at `i`. */
  function SkipSpace(s: string, i: nat): (r: nat)
    requires i <= |s|
    ensures i <= r <= |s|
    decreases |s| - i
  {
    if i == |s| || !IsSpace(s[i]) then i else SkipSpace(s, i + 1)
  }

  /** `SkipSpace` stops at the first non-space character at or after `i`. */
  lemma {:induction false} SkipSpaceStops(s: string, i: nat)
    requires i <= |s|
    ensures forall k :: i <= k < SkipSpace(s, i) ==> IsSpace(s[k])
    ensures SkipSpace(s, i) < |s| ==> !IsSpace(s[SkipSpace(s, i)])
    decreases |s| - i
  {
    if i < |s| && IsSpace(s[i]) {
      SkipSpaceStops(s, i + 1);
    }
  }

  /** The end of the run of non-space characters that starts at `i`. */
  function SkipWord(s: string, i: nat): (r: nat)
    requires i <= |s|
    ensures i <= r <= |s|
    decreases |s| - i
  {
    if i == |s| || IsSpace(s[i]) then i else SkipWord(s, i + 1)
  }

  /** `SkipWord` stops at the first space character at or after `i`. */
  lemma {:induction false} SkipWordStops(s: string, i: nat)
    requires i <= |s|
    ensures forall k :: i <= k < SkipWord(s, i) ==> !IsSpace(s[k])
    ensures SkipWord(s, i) < |s| ==> IsSpace(s[SkipWord(s, i)])
    decreases |s| - i
  {
    if i < |s| && !IsSpace(s[i]) {
      SkipWordStops(s, i + 1);
    }
  }

  /** The start of the run of white space that ends at `n`. */
  function BackSpace(s: string, n: nat): (r: nat)
    requires n <= |s|
    ensures r <= n
    ensures forall k :: r <= k < n ==> IsSpace(s[k])
    ensures r > 0 ==> !IsSpace(s[r - 1])
  {
    if n == 0 || !IsSpace(s[n - 1]) then n else BackSpace(s, n - 1)
  }

  /** `s.trim()`: the part of `s` from its first to its last non-space
      character, or `""` when there is none. */
  function Trim(s: string): (r: string)
    ensures r == [] || (!IsSpace(r[0]) && !IsSpace(r[|r| - 1]))
  {
    var a := SkipSpace(s, 0);
    if a == |s| then []
    else
      SkipSpaceStops(s, 0);
      var b := BackSpace(s, |s|);
      assert a < b;
      s[a..b]
  }

  /** What `trim` returns: `s` with a leading and a trailing run of white
      space cut off, and `""` exactly when `s` is all white space. */
  lemma TrimStrips(s: string)
    ensures exists a, b :: 0 <= a <= b <= |s| && Trim(s) == s[a..b]
                           && (forall k :: 0 <= k < a ==> IsSpace(s[k]))
                           && (forall k :: b <= k < |s| ==> IsSpace(s[k]))
    ensures Trim(s) == [] <==> forall k :: 0 <= k < |s| ==> IsSpace(s[k])
  {
    var a := SkipSpace(s, 0);
    SkipSpaceStops(s, 0);
    if a == |s| {
      assert Trim(s) == s[a..a];
    } else {
      var b := BackSpace(s, |s|);
      assert Trim(s) == s[a..b];
    }
  }

  /** A blank string (nothing but white space) has no words. */
  predicate IsBlank(s: string) {
    Trim(s) == []
  }

  /** The pieces of `s[p..]` between maximal runs of white space. */
  function SplitFrom(s: string, p: nat): (r: seq<string>)
    requires p <= |s|
    ensures |r| >= 1
    decreases |s| - p
  {
    var i := SkipWord(s, p);
    if i == |s| then [s[p..]]
    else [s[p..i]] + SplitFrom(s, SkipSpace(s, i))
  }

  /** `s.split(/\s+/)`: a leading or trailing run of white space yields an
      empty piece, and `""` yields `[""]`. */
  function SplitWs(s: string): (r: seq<string>)
    ensures |r| >= 1
  {
    SplitFrom(s, 0)
  }

  /** `xs.filter(Boolean)` on strings: keeps the non-empty ones, in order. */
  function FilterNonEmpty(xs: seq<string>): (r: seq<string>)
    ensures |r| <= |xs|
    ensures forall k :: 0 <= k < |r| ==> r[k] != []
  {
    if xs == [] then []
    else if xs[0] == [] then FilterNonEmpty(xs[1..])
    else [xs[0]] + FilterNonEmpty(xs[1..])
  }

  /** The words of `s[p..]`: its maximal runs of non-space characters. */
  function WordsFrom(s: string, p: nat): seq<string>
    requires p <= |s|
    decreases |s| - p
  {
    var q := SkipSpace(s, p);
    if q == |s| then []
    else
      var i := SkipWord(s, q);
      [s[q..i]] + WordsFrom(s, i)
  }

  /** Every word is a non-empty run of non-space characters. */
  lemma {:induction false} WordsFromAreWords(s: string, p: nat)
    requires p <= |s|
    ensures forall k :: 0 <= k < |WordsFrom(s, p)| ==> WordsFrom(s, p)[k] != [] && NoSpace(WordsFrom(s, p)[k])
    decreases |s| - p
  {
    var q := SkipSpace(s, p);
    if q < |s| {
      var i := SkipWord(s, q);
      SkipSpaceStops(s, p);
      SkipWordStops(s, q);
      assert NoSpace(s[q..i]);
      WordsFromAreWords(s, i);
    }
  }

  /** The white-space separated words of `s`, left to right. */
  function Words(s: string): (r: seq<string>)
    ensures forall k :: 0 <= k < |r| ==> r[k] != [] && NoSpace(r[k])
  {
    WordsFromAreWords(s, 0);
    WordsFrom(s, 0)
  }

  lemma {:induction false} SkipSpaceIs(s: string, i: nat, r: nat)
    requires i <= r <= |s|
    requires forall k :: i <= k < r ==> IsSpace(s[k])
    requires r < |s| ==> !IsSpace(s[r])
    ensures SkipSpace(s, i) == r
    decreases r - i
  {
    if i < r {
      SkipSpaceIs(s, i + 1, r);
    }
  }

  /** Skipping white space first does not change the words that follow. */
  lemma WordsFromSkipped(s: string, p: nat)
    requires p <= |s|
    ensures WordsFrom(s, SkipSpace(s, p)) == WordsFrom(s, p)
  {
    var q := SkipSpace(s, p);
    SkipSpaceStops(s, p);
    SkipSpaceIs(s, q, q);
  }

  /** Splitting a string that ends in a non-space character, from the
      first character of a word, yields its words. */
  lemma {:induction false} SplitIsWords(u: string, p: nat)
    requires p < |u| && !IsSpace(u[p]) && !IsSpace(u[|u| - 1])
    ensures SplitFrom(u, p) == WordsFrom(u, p)
    decreases |u| - p
  {
    SkipSpaceIs(u, p, p);
    var i := SkipWord(u, p);
    SkipWordStops(u, p);
    assert WordsFrom(u, p) == [u[p..i]] + WordsFrom(u, i);
    if i == |u| {
      SkipSpaceIs(u, i, i);
      assert u[p..] == u[p..i];
    } else {
      var j := SkipSpace(u, i);
      SkipSpaceStops(u, i);
      assert j < |u|;
      SkipSpaceIs(u, j, j);
      assert WordsFrom(u, i) == WordsFrom(u, j);
      SplitIsWords(u, j);
    }
  }

  /** `u` is `s` with its first `a` characters cut off. */
  predicate IsSuffixAt(u: string, s: string, a: nat) {
    a + |u| == |s| && forall k :: 0 <= k < |u| ==> u[k] == s[a + k]
  }

  /** White space skipped in a suffix of `s` ends where it ends in `s`. */
  lemma {:induction false} SkipSpaceShift(u: string, s: string, a: nat, q: nat)
    requires IsSuffixAt(u, s, a) && q <= |u|
    ensures a + SkipSpace(u, q) == SkipSpace(s, a + q)
    decreases |u| - q
  {
    if q < |u| {
      assert u[q] == s[a + q];
      if IsSpace(u[q]) {
        SkipSpaceShift(u, s, a, q + 1);
      }
    }
  }

  /** A word in a suffix of `s` ends where it ends in `s`. */
  lemma {:induction false} SkipWordShift(u: string, s: string, a: nat, q: nat)
    requires IsSuffixAt(u, s, a) && q <= |u|
    ensures a + SkipWord(u, q) == SkipWord(s, a + q)
    decreases |u| - q
  {
    if q < |u| {
      assert u[q] == s[a + q];
      if !IsSpace(u[q]) {
        SkipWordShift(u, s, a, q + 1);
      }
    }
  }

  /** Cutting off leading characters shifts the words' positions. */
  lemma {:induction false} WordsOfSuffix(u: string, s: string, a: nat, q: nat)
    requires IsSuffixAt(u, s, a) && q <= |u|
    ensures WordsFrom(u, q) == WordsFrom(s, a + q)
    decreases |u| - q
  {
    var r := SkipSpace(u, q);
    SkipSpaceShift(u, s, a, q);
    if r < |u| {
      var i := SkipWord(u, r);
      SkipWordShift(u, s, a, r);
      var w := u[r..i];
      assert w == s[a + r..a + i];
      WordsOfSuffix(u, s, a, i);
      assert WordsFrom(u, q) == [w] + WordsFrom(u, i);
    }
  }

  /** A run of white space in the prefix `s[..b]` ends where it ends in
      `s`, or at the end of both when everything from `b` on is space. */
  lemma {:induction false} SkipSpaceInPrefix(s: string, b: nat, q: nat)
    requires q <= b <= |s|
    requires forall k :: b <= k < |s| ==> IsSpace(s[k])
    ensures SkipSpace(s[..b], q) < b ==> SkipSpace(s[..b], q) == SkipSpace(s, q)
    ensures SkipSpace(s[..b], q) == b ==> SkipSpace(s, q) == |s|
    decreases b - q
  {
    if q < b {
      assert s[..b][q] == s[q];
      if IsSpace(s[q]) {
        SkipSpaceInPrefix(s, b, q + 1);
      }
    } else {
      SkipSpaceIs(s, q, |s|);
    }
  }

  /** A word starting inside the prefix `s[..b]` ends where it ends in `s`
      when `s[b]` (if any) is white space. */
  lemma {:induction false} SkipWordInPrefix(s: string, b: nat, r: nat)
    requires r <= b <= |s|
    requires b < |s| ==> IsSpace(s[b])
    ensures SkipWord(s[..b], r) == SkipWord(s, r)
    decreases b - r
  {
    if r < b {
      assert s[..b][r] == s[r];
      if !IsSpace(s[r]) {
        SkipWordInPrefix(s, b, r + 1);
      }
    }
  }

  /** Cutting off trailing white space keeps the words. */
  lemma {:induction false} WordsOfPrefix(s: string, b: nat, q: nat)
    requires q <= b <= |s|
    requires forall k :: b <= k < |s| ==> IsSpace(s[k])
    ensures WordsFrom(s[..b], q) == WordsFrom(s, q)
    decreases b - q
  {
    var u := s[..b];
    SkipSpaceInPrefix(s, b, q);
    var r := SkipSpace(u, q);
    if r < b {
      SkipWordInPrefix(s, b, r);
      var i := SkipWord(u, r);
      var w := u[r..i];
      assert w == s[r..i];
      WordsOfPrefix(s, b, i);
      assert WordsFrom(u, q) == [w] + WordsFrom(u, i);
    }
  }

  /** On a non-blank string, `s.trim().split(/\s+/)` is exactly its word list. */
  lemma SplitOfTrimIsWords(s: string)
    requires !IsBlank(s)
    ensures SplitWs(Trim(s)) == Words(s)
  {
    var a := SkipSpace(s, 0);
    SkipSpaceStops(s, 0);
    var b := BackSpace(s, |s|);
    var t := s[..b];
    assert Trim(s) == t[a..];
    SplitIsWords(Trim(s), 0);
    assert IsSuffixAt(Trim(s), t, a);
    WordsOfSuffix(Trim(s), t, a, 0);
    WordsOfPrefix(s, b, a);
    WordsFromSkipped(s, 0);
  }

  lemma {:induction false} NonEmptyFilterIdentity(xs: seq<string>)
    requires forall k :: 0 <= k < |xs| ==> xs[k] != []
    ensures FilterNonEmpty(xs) == xs
  {
    if xs != [] {
      NonEmptyFilterIdentity(xs[1..]);
    }
  }

  /** For every string, `s.trim().split(/\s+/).filter(Boolean)` is its word
      list: a blank string splits to `[""]`, which the filter empties. */
  lemma FilteredSplitIsWords(s: string)
    ensures FilterNonEmpty(SplitWs(Trim(s))) == Words(s)
  {
    if IsBlank(s) {
      assert SplitWs([]) == [[]];
      WordsEmptyIffBlank(s);
    } else {
      SplitOfTrimIsWords(s);
      NonEmptyFilterIdentity(Words(s));
    }
  }

  /** A string has no words exactly when it is blank. */
  lemma WordsEmptyIffBlank(s: string)
    ensures Words(s) == [] <==> IsBlank(s)
  {
    SkipSpaceStops(s, 0);
  }
}
