/** Fixture synthesis and lookup (src/mock/mockSession.ts): tokens spread
    evenly over a segment's time span, and the by-id fixture lookup. The
    fixture contents themselves are a parameter. */
module MockSession {
  import opened Optional
  import opened JsText
  import opened JsNumber
  import opened SessionTypes

  /** `step = (endMs - startMs) / max(words, 1)`. */
  function Step(startMs: int, endMs: int, n: nat): real {
    (endMs - startMs) as real / (if n > 1 then n else 1) as real
  }

  /** Where word `index` starts: `round(startMs + index * step)`. */
  function Boundary(startMs: int, step: real, index: nat): int {
    Round(startMs as real + index as real * step)
  }

  /** A boundary is the integer nearest to `startMs + index * step`, halves
      rounding up. */
  lemma BoundaryNearest(startMs: int, step: real, index: nat)
    ensures var b := Boundary(startMs, step, index) as real;
      b - 0.5 <= startMs as real + index as real * step < b + 0.5
  {
  }

  /** The token for word `index` of `words`. */
  function TimedToken(words: seq<string>, index: nat, prefix: string, startMs: int, endMs: int,
                      taggedIndices: map<nat, seq<Tag>>): (t: Token)
    requires index < |words|
    ensures t.id == prefix + NatToString(index + 1) && t.text == words[index]
    ensures t.tags == if index in taggedIndices then taggedIndices[index] else []
    ensures t.startMs == Boundary(startMs, Step(startMs, endMs, |words|), index)
    ensures t.endMs == if index == |words| - 1 then endMs else Boundary(startMs, Step(startMs, endMs, |words|), index + 1)
  {
    var step := Step(startMs, endMs, |words|);
    Token(
      prefix + NatToString(index + 1),
      Boundary(startMs, step, index),
      if index == |words| - 1 then endMs else Boundary(startMs, step, index + 1),
      words[index],
      if index in taggedIndices then taggedIndices[index] else [])
  }

  /** The id prefix: the given one, else `segmentId + "-tok-"`. */
  function TokenPrefix(segmentId: string, tokenPrefix: Option<string>): string {
    tokenPrefix.GetOr(segmentId + "-tok-")
  }

  /** `createTimedTokens`: one token per non-empty whitespace-separated
      word of the trimmed text; ids count from 1; token `i` spans from
      boundary `i` to boundary `i + 1`, the last ending exactly at `endMs`;
      tags come from `taggedIndices`, `[]` for an index it lacks. */
  function CreateTimedTokens(segmentId: string, text: string, startMs: int, endMs: int,
                             tokenPrefix: Option<string>, taggedIndices: map<nat, seq<Tag>>): (r: seq<Token>)
    ensures |r| == |Words(text)|
    ensures forall i :: 0 <= i < |r| ==> r[i].text == Words(text)[i]
    ensures forall i :: 0 <= i < |r| ==> r[i].id == TokenPrefix(segmentId, tokenPrefix) + NatToString(i + 1)
    ensures forall i :: 0 <= i < |r| ==> r[i].tags == if i in taggedIndices then taggedIndices[i] else []
  {
    var words := FilterNonEmpty(SplitWs(Trim(text)));
    FilteredSplitIsWords(text);
    var prefix := TokenPrefix(segmentId, tokenPrefix);
    seq(|words|, i requires 0 <= i < |words| => TimedToken(words, i, prefix, startMs, endMs, taggedIndices))
  }

  /** The timing of `createTimedTokens`: token `i` starts at boundary `i`,
      each token ends where the next starts, the first starts at the
      rounded `startMs` and the last ends exactly at `endMs`. */
  lemma TimedTokensTiming(segmentId: string, text: string, startMs: int, endMs: int,
                          tokenPrefix: Option<string>, taggedIndices: map<nat, seq<Tag>>)
    ensures var r := CreateTimedTokens(segmentId, text, startMs, endMs, tokenPrefix, taggedIndices);
      && (forall i :: 0 <= i < |r| ==> r[i].startMs == Boundary(startMs, Step(startMs, endMs, |r|), i))
      && (forall i :: 0 <= i < |r| - 1 ==> r[i].endMs == r[i + 1].startMs)
      && (r != [] ==> r[0].startMs == Round(startMs as real))
      && (r != [] ==> r[|r| - 1].endMs == endMs)
  {
    var r := CreateTimedTokens(segmentId, text, startMs, endMs, tokenPrefix, taggedIndices);
    var words := FilterNonEmpty(SplitWs(Trim(text)));
    FilteredSplitIsWords(text);
    var prefix := TokenPrefix(segmentId, tokenPrefix);
    assert forall i :: 0 <= i < |r| ==> r[i] == TimedToken(words, i, prefix, startMs, endMs, taggedIndices);
  }

  lemma RoundMonotone(x: real, y: real)
    requires x <= y
    ensures Round(x) <= Round(y)
  {
  }

  /** A boundary at or before `endMs` rounds to at most `endMs`. */
  lemma RoundBelow(x: real, bound: int)
    requires x <= bound as real
    ensures Round(x) <= bound
  {
  }

  lemma BoundaryMonotone(startMs: int, step: real, i: nat, j: nat)
    requires step >= 0.0 && i <= j
    ensures Boundary(startMs, step, i) <= Boundary(startMs, step, j)
  {
    assert i as real * step <= j as real * step by {
      assert (j - i) as real * step >= 0.0;
      assert j as real * step == i as real * step + (j - i) as real * step;
    }
    RoundMonotone(startMs as real + i as real * step, startMs as real + j as real * step);
  }

  /** Over a forward span, starts never decrease and every token ends no
      earlier than it starts. */
  lemma TimedTokensOrdered(segmentId: string, text: string, startMs: int, endMs: int,
                           tokenPrefix: Option<string>, taggedIndices: map<nat, seq<Tag>>)
    requires startMs <= endMs
    ensures var r := CreateTimedTokens(segmentId, text, startMs, endMs, tokenPrefix, taggedIndices);
      && (forall i, j :: 0 <= i <= j < |r| ==> r[i].startMs <= r[j].startMs)
      && (forall i :: 0 <= i < |r| ==> r[i].startMs <= r[i].endMs)
  {
    var r := CreateTimedTokens(segmentId, text, startMs, endMs, tokenPrefix, taggedIndices);
    TimedTokensTiming(segmentId, text, startMs, endMs, tokenPrefix, taggedIndices);
    var n := |r|;
    var step := Step(startMs, endMs, n);
    assert step >= 0.0;
    forall i, j | 0 <= i <= j < n ensures r[i].startMs <= r[j].startMs {
      BoundaryMonotone(startMs, step, i, j);
    }
    forall i | 0 <= i < n ensures r[i].startMs <= r[i].endMs {
      assert r[i].startMs == Boundary(startMs, step, i);
      if i < n - 1 {
        BoundaryMonotone(startMs, step, i, i + 1);
        assert r[i].endMs == r[i + 1].startMs == Boundary(startMs, step, i + 1);
      } else {
        LastBoundaryInSpan(startMs, endMs, n);
        assert r[n - 1].endMs == endMs;
      }
    }
  }

  /** The last word's start, `round(startMs + (n - 1) * step)`, lies
      within the span. */
  lemma LastBoundaryInSpan(startMs: int, endMs: int, n: nat)
    requires startMs <= endMs && n >= 1
    ensures Boundary(startMs, Step(startMs, endMs, n), n - 1) <= endMs
  {
    var x := startMs as real + (n - 1) as real * Step(startMs, endMs, n);
    LastStartInSpan(startMs, endMs, n);
    RoundBelow(x, endMs);
  }

  lemma LastStartInSpan(startMs: int, endMs: int, n: nat)
    requires startMs <= endMs && n >= 1
    ensures startMs as real + (n - 1) as real * Step(startMs, endMs, n) <= endMs as real
  {
    var m := n as real;
    var span := (endMs - startMs) as real;
    var step := Step(startMs, endMs, n);
    assert step == span / m;
    assert step * m == span;
    assert step >= 0.0;
    assert (n - 1) as real * step == step * m - step;
  }

  /** Token ids are distinct. */
  lemma TimedTokenIdsDistinct(segmentId: string, text: string, startMs: int, endMs: int,
                              tokenPrefix: Option<string>, taggedIndices: map<nat, seq<Tag>>)
    ensures var r := CreateTimedTokens(segmentId, text, startMs, endMs, tokenPrefix, taggedIndices);
      forall i, j :: 0 <= i < j < |r| ==> r[i].id != r[j].id
  {
    var r := CreateTimedTokens(segmentId, text, startMs, endMs, tokenPrefix, taggedIndices);
    var prefix := TokenPrefix(segmentId, tokenPrefix);
    forall i, j | 0 <= i < j < |r| ensures r[i].id != r[j].id {
      PrefixedNumbersDistinct(prefix, i + 1, j + 1);
    }
  }

  /** Distinct numbers after a common prefix give distinct strings. */
  lemma PrefixedNumbersDistinct(prefix: string, a: nat, b: nat)
    requires a != b
    ensures prefix + NatToString(a) != prefix + NatToString(b)
  {
    var x, y := NatToString(a), NatToString(b);
    if prefix + x == prefix + y {
      assert x == (prefix + x)[|prefix|..];
      assert y == (prefix + y)[|prefix|..];
      ParseNatToString(a);
      ParseNatToString(b);
    }
  }

  /** Blank text yields no tokens. */
  lemma BlankTextNoTokens(segmentId: string, text: string, startMs: int, endMs: int,
                          tokenPrefix: Option<string>, taggedIndices: map<nat, seq<Tag>>)
    requires IsBlank(text)
    ensures CreateTimedTokens(segmentId, text, startMs, endMs, tokenPrefix, taggedIndices) == []
  {
    WordsEmptyIffBlank(text);
  }

  /** `getMockSessionById`: the first fixture with the id, if any. */
  function GetMockSessionById(fixtures: seq<Session>, id: string): (r: Option<Session>)
    ensures r.None? <==> forall i :: 0 <= i < |fixtures| ==> fixtures[i].id != id
    ensures r.Some? ==> exists i :: 0 <= i < |fixtures| && fixtures[i] == r.value && r.value.id == id
                          && forall j :: 0 <= j < i ==> fixtures[j].id != id
  {
    if fixtures == [] then None
    else if fixtures[0].id == id then Some(fixtures[0])
    else
      var r := GetMockSessionById(fixtures[1..], id);
      assert forall i :: 1 <= i < |fixtures| ==> fixtures[i] == fixtures[1..][i - 1];
      assert r.Some? ==> exists i :: 1 <= i < |fixtures| && fixtures[i] == r.value && r.value.id == id
                            && forall j :: 0 <= j < i ==> fixtures[j].id != id by {
        if r.Some? {
          var i :| 0 <= i < |fixtures[1..]| && fixtures[1..][i] == r.value && r.value.id == id
                   && forall j :: 0 <= j < i ==> fixtures[1..][j].id != id;
          assert fixtures[i + 1] == r.value;
        }
      }
      r
  }

  /** With distinct fixture ids, the lookup finds a fixture exactly by its id. */
  lemma LookupFindsFixture(fixtures: seq<Session>, k: nat)
    requires k < |fixtures|
    requires forall i, j :: 0 <= i < j < |fixtures| ==> fixtures[i].id != fixtures[j].id
    ensures GetMockSessionById(fixtures, fixtures[k].id) == Some(fixtures[k])
  {
  }
}
