/** The pure rules of the practice page (src/pages/PracticePage.tsx): the
    "MM:SS" recording timer, the debug transcript's token layout and the
    minimum-length gate on stopping a recording. */
module PracticePage {
  import opened Optional
  import opened JsText
  import opened JsNumber

  /** `formatDuration(seconds)`: floored minutes and the JavaScript
      remainder, each padded with '0' to two characters, joined by ':'. */
  function FormatDuration(seconds: int): string {
    PadStart(IntToString(seconds / 60), 2, '0') + ":" + PadStart(IntToString(JsRem(seconds, 60)), 2, '0')
  }

  /** For a non-negative number of seconds the seconds field is exactly two
      digits, the minutes field at least two, and reading both back gives
      the input. */
  lemma FormatDurationReadsBack(seconds: int)
    requires seconds >= 0
    ensures var mm := PadStart(NatToString(seconds / 60), 2, '0');
      var ss := PadStart(NatToString(seconds % 60), 2, '0');
      && FormatDuration(seconds) == mm + ":" + ss
      && |ss| == 2 && |mm| >= 2
      && AllDigits(mm) && AllDigits(ss)
      && ParseNat(mm) * 60 + ParseNat(ss) == seconds
  {
    ParsePadded(seconds / 60, 2);
    ParsePadded(seconds % 60, 2);
  }

  /** One token of the debug transcript, as posted to the token table. The
      random part of its id is drawn by the caller. */
  datatype DebugToken = DebugToken(
    id: string,
    conversationId: string,
    startMs: int,
    endMs: int,
    text: string,
    tags: seq<string>)

  const WordSlotMs: int := 300
  const WordGapMs: int := 50

  /** The token for word `idx`: it occupies the first 250 ms of its 300 ms
      slot. */
  function DebugTokenAt(conversationId: string, idx: nat, word: string, suffix: string): (t: DebugToken)
    ensures t.startMs == idx * 300 && t.endMs == (idx + 1) * 300 - 50
    ensures t.text == word && t.tags == [] && t.conversationId == conversationId
    ensures t.id == conversationId + "-" + NatToString(idx) + "-" + suffix
  {
    DebugToken(conversationId + "-" + NatToString(idx) + "-" + suffix, conversationId,
      idx * WordSlotMs, (idx + 1) * WordSlotMs - WordGapMs, word, [])
  }

  /** The debug submit handler's token list: nothing for whitespace-only
      text, otherwise one token per word of the trimmed text split on runs
      of whitespace. `randomSuffix(i)` stands for the random id tail of
      token `i`. */
  function DebugTokens(text: string, conversationId: string, randomSuffix: nat -> string): (r: Option<seq<DebugToken>>)
    ensures r.None? <==> IsBlank(text)
    ensures r.Some? ==> |r.value| == |Words(text)| > 0
    ensures r.Some? ==> forall i :: 0 <= i < |r.value| ==>
      r.value[i] == DebugTokenAt(conversationId, i, Words(text)[i], randomSuffix(i))
  {
    if IsBlank(text) then None
    else
      var words := SplitWs(Trim(text));
      SplitOfTrimIsWords(text);
      WordsEmptyIffBlank(text);
      Some(seq(|words|, i requires 0 <= i < |words| => DebugTokenAt(conversationId, i, words[i], randomSuffix(i))))
  }

  /** Debug tokens carry the words of the text in order, each non-empty and
      whitespace-free, last 250 ms each and leave 50 ms before the next. */
  lemma DebugTokensLayout(text: string, conversationId: string, randomSuffix: nat -> string)
    requires !IsBlank(text)
    ensures var ts := DebugTokens(text, conversationId, randomSuffix).value;
      && (forall i :: 0 <= i < |ts| ==> ts[i].text == Words(text)[i] && ts[i].text != [] && NoSpace(ts[i].text))
      && (forall i :: 0 <= i < |ts| ==> ts[i].endMs - ts[i].startMs == 250)
      && (forall i :: 0 <= i && i + 1 < |ts| ==> ts[i + 1].startMs - ts[i].endMs == 50)
      && ts[0].startMs == 0
      && ts[|ts| - 1].endMs == 300 * |ts| - 50
  {
    var ts := DebugTokens(text, conversationId, randomSuffix).value;
    assert ts[|ts| - 1].endMs == (|ts| - 1 + 1) * 300 - 50;
  }

  /** The debug token id names the conversation and the word position, so
      two tokens of one submission never share an id. */
  lemma DebugTokenIdsDistinct(text: string, conversationId: string, randomSuffix: nat -> string, i: nat, j: nat)
    requires !IsBlank(text)
    requires i < j < |DebugTokens(text, conversationId, randomSuffix).value|
    requires forall k :: NoDash(randomSuffix(k))
    ensures DebugTokens(text, conversationId, randomSuffix).value[i].id
      != DebugTokens(text, conversationId, randomSuffix).value[j].id
  {
    var ts := DebugTokens(text, conversationId, randomSuffix).value;
    var p := conversationId + "-";
    var a := NatToString(i) + "-" + randomSuffix(i);
    var b := NatToString(j) + "-" + randomSuffix(j);
    assert ts[i].id == p + a;
    assert ts[j].id == p + b;
    if ts[i].id == ts[j].id {
      assert a == (p + a)[|p|..];
      assert b == (p + b)[|p|..];
      DashSplitUnique(NatToString(i), randomSuffix(i), NatToString(j), randomSuffix(j));
      ParseNatToString(i);
      ParseNatToString(j);
      assert false;
    }
  }

  predicate NoDash(s: string) {
    forall k :: 0 <= k < |s| ==> s[k] != '-'
  }

  /** A digit string followed by '-' and a dash-free tail is read back
      uniquely. */
  lemma {:induction false} DashSplitUnique(x: string, xs: string, y: string, ys: string)
    requires AllDigits(x) && AllDigits(y) && NoDash(xs) && NoDash(ys)
    requires x + "-" + xs == y + "-" + ys
    ensures x == y
  {
    var u := x + "-" + xs;
    assert u[|x|] == '-' && forall k :: 0 <= k < |x| ==> u[k] == x[k];
    assert u[|y|] == '-' && forall k :: 0 <= k < |y| ==> u[k] == y[k];
    FirstDash(u, |x|, |y|);
    assert x == u[..|x|];
    assert y == u[..|y|];
  }

  /** Two positions that each hold the first '-' of `u` coincide. */
  lemma FirstDash(u: string, n: nat, m: nat)
    requires n < |u| && m < |u| && u[n] == '-' && u[m] == '-'
    requires forall k :: 0 <= k < n ==> u[k] != '-'
    requires forall k :: 0 <= k < m ==> u[k] != '-'
    ensures n == m
  {
  }

  /** The recording must run at least 3 seconds before it can be stopped. */
  const MinRecordingSec: real := 3.0

  /** `canStopRecording`, which enables the stop button. */
  predicate CanStopRecording(durationSec: real) {
    durationSec >= MinRecordingSec
  }

  /** `handleStopRecording`'s guard: whether the handler goes on to upload
      (true) or returns at once (false). */
  function StopProceeds(durationSec: real): (proceeds: bool)
    ensures !proceeds <==> durationSec < 3.0
  {
    !(durationSec < MinRecordingSec)
  }

  /** The button and the handler agree: stopping does anything exactly when
      the button is enabled. */
  lemma StopGateAgrees(durationSec: real)
    ensures StopProceeds(durationSec) <==> CanStopRecording(durationSec)
  {
  }
}
