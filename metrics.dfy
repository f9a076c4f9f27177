/** Metrics derivation (src/utils/metrics.ts): duration, word count, words
    per minute, filler count and fillers per minute recomputed from the
    segments and tokens, overriding whatever metrics were reported. */
module Metrics {
  import opened Optional
  import opened JsText
  import opened SessionTypes

  /** `countWordsInText`: the length of `text.trim().split(/\s+/)`, or 0 for
      blank text; this is the number of white-space separated words. */
  function CountWordsInText(text: string): (n: nat)
    ensures n == |Words(text)|
    ensures n == 0 <==> IsBlank(text)
  {
    var trimmed := Trim(text);
    WordsEmptyIffBlank(text);
    if trimmed == [] then 0
    else
      SplitOfTrimIsWords(text);
      |SplitWs(trimmed)|
  }

  /** `countWordsInSegment`: pauses have no words; a speech segment counts
      its tokens when it has a non-empty token list, otherwise the words of
      its text. */
  function CountWordsInSegment(seg: Segment): (n: nat)
    ensures seg.kind == Pause ==> n == 0
    ensures seg.kind == Speech && seg.tokens.Some? && seg.tokens.value != [] ==> n == |seg.tokens.value|
    ensures seg.kind == Speech && (seg.tokens.None? || seg.tokens.value == []) ==> n == |Words(seg.text)|
  {
    if seg.kind == Pause then 0
    else if seg.tokens.Some? && |seg.tokens.value| > 0 then |seg.tokens.value|
    else CountWordsInText(seg.text)
  }

  /** The filler tags on a token list, summed token by token. */
  function TokenFillers(tokens: seq<Token>): (n: nat)
    ensures tokens == [] ==> n == 0
  {
    if tokens == [] then 0
    else CountKind(tokens[0].tags, Filler) + TokenFillers(tokens[1..])
  }

  /** `countFillersInSegment`: the `filler` tags on the tokens of a speech
      segment; the segment's own tags never count. */
  function CountFillersInSegment(seg: Segment): (n: nat)
    ensures seg.kind == Pause || seg.tokens.None? ==> n == 0
    ensures seg.kind == Speech && seg.tokens.Some? ==> n == TokenFillers(seg.tokens.value)
  {
    if seg.kind == Pause || seg.tokens.None? then 0
    else TokenFillers(seg.tokens.value)
  }

  /** The smallest `startMs` of a non-empty segment list. */
  function MinStart(segs: seq<Segment>): (m: int)
    requires segs != []
    ensures forall i :: 0 <= i < |segs| ==> m <= segs[i].startMs
    ensures exists i :: 0 <= i < |segs| && m == segs[i].startMs
  {
    if |segs| == 1 then segs[0].startMs
    else
      var rest := MinStart(segs[1..]);
      assert forall i :: 1 <= i < |segs| ==> segs[i] == segs[1..][i - 1];
      if segs[0].startMs < rest then segs[0].startMs else rest
  }

  /** The largest `endMs` of a segment list, where the fold starts from 0
      (so the result is never negative). */
  function MaxEnd(segs: seq<Segment>): (m: int)
    ensures m >= 0
    ensures forall i :: 0 <= i < |segs| ==> segs[i].endMs <= m
    ensures m == 0 || exists i :: 0 <= i < |segs| && m == segs[i].endMs
  {
    if segs == [] then 0
    else
      var rest := MaxEnd(segs[1..]);
      assert forall i :: 1 <= i < |segs| ==> segs[i] == segs[1..][i - 1];
      if segs[0].endMs > rest then segs[0].endMs else rest
  }

  /** `computeDurationSec`: the span from the earliest start to the latest
      end, in seconds, when it is positive; otherwise the fallback (0 when
      there is none). */
  function ComputeDurationSec(segs: seq<Segment>, fallbackSec: Option<real>): (d: real)
    ensures segs != [] && MaxEnd(segs) > MinStart(segs) ==>
              d > 0.0 && d * 1000.0 == (MaxEnd(segs) - MinStart(segs)) as real
    ensures segs == [] || MaxEnd(segs) <= MinStart(segs) ==> d == fallbackSec.GetOr(0.0)
  {
    if segs == [] then fallbackSec.GetOr(0.0)
    else
      var minStart := MinStart(segs);
      var maxEnd := MaxEnd(segs);
      if maxEnd <= minStart then fallbackSec.GetOr(0.0)
      else (maxEnd - minStart) as real / 1000.0
  }

  /** Sum of the per-segment word counts. */
  function TotalWords(segs: seq<Segment>): (n: nat)
    ensures segs == [] ==> n == 0
  {
    if segs == [] then 0 else CountWordsInSegment(segs[0]) + TotalWords(segs[1..])
  }

  /** Sum of the per-segment filler counts. */
  function TotalFillers(segs: seq<Segment>): (n: nat)
    ensures segs == [] ==> n == 0
  {
    if segs == [] then 0 else CountFillersInSegment(segs[0]) + TotalFillers(segs[1..])
  }

  /** `rate` is `count` events per minute over `durationSec` seconds, with
      the rate 0 for a non-positive duration. */
  predicate IsPerMinute(rate: real, count: int, durationSec: real) {
    && (durationSec > 0.0 ==> rate * durationSec == count as real * 60.0)
    && (durationSec <= 0.0 ==> rate == 0.0)
  }

  /** `(count / durationSec) * 60` when the duration is positive, else 0. */
  function PerMinute(count: nat, durationSec: real): (r: real)
    ensures IsPerMinute(r, count, durationSec)
    ensures r >= 0.0
  {
    if durationSec > 0.0 then (count as real / durationSec) * 60.0 else 0.0
  }

  /** `fillerCount / (durationSec / 60)` when the duration is positive, else 0. */
  function FillersPerMinute(count: nat, durationSec: real): (r: real)
    ensures IsPerMinute(r, count, durationSec)
    ensures r >= 0.0
  {
    if durationSec > 0.0 then count as real / (durationSec / 60.0) else 0.0
  }

  /** The metrics block `withDerivedMetrics` writes: the five derived
      values replace the reported ones, the optional sensor metrics stay. */
  function DerivedMetrics(reported: Metrics, segments: seq<Segment>, fallbackSec: Option<real>): Metrics {
    var durationSec := ComputeDurationSec(segments, fallbackSec);
    var totalWords := TotalWords(segments);
    var fillerCount := TotalFillers(segments);
    reported.(
      durationSec := durationSec,
      totalWords := totalWords,
      avgWpm := PerMinute(totalWords, durationSec),
      fillerCount := fillerCount,
      fillerPerMinute := FillersPerMinute(fillerCount, durationSec))
  }

  /** `withDerivedMetrics`: a session without analysis is returned as is;
      otherwise its metrics are recomputed and the derived duration is also
      stored on the session. */
  function WithDerivedMetrics(session: Session): Session {
    match session.analysis
    case None => session
    case Some(analysis) =>
      var metrics := DerivedMetrics(analysis.metrics, analysis.segments, session.durationSec);
      session.(
        durationSec := Some(metrics.durationSec),
        analysis := Some(analysis.(metrics := metrics)))
  }

  /** The metrics of an analysis agree with its segments and tokens. */
  predicate MetricsMatchSegments(a: Analysis, fallbackSec: Option<real>) {
    var d := ComputeDurationSec(a.segments, fallbackSec);
    && a.metrics.durationSec == d
    && a.metrics.totalWords == TotalWords(a.segments)
    && a.metrics.fillerCount == TotalFillers(a.segments)
    && IsPerMinute(a.metrics.avgWpm, a.metrics.totalWords, d)
    && IsPerMinute(a.metrics.fillerPerMinute, a.metrics.fillerCount, d)
  }

  /** A session without analysis comes back unchanged. */
  lemma NoAnalysisUnchanged(session: Session)
    requires session.analysis.None?
    ensures WithDerivedMetrics(session) == session
  {
  }

  /** The derived metrics block agrees with the segments it came from. */
  lemma DerivedMetricsMatch(reported: Metrics, segments: seq<Segment>, fallbackSec: Option<real>)
    ensures MetricsMatchSegments(Analysis(segments, DerivedMetrics(reported, segments, fallbackSec), []), fallbackSec)
  {
  }

  /** With an analysis, the derived session carries metrics consistent with
      its segments and records the derived duration on the session. */
  lemma DerivedMetricsConsistent(session: Session)
    requires session.analysis.Some?
    ensures WithDerivedMetrics(session).analysis.Some?
    ensures MetricsMatchSegments(WithDerivedMetrics(session).analysis.value, session.durationSec)
    ensures WithDerivedMetrics(session).durationSec == Some(WithDerivedMetrics(session).analysis.value.metrics.durationSec)
  {
    var a := session.analysis.value;
    var m := DerivedMetrics(a.metrics, a.segments, session.durationSec);
    DerivedMetricsMatch(a.metrics, a.segments, session.durationSec);
    assert WithDerivedMetrics(session).analysis.value == a.(metrics := m);
  }

  /** The derivation keeps every other field: the session's own fields, the
      segments, the issues and the optional heart-rate, movement and stress
      metrics. */
  lemma DerivedMetricsPreserves(session: Session)
    requires session.analysis.Some?
    ensures WithDerivedMetrics(session).analysis.Some?
    ensures WithDerivedMetrics(session).(durationSec := session.durationSec, analysis := session.analysis) == session
    ensures WithDerivedMetrics(session).analysis.value.segments == session.analysis.value.segments
    ensures WithDerivedMetrics(session).analysis.value.issues == session.analysis.value.issues
    ensures WithDerivedMetrics(session).analysis.value.metrics.(durationSec := 0.0, totalWords := 0, avgWpm := 0.0,
              fillerCount := 0, fillerPerMinute := 0.0)
         == session.analysis.value.metrics.(durationSec := 0.0, totalWords := 0, avgWpm := 0.0,
              fillerCount := 0, fillerPerMinute := 0.0)
  {
  }

  /** Applying the derivation twice gives the same session as once. */
  lemma WithDerivedMetricsIdempotent(session: Session)
    ensures WithDerivedMetrics(WithDerivedMetrics(session)) == WithDerivedMetrics(session)
  {
    if session.analysis.Some? {
      var segs := session.analysis.value.segments;
      var once := WithDerivedMetrics(session);
      var d := ComputeDurationSec(segs, session.durationSec);
      assert once.durationSec == Some(d);
      assert ComputeDurationSec(segs, Some(d)) == d;
    }
  }

  /** Total words is the sum of the per-segment counts, and pauses add
      nothing: appending a segment adds exactly its own count. */
  lemma {:induction false} TotalWordsAppend(segs: seq<Segment>, seg: Segment)
    ensures TotalWords(segs + [seg]) == TotalWords(segs) + CountWordsInSegment(seg)
    ensures seg.kind == Pause ==> TotalWords(segs + [seg]) == TotalWords(segs)
  {
    if segs == [] {
      assert [] + [seg] == [seg];
    } else {
      assert (segs + [seg])[1..] == segs[1..] + [seg];
      TotalWordsAppend(segs[1..], seg);
    }
  }

  /** Fillers are counted on tokens only: a segment-level `filler` tag,
      a pause segment and a token-less segment add nothing. */
  lemma {:induction false} TotalFillersAppend(segs: seq<Segment>, seg: Segment)
    ensures TotalFillers(segs + [seg]) == TotalFillers(segs) + CountFillersInSegment(seg)
    ensures seg.kind == Pause || seg.tokens.None? ==> TotalFillers(segs + [seg]) == TotalFillers(segs)
  {
    if segs == [] {
      assert [] + [seg] == [seg];
    } else {
      assert (segs + [seg])[1..] == segs[1..] + [seg];
      TotalFillersAppend(segs[1..], seg);
    }
  }

  /** Segment-level tags never change the filler count. */
  lemma SegmentTagsIgnored(seg: Segment, tags: seq<Tag>)
    ensures CountFillersInSegment(seg.(tags := tags)) == CountFillersInSegment(seg)
  {
  }

  /** The filler count is the number of `filler` tags over all tokens. */
  lemma {:induction false} TokenFillersAppend(tokens: seq<Token>, t: Token)
    ensures TokenFillers(tokens + [t]) == TokenFillers(tokens) + CountKind(t.tags, Filler)
  {
    if tokens == [] {
      assert [] + [t] == [t];
    } else {
      assert (tokens + [t])[1..] == tokens[1..] + [t];
      TokenFillersAppend(tokens[1..], t);
    }
  }
}
