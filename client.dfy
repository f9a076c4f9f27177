/** The mapping from the backend's JSON records to the internal session model
    (src/api/client.ts): the `transform*` functions and the record built by
    `fetchLiveSession`. The HTTP exchange itself is not modelled. */
module ApiClient {
  import opened Optional
  import opened SessionTypes

  /** A JSON field that may be missing, `null`, or present. */
  datatype Nullable<T> = Missing | Null | Present(value: T) {
    /** `field ?? undefined`: both missing and `null` become absent. */
    function OrUndefined(): (r: Option<T>)
      ensures r.Some? <==> Present?
      ensures Present? ==> r.value == value
    {
      if Present? then Some(value) else None
    }
  }

  datatype ApiTag = ApiTag(id: string, kind: string, severity: Option<Severity>, labelText: Option<string>, data: Option<Payload>)

  /** The token's `tags` is declared required, yet read through `?? []`. */
  datatype ApiToken = ApiToken(id: string, startMs: int, endMs: int, text: string, tags: Option<seq<ApiTag>>)

  /** The segment's `kind` is declared `'speech' | 'pause'` but arrives
      unchecked, so it is kept as its name. */
  datatype ApiSegment = ApiSegment(
    id: string,
    startMs: int,
    endMs: int,
    kind: string,
    text: string,
    tokens: Option<seq<ApiToken>>,
    tags: Option<seq<ApiTag>>)

  datatype ApiMetrics = ApiMetrics(
    durationSec: real,
    totalWords: int,
    avgWpm: real,
    fillerCount: int,
    fillerPerMinute: real,
    avgHeartRate: Nullable<real>,
    peakHeartRate: Nullable<real>,
    movementScore: Nullable<real>,
    stressSpeedIndex: Nullable<real>)

  datatype ApiIssue = ApiIssue(
    id: string,
    kind: string,
    severity: Severity,
    message: string,
    segmentIds: seq<string>,
    tokenIds: Option<seq<string>>)

  /** The analysis payload; the analysed-session response has the same shape. */
  datatype ApiAnalysis = ApiAnalysis(segments: seq<ApiSegment>, metrics: Option<ApiMetrics>, issues: Option<seq<ApiIssue>>)

  datatype ApiLiveSessionResponse = ApiLiveSessionResponse(
    id: string,
    userId: string,
    title: string,
    mode: string,
    context: string,
    createdAt: int,
    startedAt: string,
    endedAt: Option<string>,
    durationSec: real,
    audioUrl: Option<string>,
    analysisStatus: string,
    analysis: Option<ApiAnalysis>)

  // ---------------------------------------------------------------------
  // Transforms

  /** `transformTag`: the kind name is parsed without validation, a missing
      severity becomes `low`, a missing label becomes the kind's name. */
  function TransformTag(a: ApiTag): (t: Tag)
    ensures t.id == a.id && t.data == a.data
    ensures KindName(t.kind) == a.kind && WellFormedKind(t.kind)
    ensures t.severity == a.severity.GetOr(Low)
    ensures a.labelText.None? ==> t.labelText == a.kind
    ensures a.labelText.Some? ==> t.labelText == a.labelText.value
  {
    Tag(a.id, ParseTagKind(a.kind), a.severity.GetOr(Low), a.labelText.GetOr(a.kind), a.data)
  }

  /** `(tags ?? []).map(transformTag)`. */
  function TransformTags(tags: Option<seq<ApiTag>>): (r: seq<Tag>)
    ensures tags.None? ==> r == []
    ensures tags.Some? ==> |r| == |tags.value| && forall i :: 0 <= i < |r| ==> r[i] == TransformTag(tags.value[i])
  {
    var s := tags.GetOr([]);
    seq(|s|, i requires 0 <= i < |s| => TransformTag(s[i]))
  }

  /** `transformToken`: offsets and text are copied, tags transformed. */
  function TransformToken(a: ApiToken): (t: Token)
    ensures t.id == a.id && t.startMs == a.startMs && t.endMs == a.endMs && t.text == a.text
    ensures t.tags == TransformTags(a.tags)
  {
    Token(a.id, a.startMs, a.endMs, a.text, TransformTags(a.tags))
  }

  function TransformTokens(tokens: Option<seq<ApiToken>>): (r: seq<Token>)
    ensures tokens.None? ==> r == []
    ensures tokens.Some? ==> |r| == |tokens.value| && forall i :: 0 <= i < |r| ==> r[i] == TransformToken(tokens.value[i])
  {
    var s := tokens.GetOr([]);
    seq(|s|, i requires 0 <= i < |s| => TransformToken(s[i]))
  }

  /** `transformSegment`: a `pause` segment drops any tokens; every other
      kind becomes a speech segment whose token list is always present. */
  function TransformSegment(a: ApiSegment): (s: Segment)
    ensures s.id == a.id && s.startMs == a.startMs && s.endMs == a.endMs && s.text == a.text
    ensures s.tags == TransformTags(a.tags)
    ensures s.kind == Pause <==> a.kind == "pause"
    ensures s.kind == Pause ==> s.tokens.None?
    ensures s.kind == Speech ==> s.tokens == Some(TransformTokens(a.tokens))
  {
    if a.kind == "pause" then
      Segment(a.id, a.startMs, a.endMs, Pause, a.text, None, TransformTags(a.tags))
    else
      Segment(a.id, a.startMs, a.endMs, Speech, a.text, Some(TransformTokens(a.tokens)), TransformTags(a.tags))
  }

  function TransformSegments(segs: seq<ApiSegment>): (r: seq<Segment>)
    ensures |r| == |segs| && forall i :: 0 <= i < |r| ==> r[i] == TransformSegment(segs[i])
  {
    seq(|segs|, i requires 0 <= i < |segs| => TransformSegment(segs[i]))
  }

  /** `transformMetrics`: without metrics, the five required figures are
      zero and the optional ones absent; otherwise `null` optionals become
      absent and everything else is copied. */
  function TransformMetrics(a: Option<ApiMetrics>): (m: Metrics)
    ensures a.None? ==> m == Metrics(0.0, 0, 0.0, 0, 0.0, None, None, None, None)
    ensures a.Some? ==> && m.durationSec == a.value.durationSec && m.totalWords == a.value.totalWords
                        && m.avgWpm == a.value.avgWpm && m.fillerCount == a.value.fillerCount
                        && m.fillerPerMinute == a.value.fillerPerMinute
                        && m.avgHeartRate == a.value.avgHeartRate.OrUndefined()
                        && m.peakHeartRate == a.value.peakHeartRate.OrUndefined()
                        && m.movementScore == a.value.movementScore.OrUndefined()
                        && m.stressSpeedIndex == a.value.stressSpeedIndex.OrUndefined()
  {
    match a
    case None => Metrics(0.0, 0, 0.0, 0, 0.0, None, None, None, None)
    case Some(x) =>
      Metrics(x.durationSec, x.totalWords, x.avgWpm, x.fillerCount, x.fillerPerMinute,
              x.avgHeartRate.OrUndefined(), x.peakHeartRate.OrUndefined(),
              x.movementScore.OrUndefined(), x.stressSpeedIndex.OrUndefined())
  }

  /** `transformIssue`: a field-by-field copy (the kind is an unchecked cast). */
  function TransformIssue(a: ApiIssue): (i: Issue)
    ensures i.id == a.id && i.kind == a.kind && i.severity == a.severity && i.message == a.message
    ensures i.segmentIds == a.segmentIds && i.tokenIds == a.tokenIds
  {
    Issue(a.id, a.kind, a.severity, a.message, a.segmentIds, a.tokenIds)
  }

  function TransformIssues(issues: Option<seq<ApiIssue>>): (r: seq<Issue>)
    ensures issues.None? ==> r == []
    ensures issues.Some? ==> |r| == |issues.value| && forall i :: 0 <= i < |r| ==> r[i] == TransformIssue(issues.value[i])
  {
    var s := issues.GetOr([]);
    seq(|s|, i requires 0 <= i < |s| => TransformIssue(s[i]))
  }

  /** `transformAnalysis`. */
  function TransformAnalysis(a: ApiAnalysis): (r: Analysis)
    ensures r.segments == TransformSegments(a.segments)
    ensures r.metrics == TransformMetrics(a.metrics)
    ensures r.issues == TransformIssues(a.issues)
  {
    Analysis(TransformSegments(a.segments), TransformMetrics(a.metrics), TransformIssues(a.issues))
  }

  /** The session `fetchLiveSession` builds: an empty user id, mode or
      context falls back to `user-live`, `practice` and `other`; the rest is
      copied and the analysis transformed when present. */
  function LiveSessionFromResponse(d: ApiLiveSessionResponse): (s: Session)
    ensures s.id == d.id && s.title == d.title && s.createdAt == d.createdAt
    ensures s.userId == (if d.userId == "" then "user-live" else d.userId)
    ensures s.mode == (if d.mode == "" then "practice" else d.mode)
    ensures s.context == (if d.context == "" then "other" else d.context)
    ensures s.startedAt == Some(d.startedAt) && s.endedAt == d.endedAt
    ensures s.durationSec == Some(d.durationSec) && s.audioUrl == d.audioUrl
    ensures s.analysisStatus == d.analysisStatus
    ensures s.analysis.Some? <==> d.analysis.Some?
    ensures d.analysis.Some? ==> s.analysis.value == TransformAnalysis(d.analysis.value)
  {
    Session(
      d.id,
      if d.userId == "" then "user-live" else d.userId,
      d.title,
      if d.mode == "" then "practice" else d.mode,
      if d.context == "" then "other" else d.context,
      d.createdAt,
      Some(d.startedAt),
      d.endedAt,
      Some(d.durationSec),
      d.audioUrl,
      d.analysisStatus,
      match d.analysis case Some(a) => Some(TransformAnalysis(a)) case None => None)
  }

  // ---------------------------------------------------------------------
  // Shape of transformed data

  /** The shape every transformed segment has: a pause carries no token
      list, a speech segment always carries one, and every tag kind is as
      the parser produces it. */
  predicate NormalisedSegment(s: Segment) {
    && (s.kind == Pause <==> s.tokens.None?)
    && (forall t :: t in s.tags ==> WellFormedKind(t.kind))
    && (s.tokens.Some? ==> forall tok :: tok in s.tokens.value ==> forall t :: t in tok.tags ==> WellFormedKind(t.kind))
  }

  predicate NormalisedAnalysis(a: Analysis) {
    && (forall s :: s in a.segments ==> NormalisedSegment(s))
  }

  /** Every analysis the client produces is normalised. */
  lemma TransformAnalysisNormalised(a: ApiAnalysis)
    ensures NormalisedAnalysis(TransformAnalysis(a))
  {
    var r := TransformAnalysis(a);
    forall s | s in r.segments ensures NormalisedSegment(s) {
      var i :| 0 <= i < |r.segments| && r.segments[i] == s;
      TransformSegmentNormalised(a.segments[i]);
    }
  }

  lemma TransformSegmentNormalised(a: ApiSegment)
    ensures NormalisedSegment(TransformSegment(a))
  {
    var s := TransformSegment(a);
    if s.tokens.Some? {
      forall tok | tok in s.tokens.value
        ensures forall t :: t in tok.tags ==> WellFormedKind(t.kind)
      {
        var j :| 0 <= j < |s.tokens.value| && s.tokens.value[j] == tok;
        forall t | t in tok.tags ensures WellFormedKind(t.kind) {
          var k :| 0 <= k < |tok.tags| && tok.tags[k] == t;
        }
      }
    }
    forall t | t in s.tags ensures WellFormedKind(t.kind) {
      var k :| 0 <= k < |s.tags| && s.tags[k] == t;
    }
  }

  // ---------------------------------------------------------------------
  // Inverses: internal records written back in the wire shape

  function ToApiTag(t: Tag): ApiTag {
    ApiTag(t.id, KindName(t.kind), Some(t.severity), Some(t.labelText), t.data)
  }

  function ToApiToken(t: Token): ApiToken {
    ApiToken(t.id, t.startMs, t.endMs, t.text, Some(seq(|t.tags|, i requires 0 <= i < |t.tags| => ToApiTag(t.tags[i]))))
  }

  function ToApiSegment(s: Segment): ApiSegment {
    var tokens := s.tokens.GetOr([]);
    ApiSegment(
      s.id, s.startMs, s.endMs,
      if s.kind == Pause then "pause" else "speech",
      s.text,
      if s.tokens.None? then None else Some(seq(|tokens|, i requires 0 <= i < |tokens| => ToApiToken(tokens[i]))),
      Some(seq(|s.tags|, i requires 0 <= i < |s.tags| => ToApiTag(s.tags[i]))))
  }

  function ToNullable(x: Option<real>): Nullable<real> {
    if x.Some? then Present(x.value) else Missing
  }

  function ToApiMetrics(m: Metrics): ApiMetrics {
    ApiMetrics(m.durationSec, m.totalWords, m.avgWpm, m.fillerCount, m.fillerPerMinute,
               ToNullable(m.avgHeartRate), ToNullable(m.peakHeartRate),
               ToNullable(m.movementScore), ToNullable(m.stressSpeedIndex))
  }

  function ToApiIssue(i: Issue): ApiIssue {
    ApiIssue(i.id, i.kind, i.severity, i.message, i.segmentIds, i.tokenIds)
  }

  function ToApiAnalysis(a: Analysis): ApiAnalysis {
    ApiAnalysis(
      seq(|a.segments|, i requires 0 <= i < |a.segments| => ToApiSegment(a.segments[i])),
      Some(ToApiMetrics(a.metrics)),
      Some(seq(|a.issues|, i requires 0 <= i < |a.issues| => ToApiIssue(a.issues[i]))))
  }

  /** Reading back a written tag gives the tag, when its kind is one the
      parser can produce. */
  lemma TagRoundTrip(t: Tag)
    requires WellFormedKind(t.kind)
    ensures TransformTag(ToApiTag(t)) == t
  {
    ParseKindName(t.kind);
  }

  lemma TagsRoundTrip(tags: seq<Tag>)
    requires forall t :: t in tags ==> WellFormedKind(t.kind)
    ensures TransformTags(Some(seq(|tags|, i requires 0 <= i < |tags| => ToApiTag(tags[i])))) == tags
  {
    var r := TransformTags(Some(seq(|tags|, i requires 0 <= i < |tags| => ToApiTag(tags[i]))));
    forall i | 0 <= i < |tags| ensures r[i] == tags[i] {
      TagRoundTrip(tags[i]);
    }
  }

  lemma TokenRoundTrip(t: Token)
    requires forall g :: g in t.tags ==> WellFormedKind(g.kind)
    ensures TransformToken(ToApiToken(t)) == t
  {
    TagsRoundTrip(t.tags);
  }

  /** Reading back a written segment gives the segment, for every segment
      of the normalised shape. */
  lemma SegmentRoundTrip(s: Segment)
    requires NormalisedSegment(s)
    ensures TransformSegment(ToApiSegment(s)) == s
  {
    TagsRoundTrip(s.tags);
    if s.tokens.Some? {
      var tokens := s.tokens.value;
      var written := seq(|tokens|, i requires 0 <= i < |tokens| => ToApiToken(tokens[i]));
      var r := TransformTokens(Some(written));
      forall i | 0 <= i < |tokens| ensures r[i] == tokens[i] {
        assert tokens[i] in tokens;
        TokenRoundTrip(tokens[i]);
      }
      assert r == tokens;
    }
  }

  /** Metrics survive the round trip (absent optionals become missing fields). */
  lemma MetricsRoundTrip(m: Metrics)
    ensures TransformMetrics(Some(ToApiMetrics(m))) == m
  {
  }

  lemma IssueRoundTrip(i: Issue)
    ensures TransformIssue(ToApiIssue(i)) == i
  {
  }

  /** A normalised analysis is recovered exactly from its wire form. */
  lemma AnalysisRoundTrip(a: Analysis)
    requires NormalisedAnalysis(a)
    ensures TransformAnalysis(ToApiAnalysis(a)) == a
  {
    var w := ToApiAnalysis(a);
    var r := TransformAnalysis(w);
    forall i | 0 <= i < |a.segments| ensures r.segments[i] == a.segments[i] {
      assert a.segments[i] in a.segments;
      SegmentRoundTrip(a.segments[i]);
    }
    assert r.segments == a.segments;
    assert r.issues == a.issues;
  }

  /** An analysis survives the round trip exactly when it is normalised, so
      the normalised analyses are exactly what `transformAnalysis` yields. */
  lemma NormalisedIffRoundTrip(a: Analysis)
    ensures NormalisedAnalysis(a) <==> TransformAnalysis(ToApiAnalysis(a)) == a
  {
    if NormalisedAnalysis(a) {
      AnalysisRoundTrip(a);
    } else {
      TransformAnalysisNormalised(ToApiAnalysis(a));
    }
  }

  /** A live response whose user id, mode and context are set, and whose
      analysis is present, maps to a session carrying them unchanged. */
  lemma LiveSessionKeepsSetFields(d: ApiLiveSessionResponse)
    requires d.userId != "" && d.mode != "" && d.context != ""
    ensures var s := LiveSessionFromResponse(d);
      s.userId == d.userId && s.mode == d.mode && s.context == d.context
  {
  }
}
