# RhetmoWeb core, modelled in Dafny

RhetmoWeb is a speech-coaching web client. A recorded session is analysed by a backend into
transcript segments (speech or pause). Each segment carries tags such as `filler`, `fast`,
`long_pause` or `hedging`, and speech segments carry word tokens with their own tags. The
client derives metrics from these segments and normalises the backend's JSON records. It
places tag events on a rhythm timeline and groups events that lie close together. It also
ranks coaching issues by severity, classifies tones and counts highlights. Mock fixtures
are built by spreading words evenly over a time span.

This project models those transformations and proves what the code promises about them.
There is one module per source file:

- `Metrics` (src/utils/metrics.ts)
- `ApiClient` (src/api/client.ts)
- `RhythmMap`
- `SessionInsights`
- `IssuesPanel`
- `TranscriptViewer`
- `MockSession`
- `SessionsData`
- `MetricsPanel`
- `PracticePage`

Shared vocabulary sits in `SessionTypes` (src/mock/sessionTypes.ts). The JavaScript built-ins
the code relies on are small modules of their own, each with its properties proved:

- `JsText`: `trim`, `split(/\s+/)`, `filter(Boolean)`.
- `JsNumber`: `Math.round`, truncating `%`, number-to-string, `padStart`.
- `StableSort`: `Array.prototype.sort`, which is stable.
- `Optional`: `??` defaults.

Forms follow the code:

- Expression-only code becomes functions and lemmas.
- The `forEach`/`push` loops of RhythmMap's `events` and `groupedEvents` memos become
  methods with `while` loops. Each is proved equal to a reference function.
- The counter bumps of TranscriptViewer's `highlightCounts` also become a method with
  `while` loops, proved equal to a reference function.

Number types:

- Milliseconds and counts are `int`/`nat`.
- Ratios, durations and scores are `real`, which is exact. The exceptions are the two `formatDuration` helpers, which take whole seconds as `int` (see "## Left out").
- `Math.round(x)` is `Floor(x + 1/2)`.
- JavaScript's `%` truncates toward zero. It is written out explicitly (`JsRem`).

## Model

| member | source | states |
|---|---|---|
| SessionTypes.ParseTagKind | src/api/client.ts:90 | the unchecked `as Tag['kind']` cast keeps the kind's name; it is unrecognised exactly when the name is not one of the nine kinds |
| SessionTypes.ParseKindName | src/mock/sessionTypes.ts:3-12 | reading back the name of any of the nine kinds gives that kind |
| SessionTypes.CountKindPositive | src/components/sessions/TranscriptViewer.tsx:36 | `filter(kind).length > 0` holds exactly when `some(kind)` holds |
| SessionTypes.FindKind | src/components/sessions/RhythmMap.tsx:60 | `find` returns nothing iff no tag has the kind; otherwise it returns a tag of that kind with no earlier tag of that kind |
| SessionTypes.HasKind | src/components/sessions/RhythmMap.tsx:28 | `tags.some(t => t.kind === k)`: some tag has kind `k`; `CountKindPositive` and `FindKind` are stated against it |
| SessionTypes.CountKind | src/components/sessions/TranscriptViewer.tsx:37-40 | `tags.filter(t => t.kind === k).length`: never more than the number of tags; `CountKindPositive` ties it to `HasKind` |
| SessionTypes.CountKindLast | src/utils/metrics.ts:18 | the filter count read from the end: the prefix's count plus one if the last tag matches |
| Optional.GetOr | src/utils/metrics.ts:24 | `x ?? d` is the value when present, `d` when absent |
| JsNumber.Round | src/mock/mockSession.ts:27 | `Math.round(x)` is the integer `r` with `r - 1/2 <= x < r + 1/2` |
| JsNumber.JsRem | src/components/sessions/MetricsPanel.tsx:7 | JavaScript's `%` by a positive divisor: the Euclidean remainder for `a >= 0`, a value in `(-b, 0]` for negative `a` |
| JsNumber.ParseNatToString | src/pages/PracticePage.tsx:11 | the decimal string of `n` is all digits and reads back to `n` |
| JsNumber.ParsePadded | src/pages/PracticePage.tsx:11 | `padStart(width, '0')` of the decimal string still reads back to `n` |
| JsText.Trim | src/utils/metrics.ts:4 | the trimmed text is empty or starts and ends with a non-whitespace character |
| JsText.TrimStrips | src/utils/metrics.ts:4 | `trim` returns the slice of the text between a leading and a trailing run of white space, and returns `""` exactly when the text is all white space |
| JsText.Words | src/mock/mockSession.ts:22 | the words of a text are nonempty and contain no whitespace |
| JsText.FilteredSplitIsWords | src/mock/mockSession.ts:22 | `text.trim().split(/\s+/).filter(Boolean)` is exactly the word list |
| JsText.SplitOfTrimIsWords | src/pages/PracticePage.tsx:63 | for non-blank text, `trim().split(/\s+/)` without the filter is already the word list |
| JsText.WordsEmptyIffBlank | src/utils/metrics.ts:5 | the word list is empty exactly when the text is blank |
| StableSort.SortBySorted | src/components/sessions/IssuesPanel.tsx:18-21 | the comparator sort orders its output by key |
| StableSort.InsertPermutes | src/components/sessions/IssuesPanel.tsx:18 | inserting adds exactly the one element: a permutation step |
| StableSort.SortByStable | src/components/sessions/IssuesPanel.tsx:18-21 | elements of equal key keep their input order |
| StableSort.StableSortUnique | src/components/sessions/IssuesPanel.tsx:18-21 | any sorted list agreeing with the input at every key is the sort's result |
| Metrics.CountWordsInText | src/utils/metrics.ts:3-7 | the word count is the number of whitespace-separated words; 0 exactly for blank text |
| Metrics.CountWordsInSegment | src/utils/metrics.ts:9-13 | pause segments count 0; speech counts its tokens when there are any, otherwise its text's words |
| Metrics.CountFillersInSegment | src/utils/metrics.ts:15-21 | pause and token-less segments count 0; otherwise the token-level `filler` tags |
| Metrics.SegmentTagsIgnored | src/utils/metrics.ts:15-21 | segment-level tags never change the filler count |
| Metrics.TokenFillersAppend | src/utils/metrics.ts:17-20 | the token reduce adds each token's `filler` tag count |
| Metrics.MinStart | src/utils/metrics.ts:25-31 | the fold's `minStart` is a segment's start and no segment starts earlier |
| Metrics.MaxEnd | src/utils/metrics.ts:25-31 | the fold's `maxEnd` (seeded with 0) is at least every end and is 0 or some segment's end |
| Metrics.ComputeDurationSec | src/utils/metrics.ts:23-38 | `(maxEnd - minStart)/1000` when `maxEnd > minStart`, else the fallback or 0 |
| Metrics.TotalWords | src/utils/metrics.ts:45 | the segment reduce of word counts; 0 without segments; `TotalWordsAppend` gives its step |
| Metrics.TotalFillers | src/utils/metrics.ts:47 | the segment reduce of filler counts; 0 without segments; `TotalFillersAppend` gives its step |
| Metrics.TotalWordsAppend | src/utils/metrics.ts:45 | the total adds each segment's word count; a pause adds nothing |
| Metrics.TotalFillersAppend | src/utils/metrics.ts:47 | the total adds each segment's filler count; pause and token-less segments add nothing |
| Metrics.PerMinute | src/utils/metrics.ts:46 | `avgWpm` is `words/duration*60` for positive duration and 0 otherwise; it is never negative |
| Metrics.FillersPerMinute | src/utils/metrics.ts:48 | `fillerPerMinute` is `fillers/(duration/60)` for positive duration and 0 otherwise |
| Metrics.DerivedMetrics | src/utils/metrics.ts:44-62 | the metrics record with the five derived values written over the reported ones; `DerivedMetricsMatch` and `DerivedMetricsPreserves` state what it keeps and what it sets |
| Metrics.WithDerivedMetrics | src/utils/metrics.ts:40-64 | the session with derived metrics and duration; its properties are `NoAnalysisUnchanged`, `DerivedMetricsConsistent`, `DerivedMetricsPreserves` and `WithDerivedMetricsIdempotent` |
| Metrics.NoAnalysisUnchanged | src/utils/metrics.ts:41 | a session without analysis is returned as it is |
| Metrics.DerivedMetricsMatch | src/utils/metrics.ts:43-48 | the derived record agrees with its segments on all five recomputed fields |
| Metrics.DerivedMetricsConsistent | src/utils/metrics.ts:40-64 | after derivation the metrics match the segments and the session's `durationSec` is the derived duration |
| Metrics.DerivedMetricsPreserves | src/utils/metrics.ts:50-64 | every other session field, the segments, the issues and the optional metric fields are carried over unchanged |
| Metrics.WithDerivedMetricsIdempotent | src/utils/metrics.ts:40-64 | deriving twice gives the same session as deriving once |
| ApiClient.Nullable.OrUndefined | src/api/client.ts:156-159 | `?? undefined` makes both a missing field and `null` absent and keeps a value |
| ApiClient.TransformTag | src/api/client.ts:87-95 | id and data are copied; the kind keeps its name; severity defaults to `low`; the label defaults to the kind |
| ApiClient.TransformTags | src/api/client.ts:106 | a missing tag list becomes `[]`; a present one is normalised element by element, in order |
| ApiClient.TransformToken | src/api/client.ts:100-108 | timing and text are copied; tags are normalised |
| ApiClient.TransformTokens | src/api/client.ts:131 | a missing token list becomes `[]`; a present one is normalised in order |
| ApiClient.TransformSegment | src/api/client.ts:113-134 | a segment is a pause exactly when the input kind is `pause`; pauses have no tokens; speech gets the normalised token list; timing, text and tags are carried through |
| ApiClient.TransformSegments | src/api/client.ts:182 | the segment count and order are preserved |
| ApiClient.TransformMetrics | src/api/client.ts:139-161 | missing metrics become five zeros and no optional fields; present metrics copy the five core fields and drop `null` optional fields |
| ApiClient.TransformIssue | src/api/client.ts:166-175 | every field is copied verbatim |
| ApiClient.TransformIssues | src/api/client.ts:184 | missing issues become `[]`; present ones are copied in order |
| ApiClient.TransformAnalysis | src/api/client.ts:180-186 | segments, metrics and issues are each produced by their own transform |
| ApiClient.LiveSessionFromResponse | src/api/client.ts:208-221 | `userId`, `mode` and `context` default when empty; `endedAt` turns `null` into absent; analysis is transformed exactly when present |
| ApiClient.LiveSessionKeepsSetFields | src/api/client.ts:210-213 | fields that are already set are kept as given |
| ApiClient.TransformSegmentNormalised | src/api/client.ts:113-134 | a transformed segment is normalised: well-formed tag kinds and tokens on every speech segment |
| ApiClient.TransformAnalysisNormalised | src/api/client.ts:180-186 | a transformed analysis is normalised |
| ApiClient.TagRoundTrip | src/api/client.ts:87-95 | an internal tag sent as a record and transformed back is unchanged |
| ApiClient.TokenRoundTrip | src/api/client.ts:100-108 | the same round trip for tokens |
| ApiClient.SegmentRoundTrip | src/api/client.ts:113-134 | the same round trip for normalised segments |
| ApiClient.MetricsRoundTrip | src/api/client.ts:139-161 | the same round trip for metrics |
| ApiClient.IssueRoundTrip | src/api/client.ts:166-175 | the same round trip for issues |
| ApiClient.AnalysisRoundTrip | src/api/client.ts:180-186 | the same round trip for normalised analyses |
| ApiClient.NormalisedIffRoundTrip | src/api/client.ts:180-186 | an analysis survives the round trip exactly when it is normalised |
| RhythmMap.TotalDuration | src/components/sessions/RhythmMap.tsx:46 | the last segment's end, or 0 without segments |
| RhythmMap.PauseEvents | src/components/sessions/RhythmMap.tsx:59-71 | a pause segment yields one event exactly when it has a `long_pause` tag; the event sits at the segment start and takes the first such tag's severity and label |
| RhythmMap.TagEvent | src/components/sessions/RhythmMap.tsx:74-101 | a segment tag yields one event exactly when its kind is `filler`, `hedging`, `unclear_point`, `complex_sentence` or `good_emphasis`; the event sits at the segment's midpoint and has the mapped kind |
| RhythmMap.TokenTagEvent | src/components/sessions/RhythmMap.tsx:106-116 | a token tag yields a filler event at the token's start exactly when it is a `filler` tag |
| RhythmMap.SegmentEvents | src/components/sessions/RhythmMap.tsx:55-119 | the reference for one segment: its pause event, then its segment-tag events, then its token-tag events |
| RhythmMap.EventsOf | src/components/sessions/RhythmMap.tsx:55-119 | the reference event list, segment by segment; `EventCount` and `EventsNameTheirSegment` are stated against it |
| RhythmMap.Events | src/components/sessions/RhythmMap.tsx:51-121 | the memo's reference value: no events at total duration 0, otherwise as many events as pause events plus qualifying segment tags plus token filler tags |
| RhythmMap.ExtractEvents | src/components/sessions/RhythmMap.tsx:51-121 | the `forEach`/`push` loops compute the reference event list, which is empty when the total duration is 0 |
| RhythmMap.PushSegmentEvents | src/components/sessions/RhythmMap.tsx:55-119 | one segment appends its pause event, then its segment-tag events, then its token-tag events |
| RhythmMap.PushPauseEvent | src/components/sessions/RhythmMap.tsx:59-71 | the pause check appends exactly the pause events |
| RhythmMap.PushTagEvents | src/components/sessions/RhythmMap.tsx:74-101 | the segment-tag loop appends each tag's events in order |
| RhythmMap.PushTagEvent | src/components/sessions/RhythmMap.tsx:75-100 | the two checks append exactly that tag's events |
| RhythmMap.PushTokenEvents | src/components/sessions/RhythmMap.tsx:104-118 | the token loop appends each token's filler events in order |
| RhythmMap.PushTokenTagEvents | src/components/sessions/RhythmMap.tsx:106-117 | one token's tag loop appends its filler events in order |
| RhythmMap.QualifyingTags | src/components/sessions/RhythmMap.tsx:74-101 | the number of segment tags that produce an event is at most the number of tags |
| RhythmMap.TagEventsCount | src/components/sessions/RhythmMap.tsx:74-101 | exactly the `filler`, `hedging`, `unclear_point`, `complex_sentence` and `good_emphasis` segment tags produce one event each; every other tag, including an unrecognised kind, produces none |
| RhythmMap.TokenTagEventsCount | src/components/sessions/RhythmMap.tsx:106-117 | non-filler token tags produce nothing |
| RhythmMap.TokenEventsCount | src/components/sessions/RhythmMap.tsx:104-118 | the token events number the token `filler` tags |
| RhythmMap.EventCount | src/components/sessions/RhythmMap.tsx:54-121 | event count = pause events + qualifying segment tags + token filler tags |
| RhythmMap.SegmentEventsCarryId | src/components/sessions/RhythmMap.tsx:68 | every event of a segment carries that segment's id |
| RhythmMap.EventsNameTheirSegment | src/components/sessions/RhythmMap.tsx:54-121 | every event names a segment of the input |
| RhythmMap.SegmentEventsAsWritten | src/components/sessions/RhythmMap.tsx:104-105 | as written, a speech segment without `tokens` throws; every other segment gives the corrected events |
| RhythmMap.TokenlessSpeechThrows | src/components/sessions/RhythmMap.tsx:104-105 | a concrete speech segment with text and no token list makes the as-written memo throw |
| RhythmMap.AsWrittenAgrees | src/components/sessions/RhythmMap.tsx:51-121 | when every speech segment has tokens, the as-written and corrected memos agree |
| RhythmMap.SortedEvents | src/components/sessions/RhythmMap.tsx:369 | the copied, sorted events are a permutation of the events, ordered by time; equal times keep their order |
| RhythmMap.GroupEvents | src/components/sessions/RhythmMap.tsx:367-386 | no groups at total 0; otherwise the groups concatenate to the sorted events, none is empty, gaps within a group are below 2 and each gap between groups is at least 2 |
| RhythmMap.Gap | src/components/sessions/RhythmMap.tsx:376 | for a positive total, the gap is below 2 exactly when `(time - previous) * 100 < 2 * total`, and it is non-negative for ordered times |
| RhythmMap.AddEvent | src/components/sessions/RhythmMap.tsx:372-383 | one step joins the last group below a gap of 2, otherwise opens a new group; grouping stays well formed |
| RhythmMap.WellGroupedPush | src/components/sessions/RhythmMap.tsx:382 | a new group opened at a gap of at least 2 keeps the grouping well formed |
| RhythmMap.WellGroupedExtend | src/components/sessions/RhythmMap.tsx:377-378 | joining the last group at a gap below 2 keeps the grouping well formed |
| RhythmMap.FlattenSnoc | src/components/sessions/RhythmMap.tsx:382 | pushing a group appends its events to the concatenation |
| RhythmMap.FlattenExtendLast | src/components/sessions/RhythmMap.tsx:378 | pushing onto the last group appends the event to the concatenation |
| RhythmMap.GetPaceState | src/components/sessions/RhythmMap.tsx:26-32 | pause segments are `pause`; otherwise `fast` wins over `slow`; with neither it is `normal` (each case iff) |
| RhythmMap.GetStructureState | src/components/sessions/RhythmMap.tsx:37-43 | pause segments are `pause`; a strong tag wins over a weak tag; with neither it is `neutral` (each case iff) |
| RhythmMap.FastTagSettlesPace | src/components/sessions/RhythmMap.tsx:29 | adding a `fast` tag to a speech segment makes it `fast`, whatever else it has |
| RhythmMap.StrongTagSettlesStructure | src/components/sessions/RhythmMap.tsx:40 | adding a `structure` or `good_emphasis` tag makes a speech segment `strong` |
| RhythmMap.FormatTime | src/components/sessions/RhythmMap.tsx:237-242 | the `formatTime` label; `FormatTimeMinutes` and `FormatTimeSeconds` state its two shapes |
| RhythmMap.FormatTimeMinutes | src/components/sessions/RhythmMap.tsx:237-242 | from one minute on, the label is `min:ss`, and it reads back to the whole seconds |
| RhythmMap.FormatTimeSeconds | src/components/sessions/RhythmMap.tsx:237-242 | below one minute, the label is the whole seconds followed by `s` |
| IssuesPanel.SeverityRank | src/components/sessions/IssuesPanel.tsx:19 | `high` 0, `medium` 1, `low` 2, each iff |
| IssuesPanel.SortBySeverity | src/components/sessions/IssuesPanel.tsx:18-21 | the sorted copy is a permutation, most severe first, with each severity's issues in input order |
| IssuesPanel.SortBySeverityIsBands | src/components/sessions/IssuesPanel.tsx:18-21 | the sorted copy is exactly the high issues, then the medium ones, then the low ones |
| IssuesPanel.OfSeverity | src/components/sessions/IssuesPanel.tsx:18-21 | a band holds only issues of its severity |
| IssuesPanel.BandsWithKey | src/components/sessions/IssuesPanel.tsx:18-21 | the bands together select the same issues as the input at every rank |
| SessionInsights.SliceEnd | src/components/sessions/SessionInsights.tsx:83 | the end index of `slice(0, limit)` for any limit, negative limits counting from the end |
| SessionInsights.TopIssues | src/components/sessions/SessionInsights.tsx:79-84 | `min(limit, n)` issues for a non-negative limit, and always a prefix of the stable severity sort |
| SessionInsights.FocusIssues | src/components/sessions/SessionInsights.tsx:79-88 | the default limit 3 gives `min(3, n)` issues |
| SessionInsights.TopIssuesMostSevere | src/components/sessions/SessionInsights.tsx:80-82 | the selected issues run high before medium before low |
| SessionInsights.TopIssuesStable | src/components/sessions/SessionInsights.tsx:81-83 | within a severity, the selected issues are a prefix of that severity's input order |
| SessionInsights.PaceTone | src/components/sessions/SessionInsights.tsx:28-29 | above 175 is risk; above 160 up to 175, or below 140, is caution; 140 to 160 inclusive is positive (each iff) |
| SessionInsights.PaceBandConvex | src/components/sessions/SessionInsights.tsx:28-29 | the positive pace band has no holes |
| SessionInsights.FillerTone | src/components/sessions/SessionInsights.tsx:37 | above 4 is risk; above 2 up to 4 is caution; otherwise positive (each iff) |
| SessionInsights.CalmScore | src/components/sessions/SessionInsights.tsx:45 | an absent stress index reads as 0.5 |
| SessionInsights.CalmTone | src/components/sessions/SessionInsights.tsx:45-46 | above 0.7 is risk; above 0.55 is caution; otherwise positive; an absent index is positive |
| SessionInsights.DeriveInsights | src/components/sessions/SessionInsights.tsx:54-76 | exactly three insights: pace, fillers and calm, in that order, with their tones |
| SessionInsights.InsightDetailsMatchTones | src/components/sessions/SessionInsights.tsx:30-52 | each detail text agrees with its tone's band |
| TranscriptViewer.SegmentsOf | src/components/sessions/TranscriptViewer.tsx:29 | the analysis's segments, or `[]` without analysis |
| TranscriptViewer.ExpectedCounts | src/components/sessions/TranscriptViewer.tsx:34-42 | the reference counts: marked pauses and segment-level `filler`, `fast` and `slow` tags; `CountsBounded`, `TokensIgnored` and `NoAnalysisNoCounts` are stated against it |
| TranscriptViewer.HighlightCounts | src/components/sessions/TranscriptViewer.tsx:33-44 | the loops compute the reference counts: marked pauses, and segment-level `filler`, `fast` and `slow` tags |
| TranscriptViewer.CountSegmentTags | src/components/sessions/TranscriptViewer.tsx:37-41 | the inner loop adds the segment's `filler`, `fast` and `slow` tag counts and leaves the pause count alone |
| TranscriptViewer.CountTag | src/components/sessions/TranscriptViewer.tsx:38-40 | one tag bumps exactly the counter of its kind |
| TranscriptViewer.MarkedPauseCountsOnce | src/components/sessions/TranscriptViewer.tsx:36 | a pause segment with `long_pause` tags adds 1, however many such tags it has |
| TranscriptViewer.TokensIgnored | src/components/sessions/TranscriptViewer.tsx:35-42 | token-level tags never change the counts |
| TranscriptViewer.CountKindsBounded | src/components/sessions/TranscriptViewer.tsx:37-41 | a segment's three tag counts together are at most its tag count |
| TranscriptViewer.CountsBounded | src/components/sessions/TranscriptViewer.tsx:34-42 | the tag counts together, and the pause count, never exceed the total number of segment tags |
| TranscriptViewer.NoAnalysisNoCounts | src/components/sessions/TranscriptViewer.tsx:29-34 | without analysis every count is 0 |
| MockSession.TimedToken | src/mock/mockSession.ts:26-37 | token `i` has id `prefix + (i+1)`, the i-th word, the tags mapped at `i` or `[]`, and the rounded boundary times; the last ends at `endMs` |
| MockSession.CreateTimedTokens | src/mock/mockSession.ts:22-38 | one token per word of the trimmed text, in order, with the ids and tags above |
| MockSession.TimedTokensTiming | src/mock/mockSession.ts:23-29 | consecutive tokens are contiguous; the first starts at `round(startMs)`; the last ends at `endMs` |
| MockSession.TimedTokensOrdered | src/mock/mockSession.ts:23-29 | when `endMs >= startMs`, every token starts no later than it ends and starts never decrease |
| MockSession.TimedTokenIdsDistinct | src/mock/mockSession.ts:32 | token ids are pairwise distinct |
| MockSession.BlankTextNoTokens | src/mock/mockSession.ts:22 | blank text yields no tokens |
| MockSession.Boundary | src/mock/mockSession.ts:27 | `Math.round(startMs + index * step)`; `BoundaryNearest` and `BoundaryMonotone` state what it is |
| MockSession.BoundaryNearest | src/mock/mockSession.ts:27 | the token boundary is the integer nearest to `startMs + index * step`, halves rounding up |
| MockSession.BoundaryMonotone | src/mock/mockSession.ts:27 | rounded boundaries never decrease for a non-negative step |
| MockSession.LastStartInSpan | src/mock/mockSession.ts:24-27 | the last unrounded start lies within the span |
| MockSession.GetMockSessionById | src/mock/mockSession.ts:645-647 | nothing iff no fixture has the id; otherwise a fixture with that id and no earlier one |
| MockSession.LookupFindsFixture | src/mock/mockSession.ts:645-647 | with distinct ids, looking up a fixture's id finds that fixture |
| SessionsData.ListSessions | src/data/sessions.ts:6-11 | the sorted copy is a permutation of the fixtures with non-increasing `createdAt`; fixtures of equal timestamp keep their order |
| SessionsData.ListSessionsUnique | src/data/sessions.ts:8-10 | any such list is exactly the result |
| SessionsData.FetchSessionById | src/data/sessions.ts:13-15 | exactly the fixture lookup, which yields a fixture with the id when it yields one |
| MetricsPanel.FormatDuration | src/components/sessions/MetricsPanel.tsx:5-9 | the `{m}m {s}s` label; `FormatDurationReadsBack` proves what it spells |
| MetricsPanel.FormatDurationReadsBack | src/components/sessions/MetricsPanel.tsx:5-9 | for `s >= 0` the label is `{mins}m {secs}s` with `mins*60 + secs = s` and `0 <= secs < 60`, and both numbers read back |
| MetricsPanel.DurationLabel | src/components/sessions/MetricsPanel.tsx:32 | the duration cell of the rounded `durationSec`; `DurationLabelReadsBack` proves what it spells |
| MetricsPanel.DurationLabelReadsBack | src/components/sessions/MetricsPanel.tsx:32 | the panel label reads back to the rounded `durationSec` |
| MetricsPanel.GetMovementTone | src/components/sessions/MetricsPanel.tsx:12-19 | below 0.3 is too little, above 0.7 is too much, and 0.3 to 0.7 inclusive is optimal (each iff) |
| MetricsPanel.MovementToneMonotone | src/components/sessions/MetricsPanel.tsx:15-19 | a larger score never gets a lower tone |
| MetricsPanel.ToneLabel | src/components/sessions/MetricsPanel.tsx:68 | the label is "Optimal" exactly for the optimal tone |
| MetricsPanel.MovementScore | src/components/sessions/MetricsPanel.tsx:22 | a missing movement score reads as 0.5 |
| MetricsPanel.PanelMovementTone | src/components/sessions/MetricsPanel.tsx:22-23 | a missing movement score shows as optimal |
| PracticePage.FormatDuration | src/pages/PracticePage.tsx:8-11 | the `mm:ss` label of whole seconds; `FormatDurationReadsBack` proves what it spells |
| PracticePage.FormatDurationReadsBack | src/pages/PracticePage.tsx:8-11 | for `s >= 0` the label is `mm:ss` with the seconds exactly two digits, the minutes at least two, and both read back to `s/60` and `s%60` |
| PracticePage.DebugTokenAt | src/pages/PracticePage.tsx:64-71 | token `i` spans `i*300` to `(i+1)*300-50`, has the i-th word, no tags, the conversation id and an id `conversationId-i-suffix` |
| PracticePage.DebugTokens | src/pages/PracticePage.tsx:42-71 | nothing for blank text; otherwise one token per word of the trimmed text, in order |
| PracticePage.DebugTokensLayout | src/pages/PracticePage.tsx:67-68 | every debug token lasts 250 ms and is followed by a 50 ms gap; the first starts at 0 |
| PracticePage.DebugTokenIdsDistinct | src/pages/PracticePage.tsx:65 | ids are pairwise distinct when the random suffixes contain no `-` |
| PracticePage.StopProceeds | src/pages/PracticePage.tsx:182-185 | stopping goes ahead exactly when the duration is at least 3 seconds |
| PracticePage.StopGateAgrees | src/pages/PracticePage.tsx:225 | the stop button is enabled exactly when stopping goes ahead |

## Left out

- Network I/O is not modelled. This covers the `fetch`/JSON exchanges of `fetchLiveSession` and `fetchAnalyzedSession`, the placeholder `checkRecordingStatus`, and the fetches in `handleDebugSubmit`. Only the record mapping inside `fetchLiveSession` is modelled.
- Timers and clocks are not modelled: the `delay` helper of src/data/sessions.ts, the `waitForAnalysis` polling loop, the triple-click timer and the recording hook. They depend on `Date.now`, `setTimeout` and `fetch`.
- `crypto.randomUUID()` and `Math.random()` ids are parameters: the conversation id is a string and the random suffix a function of the index. Distinctness of debug token ids is proved only for suffixes without `-`.
- `createdAt` is an integer timestamp. `Date` string parsing is not modelled.
- Rendering is not modelled: JSX, CSS class choices, hover geometry, tick layout and the static pages.
- Display formatting with `toFixed` and IEEE-754 floating point is not modelled. Ratios are exact reals, and the 2% gap is compared on reals.
- The literal fixture contents of `MOCK_SESSIONS` are not modelled. Lookups and listings take the fixture list as a parameter.
- Optional token times (`startMs?`, `endMs?`) are required integers. Every producer in the code sets them.
- JSON `null` and missing fields are one `Nullable` type. The `|| ''` on a pause's text is the identity on typed strings and is modelled as such.
- Copy-before-sort (`[...issues]`, `[...events]`, `[...MOCK_SESSIONS]`) is not modelled separately. On immutable sequences the caller's list cannot change, so "the input is not reordered" holds by construction and has no lemma.
- Tag `data` payloads are an opaque value that is copied.
- PracticePage.FormatDuration and MetricsPanel.FormatDuration take whole seconds as `int`. The metrics panel always passes `Math.round(durationSec)`. The practice page passes the recording timer's `state.duration`, which comes from the recording hook; that hook is not part of this model, and the timer is taken to count whole seconds. A fractional duration, which `toString()` would print with decimals (such as `00:3.5`), is not modelled. The stop gate (`StopProceeds`) takes the same duration as a `real`.
- The tag kind type can hold `Unrecognised("filler")`, a name of a known kind marked as unrecognised. No program value corresponds to it: `ParseTagKind` never produces it, and `WellFormedKind` excludes it. The round-trip and normalisation lemmas assume or prove `WellFormedKind`. The event and count lemmas hold for every kind value.
- The heart-rate and stress-index display conditions of the metrics panel are not modelled. They are rendering only.
- MockSession.TimedTokensOrdered: token starts are proved ordered only when `endMs >= startMs`.

## Findings

| source | as written | input that shows it | evidently intended | confidence | as-written member | corrected member |
|---|---|---|---|---|---|---|
| src/components/sessions/RhythmMap.tsx:104-105 | for a speech segment, `segment.tokens` is used without a default, and `tokens.forEach` throws when the optional field is absent | a speech segment with text and no `tokens` field, which the type admits and src/utils/metrics.ts:11 handles | treat absent tokens as `[]`, as src/utils/metrics.ts does | not executed | RhythmMap.SegmentEventsAsWritten, RhythmMap.TokenlessSpeechThrows | RhythmMap.ExtractEvents, RhythmMap.EventCount |
