/** The analysed-speech data model: tags on tokens and segments, the metrics
    summary, coaching issues, the analysis payload and the session record
    (src/mock/sessionTypes.ts). */
module SessionTypes {
  import opened Optional

  /** The nine tag kinds of the closed enumeration. Records that enter from
      the backend are cast to this type without a check, so a kind outside
      the enumeration survives as `Unrecognised` with its original name. */
  datatype TagKind =
    | Filler | Fast | Slow | LongPause | Hedging
    | ComplexSentence | UnclearPoint | GoodEmphasis | Structure
    | Unrecognised(name: string)

  /** The wire name of a tag kind. */
  function KindName(k: TagKind): string {
    match k
    case Filler => "filler"
    case Fast => "fast"
    case Slow => "slow"
    case LongPause => "long_pause"
    case Hedging => "hedging"
    case ComplexSentence => "complex_sentence"
    case UnclearPoint => "unclear_point"
    case GoodEmphasis => "good_emphasis"
    case Structure => "structure"
    case Unrecognised(name) => name
  }

  /** The kind a wire name denotes: a name of the enumeration gives its
      kind, any other string is kept verbatim. */
  function ParseTagKind(s: string): (k: TagKind)
    ensures KindName(k) == s
    ensures k.Unrecognised? <==> !IsKnownKindName(s)
  {
    if s == "filler" then Filler
    else if s == "fast" then Fast
    else if s == "slow" then Slow
    else if s == "long_pause" then LongPause
    else if s == "hedging" then Hedging
    else if s == "complex_sentence" then ComplexSentence
    else if s == "unclear_point" then UnclearPoint
    else if s == "good_emphasis" then GoodEmphasis
    else if s == "structure" then Structure
    else Unrecognised(s)
  }

  predicate IsKnownKindName(s: string) {
    s in {"filler", "fast", "slow", "long_pause", "hedging",
          "complex_sentence", "unclear_point", "good_emphasis", "structure"}
  }

  /** A kind as the parser produces it: `Unrecognised` only for names
      outside the enumeration. */
  predicate WellFormedKind(k: TagKind) {
    k.Unrecognised? ==> !IsKnownKindName(k.name)
  }

  /** Parsing a well-formed kind's name gives the kind back. */
  lemma ParseKindName(k: TagKind)
    requires WellFormedKind(k)
    ensures ParseTagKind(KindName(k)) == k
  {
  }

  datatype Severity = Low | Medium | High

  /** The free-form `data` payload of a tag, carried verbatim. */
  datatype Payload = Payload(json: string)

  /** `labelText` is the source's `label` field (`label` is a Dafny keyword). */
  datatype Tag = Tag(id: string, kind: TagKind, severity: Severity, labelText: string, data: Option<Payload>)

  /** A word with its offsets in milliseconds. The source declares the
      offsets optional; every producer in the core sets them. */
  datatype Token = Token(id: string, startMs: int, endMs: int, text: string, tags: seq<Tag>)

  datatype SegmentKind = Speech | Pause

  datatype Segment = Segment(
    id: string,
    startMs: int,
    endMs: int,
    kind: SegmentKind,
    text: string,
    tokens: Option<seq<Token>>,
    tags: seq<Tag>)

  datatype Metrics = Metrics(
    durationSec: real,
    totalWords: int,
    avgWpm: real,
    fillerCount: int,
    fillerPerMinute: real,
    avgHeartRate: Option<real>,
    peakHeartRate: Option<real>,
    movementScore: Option<real>,
    stressSpeedIndex: Option<real>)

  /** A coaching finding. Its kind is one of `filler_cluster`,
      `fast_segment`, `slow_segment`, `long_pause`, `hedging`, `structure`,
      `clarity`; the core never inspects it, so it is kept as its name. */
  datatype Issue = Issue(
    id: string,
    kind: string,
    severity: Severity,
    message: string,
    segmentIds: seq<string>,
    tokenIds: Option<seq<string>>)

  datatype Analysis = Analysis(segments: seq<Segment>, metrics: Metrics, issues: seq<Issue>)

  /** The session record. `mode` (`practice`|`live`), `context`
      (`pitch`|`interview`|`meeting`|`exam`|`language_practice`|`other`) and
      `analysisStatus` (`pending`|`processing`|`ready`|`failed`) reach the
      core through unchecked casts and are kept as their names; `createdAt`
      is the instant `new Date(createdAt).getTime()` denotes. */
  datatype Session = Session(
    id: string,
    userId: string,
    title: string,
    mode: string,
    context: string,
    createdAt: int,
    startedAt: Option<string>,
    endedAt: Option<string>,
    durationSec: Option<real>,
    audioUrl: Option<string>,
    analysisStatus: string,
    analysis: Option<Analysis>)

  /** `tags.some(t => t.kind === k)`. */
  predicate HasKind(tags: seq<Tag>, k: TagKind) {
    exists i :: 0 <= i < |tags| && tags[i].kind == k
  }

  /** `tags.filter(t => t.kind === k).length`. */
  function CountKind(tags: seq<Tag>, k: TagKind): (n: nat)
    ensures n <= |tags|
  {
    if tags == [] then 0
    else (if tags[0].kind == k then 1 else 0) + CountKind(tags[1..], k)
  }

  /** The count is positive exactly when some tag has the kind. */
  lemma {:induction false} CountKindPositive(tags: seq<Tag>, k: TagKind)
    ensures CountKind(tags, k) > 0 <==> HasKind(tags, k)
  {
    if tags != [] {
      CountKindPositive(tags[1..], k);
      if HasKind(tags[1..], k) {
        var i :| 0 <= i < |tags[1..]| && tags[1..][i].kind == k;
        assert tags[i + 1].kind == k;
      }
      if HasKind(tags, k) && tags[0].kind != k {
        var i :| 0 <= i < |tags| && tags[i].kind == k;
        assert tags[1..][i - 1].kind == k;
      }
    }
  }

  /** `tags.find(t => t.kind === k)`: the first tag of kind `k`. */
  function FindKind(tags: seq<Tag>, k: TagKind): (r: Option<Tag>)
    ensures r.None? <==> !HasKind(tags, k)
    ensures r.Some? ==> exists i :: 0 <= i < |tags| && tags[i] == r.value && r.value.kind == k
                          && forall j :: 0 <= j < i ==> tags[j].kind != k
  {
    if tags == [] then None
    else if tags[0].kind == k then Some(tags[0])
    else
      assert forall i :: 1 <= i < |tags| ==> tags[i] == tags[1..][i - 1];
      var r := FindKind(tags[1..], k);
      assert r.Some? ==> exists i :: 1 <= i < |tags| && tags[i] == r.value && r.value.kind == k
                          && forall j :: 0 <= j < i ==> tags[j].kind != k by {
        if r.Some? {
          var i :| 0 <= i < |tags[1..]| && tags[1..][i] == r.value && r.value.kind == k
                   && forall j :: 0 <= j < i ==> tags[1..][j].kind != k;
          assert tags[i + 1] == r.value;
        }
      }
      r
  }

  /** `CountKind` read from the end, to match folds that consume a list from its end. */
  lemma {:induction false} CountKindLast(tags: seq<Tag>, k: TagKind)
    requires tags != []
    ensures CountKind(tags, k) == CountKind(tags[..|tags| - 1], k) + (if tags[|tags| - 1].kind == k then 1 else 0)
  {
    if |tags| > 1 {
      assert tags[1..][..|tags[1..]| - 1] == tags[..|tags| - 1][1..];
      CountKindLast(tags[1..], k);
    }
  }
}
