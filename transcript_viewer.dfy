/** The transcript legend (src/components/sessions/TranscriptViewer.tsx): the
    number of segment-level highlights of each kind. */
module TranscriptViewer {
  import opened Optional
  import opened SessionTypes

  datatype Counts = Counts(fillers: nat, fast: nat, slow: nat, pauses: nat)

  /** `session.analysis?.segments ?? []`. */
  function SegmentsOf(session: Session): (segs: seq<Segment>)
    ensures session.analysis.None? ==> segs == []
    ensures session.analysis.Some? ==> segs == session.analysis.value.segments
  {
    match session.analysis
    case Some(a) => a.segments
    case None => []
  }

  /** Whether a segment counts as a highlighted pause: a pause segment
      with at least one `long_pause` tag. */
  predicate IsMarkedPause(seg: Segment) {
    seg.kind == Pause && HasKind(seg.tags, LongPause)
  }

  /** The number of marked pauses. */
  function MarkedPauses(segs: seq<Segment>): nat {
    if segs == [] then 0
    else MarkedPauses(segs[..|segs| - 1]) + (if IsMarkedPause(segs[|segs| - 1]) then 1 else 0)
  }

  /** The number of segment-level tags of kind `k` over all segments. */
  function SegmentTags(segs: seq<Segment>, k: TagKind): nat {
    if segs == [] then 0 else SegmentTags(segs[..|segs| - 1], k) + CountKind(segs[|segs| - 1].tags, k)
  }

  /** What the legend shows for a segment list. */
  function ExpectedCounts(segs: seq<Segment>): Counts {
    Counts(SegmentTags(segs, Filler), SegmentTags(segs, Fast), SegmentTags(segs, Slow), MarkedPauses(segs))
  }

  /** The `highlightCounts` memo: one pass over the segments, bumping the
      pause count once per marked pause and a tag count per segment tag. */
  method HighlightCounts(segments: seq<Segment>) returns (counts: Counts)
    ensures counts == ExpectedCounts(segments)
  {
    counts := Counts(0, 0, 0, 0);
    var i := 0;
    while i < |segments|
      invariant 0 <= i <= |segments|
      invariant counts == ExpectedCounts(segments[..i])
    {
      var seg := segments[i];
      if seg.kind == Pause && HasKind(seg.tags, LongPause) {
        counts := counts.(pauses := counts.pauses + 1);
      }
      counts := CountSegmentTags(counts, seg.tags);
      var prefix := segments[..i + 1];
      assert prefix[..i] == segments[..i] && prefix[i] == seg;
      assert ExpectedCounts(prefix).pauses == ExpectedCounts(segments[..i]).pauses + (if IsMarkedPause(seg) then 1 else 0);
      i := i + 1;
    }
    assert segments[..i] == segments;
  }

  /** `seg.tags.forEach(...)`: one bump per `filler`, `fast` or `slow` tag. */
  method CountSegmentTags(counts0: Counts, tags: seq<Tag>) returns (counts: Counts)
    ensures counts == counts0.(fillers := counts0.fillers + CountKind(tags, Filler),
                               fast := counts0.fast + CountKind(tags, Fast),
                               slow := counts0.slow + CountKind(tags, Slow))
  {
    counts := counts0;
    var j := 0;
    while j < |tags|
      invariant 0 <= j <= |tags|
      invariant counts.fillers == counts0.fillers + CountKind(tags[..j], Filler)
      invariant counts.fast == counts0.fast + CountKind(tags[..j], Fast)
      invariant counts.slow == counts0.slow + CountKind(tags[..j], Slow)
      invariant counts.pauses == counts0.pauses
    {
      counts := CountTag(counts, tags[j]);
      CountKindSnoc(tags, j, Filler);
      CountKindSnoc(tags, j, Fast);
      CountKindSnoc(tags, j, Slow);
      j := j + 1;
    }
    assert tags[..j] == tags;
  }

  /** The callback for one tag. */
  method CountTag(counts0: Counts, tag: Tag) returns (counts: Counts)
    ensures counts.fillers == counts0.fillers + (if tag.kind == Filler then 1 else 0)
    ensures counts.fast == counts0.fast + (if tag.kind == Fast then 1 else 0)
    ensures counts.slow == counts0.slow + (if tag.kind == Slow then 1 else 0)
    ensures counts.pauses == counts0.pauses
  {
    counts := counts0;
    if tag.kind == Filler {
      counts := counts.(fillers := counts.fillers + 1);
    }
    if tag.kind == Fast {
      counts := counts.(fast := counts.fast + 1);
    }
    if tag.kind == Slow {
      counts := counts.(slow := counts.slow + 1);
    }
  }

  lemma CountKindSnoc(tags: seq<Tag>, j: nat, k: TagKind)
    requires j < |tags|
    ensures CountKind(tags[..j + 1], k) == CountKind(tags[..j], k) + (if tags[j].kind == k then 1 else 0)
  {
    var prefix := tags[..j + 1];
    assert prefix[..j] == tags[..j] && prefix[j] == tags[j];
    CountKindLast(prefix, k);
  }

  /** The number of segment-level tags over all segments. */
  function TotalTags(segs: seq<Segment>): nat {
    if segs == [] then 0 else TotalTags(segs[..|segs| - 1]) + |segs[|segs| - 1].tags|
  }

  /** Every segment tag is counted at most once, under its own kind. */
  lemma {:induction false} CountKindsBounded(tags: seq<Tag>)
    ensures CountKind(tags, Filler) + CountKind(tags, Fast) + CountKind(tags, Slow) <= |tags|
  {
    if tags != [] {
      CountKindsBounded(tags[1..]);
    }
  }

  /** The three tag counts together never exceed the segment tags, and
      neither does the pause count, since each marked pause carries a tag. */
  lemma {:induction false} CountsBounded(segs: seq<Segment>)
    ensures var c := ExpectedCounts(segs);
      c.fillers + c.fast + c.slow <= TotalTags(segs) && c.pauses <= TotalTags(segs)
  {
    if segs != [] {
      var last := segs[|segs| - 1];
      CountsBounded(segs[..|segs| - 1]);
      CountKindsBounded(last.tags);
    }
  }

  /** A session without analysis shows zero for every count. */
  lemma NoAnalysisNoCounts(session: Session)
    requires session.analysis.None?
    ensures ExpectedCounts(SegmentsOf(session)) == Counts(0, 0, 0, 0)
  {
  }

  /** Token-level tags are not counted: replacing every segment's tokens
      leaves the counts unchanged. */
  lemma {:induction false} TokensIgnored(segs: seq<Segment>, others: seq<Segment>)
    requires |others| == |segs|
    requires forall i :: 0 <= i < |segs| ==> others[i] == segs[i].(tokens := others[i].tokens)
    ensures ExpectedCounts(others) == ExpectedCounts(segs)
  {
    if segs != [] {
      var n := |segs|;
      TokensIgnored(segs[..n - 1], others[..n - 1]);
      assert others[n - 1].tags == segs[n - 1].tags && others[n - 1].kind == segs[n - 1].kind;
    }
  }

  /** A marked pause counts once however many `long_pause` tags it has. */
  lemma MarkedPauseCountsOnce(segs: seq<Segment>, seg: Segment)
    requires IsMarkedPause(seg)
    ensures MarkedPauses(segs + [seg]) == MarkedPauses(segs) + 1
  {
    assert (segs + [seg])[..|segs|] == segs;
  }
}
