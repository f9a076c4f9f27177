/** The session timeline (src/components/sessions/RhythmMap.tsx): event
    points extracted from segment and token tags, their clustering by the
    2%-of-duration gap rule, the pace and structure classifiers, and the
    time label. */
module RhythmMap {
  import opened Optional
  import opened SessionTypes
  import opened JsNumber
  import opened StableSort

  datatype EventKind = FillerEvent | PauseEvent | HedgingEvent | EmphasisEvent | UnclearEvent | ComplexEvent

  /** An event on the timeline; `labelText` is the source's `label`. */
  datatype EventPoint = EventPoint(
    id: string,
    timeMs: real,
    kind: EventKind,
    severity: Severity,
    labelText: string,
    segmentId: string)

  /** The last segment's end, or 0 without segments. */
  function TotalDuration(segs: seq<Segment>): (t: int)
    ensures segs == [] ==> t == 0
    ensures segs != [] ==> t == segs[|segs| - 1].endMs
  {
    if segs == [] then 0 else segs[|segs| - 1].endMs
  }

  /** The midpoint `start + (end - start) / 2` of a segment. */
  function Mid(seg: Segment): real {
    seg.startMs as real + (seg.endMs - seg.startMs) as real / 2.0
  }

  // ---------------------------------------------------------------------
  // Event extraction: the rules for one segment

  /** A pause segment with a `long_pause` tag gives one `pause` event at the
      segment's start, with the first such tag's severity and label. */
  function PauseEvents(seg: Segment): (r: seq<EventPoint>)
    ensures |r| <= 1
    ensures r != [] <==> seg.kind == Pause && HasKind(seg.tags, LongPause)
    ensures r != [] ==> && r[0].kind == PauseEvent && r[0].timeMs == seg.startMs as real
                        && r[0].segmentId == seg.id && r[0].id == seg.id + "-pause"
                        && var t := FindKind(seg.tags, LongPause).value;
                           r[0].severity == t.severity && r[0].labelText == t.labelText
  {
    if seg.kind == Pause then
      match FindKind(seg.tags, LongPause)
      case Some(t) => [EventPoint(seg.id + "-pause", seg.startMs as real, PauseEvent, t.severity, t.labelText, seg.id)]
      case None => []
    else []
  }

  /** The segment-tag kinds that produce an event, and the event kind each
      produces. */
  function SegmentTagEventKind(k: TagKind): Option<EventKind> {
    match k
    case Filler => Some(FillerEvent)
    case Hedging => Some(HedgingEvent)
    case UnclearPoint => Some(UnclearEvent)
    case ComplexSentence => Some(ComplexEvent)
    case GoodEmphasis => Some(EmphasisEvent)
    case _ => None
  }

  /** The events one segment-level tag pushes: one for `filler`, one for
      `hedging`, `unclear_point`, `complex_sentence` and `good_emphasis`,
      each at the segment's midpoint; none for any other kind. */
  function TagEvent(seg: Segment, tag: Tag): (r: seq<EventPoint>)
    ensures |r| <= 1
    ensures r != [] <==> SegmentTagEventKind(tag.kind).Some?
    ensures r != [] ==> && r[0].kind == SegmentTagEventKind(tag.kind).value
                        && r[0].timeMs == Mid(seg) && r[0].segmentId == seg.id
                        && r[0].id == seg.id + "-" + tag.id
                        && r[0].severity == tag.severity && r[0].labelText == tag.labelText
  {
    var e := EventPoint(seg.id + "-" + tag.id, Mid(seg), FillerEvent, tag.severity, tag.labelText, seg.id);
    (if tag.kind == Filler then [e] else [])
    + (if IsMarkKind(tag.kind) then [e.(kind := SegmentTagEventKind(tag.kind).value)] else [])
  }

  /** The four segment-tag kinds the second check pushes. */
  predicate IsMarkKind(k: TagKind) {
    k == Hedging || k == UnclearPoint || k == ComplexSentence || k == GoodEmphasis
  }

  /** The events of a prefix of a segment's tags, in tag order. */
  function TagEvents(seg: Segment, tags: seq<Tag>): seq<EventPoint> {
    if tags == [] then [] else TagEvents(seg, tags[..|tags| - 1]) + TagEvent(seg, tags[|tags| - 1])
  }

  /** A token-level `filler` tag gives a filler event at the token's start. */
  function TokenTagEvent(seg: Segment, tok: Token, tag: Tag): (r: seq<EventPoint>)
    ensures |r| <= 1
    ensures r != [] <==> tag.kind == Filler
    ensures r != [] ==> && r[0].kind == FillerEvent && r[0].timeMs == tok.startMs as real
                        && r[0].segmentId == seg.id && r[0].id == tok.id + "-" + tag.id
                        && r[0].severity == tag.severity && r[0].labelText == tag.labelText
  {
    if tag.kind == Filler
    then [EventPoint(tok.id + "-" + tag.id, tok.startMs as real, FillerEvent, tag.severity, tag.labelText, seg.id)]
    else []
  }

  function TokenTagEvents(seg: Segment, tok: Token, tags: seq<Tag>): seq<EventPoint> {
    if tags == [] then [] else TokenTagEvents(seg, tok, tags[..|tags| - 1]) + TokenTagEvent(seg, tok, tags[|tags| - 1])
  }

  function TokenEvents(seg: Segment, toks: seq<Token>): seq<EventPoint> {
    if toks == [] then []
    else TokenEvents(seg, toks[..|toks| - 1]) + TokenTagEvents(seg, toks[|toks| - 1], toks[|toks| - 1].tags)
  }

  /** The tokens whose tags are scanned: a speech segment's, none for a
      pause. A speech segment without a token list is read as having none
      (see `SegmentEventsAsWritten` for the code as written). */
  function SpeechTokens(seg: Segment): seq<Token> {
    if seg.kind == Speech then seg.tokens.GetOr([]) else []
  }

  /** All events of one segment, in push order. */
  function SegmentEvents(seg: Segment): seq<EventPoint> {
    PauseEvents(seg) + TagEvents(seg, seg.tags) + TokenEvents(seg, SpeechTokens(seg))
  }

  /** The events of a list of segments, in segment order. */
  function EventsOf(segs: seq<Segment>): seq<EventPoint> {
    if segs == [] then [] else EventsOf(segs[..|segs| - 1]) + SegmentEvents(segs[|segs| - 1])
  }

  /** The `events` memo: nothing when the total duration is 0. */
  function Events(segs: seq<Segment>): (r: seq<EventPoint>)
    ensures |r| == if TotalDuration(segs) == 0 then 0 else ExpectedEventCount(segs)
  {
    if TotalDuration(segs) == 0 then [] else EventCount(segs); EventsOf(segs)
  }

  /** The `events` memo as the loops compute it. */
  method ExtractEvents(segs: seq<Segment>) returns (list: seq<EventPoint>)
    ensures list == Events(segs)
  {
    list := [];
    if TotalDuration(segs) == 0 {
      return;
    }
    var i := 0;
    while i < |segs|
      invariant 0 <= i <= |segs|
      invariant list == EventsOf(segs[..i])
    {
      list := PushSegmentEvents(list, segs[i]);
      EventsOfSnoc(segs, i);
      i := i + 1;
    }
    assert segs[..i] == segs;
  }

  /** The body of the per-segment `forEach`: the long-pause event, then the
      segment-level tags, then the token-level tags. */
  method PushSegmentEvents(list0: seq<EventPoint>, segment: Segment) returns (list: seq<EventPoint>)
    ensures list == list0 + SegmentEvents(segment)
  {
    list := PushPauseEvent(list0, segment);
    list := PushTagEvents(list, segment);
    var tokens := if segment.kind == Speech then segment.tokens.GetOr([]) else [];
    assert tokens == SpeechTokens(segment);
    list := PushTokenEvents(list, segment, tokens);
    AppendAssoc(list0, PauseEvents(segment), TagEvents(segment, segment.tags), TokenEvents(segment, tokens));
  }

  /** The long-pause check of a pause segment. */
  method PushPauseEvent(list0: seq<EventPoint>, segment: Segment) returns (list: seq<EventPoint>)
    ensures list == list0 + PauseEvents(segment)
  {
    list := list0;
    if segment.kind == Pause {
      var pauseTag := FindKind(segment.tags, LongPause);
      if pauseTag.Some? {
        list := list + [EventPoint(segment.id + "-pause", segment.startMs as real, PauseEvent,
                                   pauseTag.value.severity, pauseTag.value.labelText, segment.id)];
      }
    }
  }

  /** `segment.tags.forEach(...)`. */
  method PushTagEvents(list0: seq<EventPoint>, segment: Segment) returns (list: seq<EventPoint>)
    ensures list == list0 + TagEvents(segment, segment.tags)
  {
    list := list0;
    var mid := segment.startMs as real + (segment.endMs - segment.startMs) as real / 2.0;
    assert mid == Mid(segment);
    var j := 0;
    while j < |segment.tags|
      invariant 0 <= j <= |segment.tags|
      invariant list == list0 + TagEvents(segment, segment.tags[..j])
    {
      var pushed := list;
      list := PushTagEvent(list, segment, mid, segment.tags[j]);
      TagEventsSnoc(segment, segment.tags, j);
      AppendStep(list0, TagEvents(segment, segment.tags[..j]), TagEvent(segment, segment.tags[j]), pushed, list);
      j := j + 1;
    }
    assert segment.tags[..j] == segment.tags;
  }

  /** The callback for one segment-level tag: the `filler` check, then the
      check for the four marker kinds. */
  method PushTagEvent(list0: seq<EventPoint>, segment: Segment, mid: real, tag: Tag) returns (list: seq<EventPoint>)
    requires mid == Mid(segment)
    ensures list == list0 + TagEvent(segment, tag)
  {
    list := list0;
    if tag.kind == Filler {
      list := list + [EventPoint(segment.id + "-" + tag.id, mid, FillerEvent, tag.severity, tag.labelText, segment.id)];
    }
    if IsMarkKind(tag.kind) {
      list := list + [EventPoint(segment.id + "-" + tag.id, mid, SegmentTagEventKind(tag.kind).value,
                                 tag.severity, tag.labelText, segment.id)];
    }
  }

  /** `tokens.forEach(token => token.tags.forEach(...))`. */
  method PushTokenEvents(list0: seq<EventPoint>, segment: Segment, tokens: seq<Token>) returns (list: seq<EventPoint>)
    ensures list == list0 + TokenEvents(segment, tokens)
  {
    list := list0;
    var k := 0;
    while k < |tokens|
      invariant 0 <= k <= |tokens|
      invariant list == list0 + TokenEvents(segment, tokens[..k])
    {
      var pushed := list;
      list := PushTokenTagEvents(list, segment, tokens[k]);
      TokenEventsSnoc(segment, tokens, k);
      AppendStep(list0, TokenEvents(segment, tokens[..k]), TokenTagEvents(segment, tokens[k], tokens[k].tags), pushed, list);
      k := k + 1;
    }
    assert tokens[..k] == tokens;
  }

  /** `token.tags.forEach(...)` for one token. */
  method PushTokenTagEvents(list0: seq<EventPoint>, segment: Segment, token: Token) returns (list: seq<EventPoint>)
    ensures list == list0 + TokenTagEvents(segment, token, token.tags)
  {
    list := list0;
    var m := 0;
    while m < |token.tags|
      invariant 0 <= m <= |token.tags|
      invariant list == list0 + TokenTagEvents(segment, token, token.tags[..m])
    {
      var tag := token.tags[m];
      var pushed := list;
      if tag.kind == Filler {
        list := list + [EventPoint(token.id + "-" + tag.id, token.startMs as real, FillerEvent,
                                   tag.severity, tag.labelText, segment.id)];
      }
      assert list == pushed + TokenTagEvent(segment, token, tag);
      TokenTagEventsSnoc(segment, token, token.tags, m);
      AppendStep(list0, TokenTagEvents(segment, token, token.tags[..m]), TokenTagEvent(segment, token, tag), pushed, list);
      m := m + 1;
    }
    assert token.tags[..m] == token.tags;
  }

  lemma AppendStep<T>(list0: seq<T>, done: seq<T>, step: seq<T>, pushed: seq<T>, list: seq<T>)
    requires pushed == list0 + done && list == pushed + step
    ensures list == list0 + (done + step)
  {
  }

  lemma AppendAssoc<T>(a: seq<T>, b: seq<T>, c: seq<T>, d: seq<T>)
    ensures ((a + b) + c) + d == a + ((b + c) + d)
  {
  }

  lemma EventsOfSnoc(segs: seq<Segment>, i: nat)
    requires i < |segs|
    ensures EventsOf(segs[..i + 1]) == EventsOf(segs[..i]) + SegmentEvents(segs[i])
  {
    assert segs[..i + 1][..i] == segs[..i];
  }

  lemma TagEventsSnoc(seg: Segment, tags: seq<Tag>, j: nat)
    requires j < |tags|
    ensures TagEvents(seg, tags[..j + 1]) == TagEvents(seg, tags[..j]) + TagEvent(seg, tags[j])
  {
    assert tags[..j + 1][..j] == tags[..j];
  }

  lemma TokenTagEventsSnoc(seg: Segment, tok: Token, tags: seq<Tag>, m: nat)
    requires m < |tags|
    ensures TokenTagEvents(seg, tok, tags[..m + 1]) == TokenTagEvents(seg, tok, tags[..m]) + TokenTagEvent(seg, tok, tags[m])
  {
    assert tags[..m + 1][..m] == tags[..m];
  }

  lemma TokenEventsSnoc(seg: Segment, toks: seq<Token>, k: nat)
    requires k < |toks|
    ensures TokenEvents(seg, toks[..k + 1]) == TokenEvents(seg, toks[..k]) + TokenTagEvents(seg, toks[k], toks[k].tags)
  {
    assert toks[..k + 1][..k] == toks[..k];
  }

  // ---------------------------------------------------------------------
  // What the events are

  /** Whether a segment-level tag produces an event. */
  predicate ProducesSegmentEvent(t: Tag) {
    SegmentTagEventKind(t.kind).Some?
  }

  /** The number of tags that produce a segment-tag event. */
  function QualifyingTags(tags: seq<Tag>): (n: nat)
    ensures n <= |tags|
  {
    if tags == [] then 0
    else QualifyingTags(tags[..|tags| - 1]) + (if ProducesSegmentEvent(tags[|tags| - 1]) then 1 else 0)
  }

  /** The number of `filler` tags over a token list. */
  function TokenFillerTags(toks: seq<Token>): nat {
    if toks == [] then 0 else TokenFillerTags(toks[..|toks| - 1]) + CountKind(toks[|toks| - 1].tags, Filler)
  }

  /** One segment's pause event (0 or 1), qualifying tags and token fillers. */
  function ExpectedSegmentEventCount(seg: Segment): nat {
    (if seg.kind == Pause && HasKind(seg.tags, LongPause) then 1 else 0)
    + QualifyingTags(seg.tags) + TokenFillerTags(SpeechTokens(seg))
  }

  function ExpectedEventCount(segs: seq<Segment>): nat {
    if segs == [] then 0 else ExpectedEventCount(segs[..|segs| - 1]) + ExpectedSegmentEventCount(segs[|segs| - 1])
  }

  lemma {:induction false} TagEventsCount(seg: Segment, tags: seq<Tag>)
    ensures |TagEvents(seg, tags)| == QualifyingTags(tags)
  {
    if tags != [] {
      TagEventsCount(seg, tags[..|tags| - 1]);
    }
  }

  lemma {:induction false} TokenTagEventsCount(seg: Segment, tok: Token, tags: seq<Tag>)
    ensures |TokenTagEvents(seg, tok, tags)| == CountKind(tags, Filler)
  {
    if tags != [] {
      TokenTagEventsCount(seg, tok, tags[..|tags| - 1]);
      CountKindLast(tags, Filler);
    }
  }

  lemma {:induction false} TokenEventsCount(seg: Segment, toks: seq<Token>)
    ensures |TokenEvents(seg, toks)| == TokenFillerTags(toks)
  {
    if toks != [] {
      TokenEventsCount(seg, toks[..|toks| - 1]);
      TokenTagEventsCount(seg, toks[|toks| - 1], toks[|toks| - 1].tags);
    }
  }

  /** The event count is the pause events plus the qualifying segment tags
      plus the token-level filler tags: no other tag yields an event. */
  lemma {:induction false} EventCount(segs: seq<Segment>)
    ensures |EventsOf(segs)| == ExpectedEventCount(segs)
  {
    if segs != [] {
      var seg := segs[|segs| - 1];
      EventCount(segs[..|segs| - 1]);
      TagEventsCount(seg, seg.tags);
      TokenEventsCount(seg, SpeechTokens(seg));
    }
  }

  /** Every event of a segment carries that segment's id. */
  lemma {:induction false} SegmentEventsCarryId(seg: Segment)
    ensures forall e :: e in SegmentEvents(seg) ==> e.segmentId == seg.id
  {
    TagEventsCarryId(seg, seg.tags);
    TokenEventsCarryId(seg, SpeechTokens(seg));
  }

  lemma {:induction false} TagEventsCarryId(seg: Segment, tags: seq<Tag>)
    ensures forall e :: e in TagEvents(seg, tags) ==> e.segmentId == seg.id
  {
    if tags != [] {
      TagEventsCarryId(seg, tags[..|tags| - 1]);
    }
  }

  lemma {:induction false} TokenTagEventsCarryId(seg: Segment, tok: Token, tags: seq<Tag>)
    ensures forall e :: e in TokenTagEvents(seg, tok, tags) ==> e.segmentId == seg.id
  {
    if tags != [] {
      TokenTagEventsCarryId(seg, tok, tags[..|tags| - 1]);
    }
  }

  lemma {:induction false} TokenEventsCarryId(seg: Segment, toks: seq<Token>)
    ensures forall e :: e in TokenEvents(seg, toks) ==> e.segmentId == seg.id
  {
    if toks != [] {
      TokenEventsCarryId(seg, toks[..|toks| - 1]);
      TokenTagEventsCarryId(seg, toks[|toks| - 1], toks[|toks| - 1].tags);
    }
  }

  /** Every event names a segment of the list it came from. */
  lemma {:induction false} EventsNameTheirSegment(segs: seq<Segment>)
    ensures forall e :: e in EventsOf(segs) ==> exists s :: s in segs && s.id == e.segmentId
  {
    if segs != [] {
      var init := segs[..|segs| - 1];
      var last := segs[|segs| - 1];
      EventsNameTheirSegment(init);
      SegmentEventsCarryId(last);
      forall e | e in EventsOf(segs) ensures exists s :: s in segs && s.id == e.segmentId {
        if e in EventsOf(init) {
          var s :| s in init && s.id == e.segmentId;
          assert s in segs;
        } else {
          assert last in segs;
        }
      }
    }
  }

  // ---------------------------------------------------------------------
  // The code as written: a speech segment without a token list

  /** The events of one segment as the source computes them: reading
      `segment.tokens.forEach` on a speech segment whose `tokens` is absent
      throws, which is `None` here. */
  function SegmentEventsAsWritten(seg: Segment): (r: Option<seq<EventPoint>>)
    ensures r.None? <==> seg.kind == Speech && seg.tokens.None?
    ensures r.Some? ==> r.value == SegmentEvents(seg)
  {
    if seg.kind == Speech && seg.tokens.None? then None
    else Some(SegmentEvents(seg))
  }

  function EventsOfAsWritten(segs: seq<Segment>): Option<seq<EventPoint>> {
    if segs == [] then Some([])
    else
      match EventsOfAsWritten(segs[..|segs| - 1])
      case None => None
      case Some(init) =>
        match SegmentEventsAsWritten(segs[|segs| - 1])
        case None => None
        case Some(last) => Some(init + last)
  }

  /** A speech segment without tokens: the type allows it and the metrics
      code handles it, but the event memo throws on it. */
  lemma TokenlessSpeechThrows()
    ensures var seg := Segment("s1", 0, 1000, Speech, "hello there", None, []);
      TotalDuration([seg]) != 0 && EventsOfAsWritten([seg]).None? && EventsOf([seg]) == []
  {
    var seg := Segment("s1", 0, 1000, Speech, "hello there", None, []);
    assert [seg][..0] == [];
  }

  /** Where no speech segment lacks tokens, the code as written and the
      model agree. */
  lemma {:induction false} AsWrittenAgrees(segs: seq<Segment>)
    requires forall s :: s in segs && s.kind == Speech ==> s.tokens.Some?
    ensures EventsOfAsWritten(segs) == Some(EventsOf(segs))
  {
    if segs != [] {
      assert forall s :: s in segs[..|segs| - 1] ==> s in segs;
      AsWrittenAgrees(segs[..|segs| - 1]);
      assert segs[|segs| - 1] in segs;
    }
  }

  // ---------------------------------------------------------------------
  // Grouping

  function TimeKey(e: EventPoint): real {
    e.timeMs
  }

  /** The gap between two times as a percentage of the total duration. */
  function Gap(previous: real, time: real, total: int): (g: real)
    requires total != 0
    ensures total > 0 ==> (g < 2.0 <==> (time - previous) * 100.0 < 2.0 * total as real)
    ensures total > 0 && previous <= time ==> g >= 0.0
  {
    var g := ((time - previous) / total as real) * 100.0;
    assert g * total as real == (time - previous) * 100.0;
    g
  }

  function Last<T>(s: seq<T>): T
    requires s != []
  {
    s[|s| - 1]
  }

  function Flatten<T>(groups: seq<seq<T>>): seq<T> {
    if groups == [] then [] else Flatten(groups[..|groups| - 1]) + groups[|groups| - 1]
  }

  lemma FlattenSnoc<T>(groups: seq<seq<T>>, g: seq<T>)
    ensures Flatten(groups + [g]) == Flatten(groups) + g
  {
    assert (groups + [g])[..|groups|] == groups;
  }

  lemma FlattenExtendLast<T>(init: seq<seq<T>>, g: seq<T>, x: T)
    ensures Flatten(init + [g + [x]]) == Flatten(init + [g]) + [x]
  {
    FlattenSnoc(init, g);
    FlattenSnoc(init, g + [x]);
    assert Flatten(init) + (g + [x]) == Flatten(init) + g + [x];
  }

  /** The groups are non-empty, consecutive events of one group are less
      than 2% of the duration apart, and each group starts at least 2% after
      the previous group's last event. */
  predicate WellGrouped(groups: seq<seq<EventPoint>>, total: int)
    requires total != 0
  {
    && (forall k :: 0 <= k < |groups| ==> groups[k] != [])
    && (forall k, j :: 0 <= k < |groups| && 0 < j < |groups[k]| ==>
          Gap(groups[k][j - 1].timeMs, groups[k][j].timeMs, total) < 2.0)
    && (forall k :: 0 < k < |groups| && groups[k - 1] != [] && groups[k] != [] ==>
          Gap(Last(groups[k - 1]).timeMs, groups[k][0].timeMs, total) >= 2.0)
  }

  lemma WellGroupedPush(groups: seq<seq<EventPoint>>, e: EventPoint, total: int)
    requires total != 0 && WellGrouped(groups, total)
    requires groups != [] ==> Gap(Last(Last(groups)).timeMs, e.timeMs, total) >= 2.0
    ensures WellGrouped(groups + [[e]], total)
  {
    var r := groups + [[e]];
    forall k | 0 <= k < |groups| ensures r[k] == groups[k] { }
  }

  lemma WellGroupedExtend(groups: seq<seq<EventPoint>>, e: EventPoint, total: int)
    requires total != 0 && WellGrouped(groups, total) && groups != []
    requires Gap(Last(Last(groups)).timeMs, e.timeMs, total) < 2.0
    ensures WellGrouped(groups[..|groups| - 1] + [Last(groups) + [e]], total)
  {
    var n := |groups|;
    var g := Last(groups) + [e];
    var r := groups[..n - 1] + [g];
    assert |r| == n;
    forall k | 0 <= k < n - 1 ensures r[k] == groups[k] { }
    assert r[n - 1] == g;
    assert g[0] == groups[n - 1][0];
    forall j | 0 < j < |g| ensures Gap(g[j - 1].timeMs, g[j].timeMs, total) < 2.0 {
      if j < |g| - 1 {
        assert g[j - 1] == groups[n - 1][j - 1] && g[j] == groups[n - 1][j];
      }
    }
  }

  /** The events sorted by time, equal times in extraction order. */
  function SortedEvents(events: seq<EventPoint>): (r: seq<EventPoint>)
    ensures multiset(r) == multiset(events)
    ensures SortedBy(r, TimeKey)
    ensures forall k :: WithKey(r, TimeKey, k) == WithKey(events, TimeKey, k)
  {
    SortBySorted(events, TimeKey);
    forall k ensures WithKey(SortBy(events, TimeKey), TimeKey, k) == WithKey(events, TimeKey, k) {
      SortByStable(events, TimeKey, k);
    }
    SortBy(events, TimeKey)
  }

  /** The `groupedEvents` memo: a stable sort by time, then one pass that
      adds each event to the last group when its gap to that group's last
      event is under 2, and opens a new group otherwise. */
  method GroupEvents(events: seq<EventPoint>, total: int) returns (groups: seq<seq<EventPoint>>)
    ensures total == 0 ==> groups == []
    ensures total != 0 ==> Flatten(groups) == SortedEvents(events) && WellGrouped(groups, total)
  {
    groups := [];
    if total == 0 {
      return;
    }
    var sorted := SortedEvents(events);
    var i := 0;
    while i < |sorted|
      invariant 0 <= i <= |sorted|
      invariant Flatten(groups) == sorted[..i]
      invariant WellGrouped(groups, total)
    {
      var event := sorted[i];
      groups := AddEvent(groups, event, total);
      assert sorted[..i + 1] == sorted[..i] + [event];
      i := i + 1;
    }
    assert sorted[..i] == sorted;
  }

  /** One step of the grouping loop: an event closer than 2% of the timeline
      to the last event of the last group joins that group, otherwise it
      opens a new group. */
  method AddEvent(groups0: seq<seq<EventPoint>>, event: EventPoint, total: int) returns (groups: seq<seq<EventPoint>>)
    requires total != 0 && WellGrouped(groups0, total)
    ensures Flatten(groups) == Flatten(groups0) + [event]
    ensures WellGrouped(groups, total) && groups != []
  {
    if groups0 != [] && Gap(Last(Last(groups0)).timeMs, event.timeMs, total) < 2.0 {
      var lastGroup := Last(groups0);
      assert groups0 == groups0[..|groups0| - 1] + [lastGroup];
      FlattenExtendLast(groups0[..|groups0| - 1], lastGroup, event);
      WellGroupedExtend(groups0, event, total);
      groups := groups0[..|groups0| - 1] + [lastGroup + [event]];
    } else {
      FlattenSnoc(groups0, [event]);
      WellGroupedPush(groups0, event, total);
      groups := groups0 + [[event]];
    }
  }

  // ---------------------------------------------------------------------
  // Track classifiers

  datatype PaceState = PaceFast | PaceNormal | PaceSlow | PacePause

  /** `getPaceState`: pause segments are `pause`; a `fast` tag wins over a
      `slow` tag; with neither the pace is `normal`. */
  function GetPaceState(seg: Segment): (p: PaceState)
    ensures p == PacePause <==> seg.kind == Pause
    ensures p == PaceFast <==> seg.kind == Speech && HasKind(seg.tags, Fast)
    ensures p == PaceSlow <==> seg.kind == Speech && !HasKind(seg.tags, Fast) && HasKind(seg.tags, Slow)
    ensures p == PaceNormal <==> seg.kind == Speech && !HasKind(seg.tags, Fast) && !HasKind(seg.tags, Slow)
  {
    match seg.kind
    case Pause => PacePause
    case Speech =>
      if HasKind(seg.tags, Fast) then PaceFast
      else if HasKind(seg.tags, Slow) then PaceSlow
      else PaceNormal
  }

  datatype StructureState = Strong | Neutral | Weak | StructurePause

  predicate HasStrongTag(tags: seq<Tag>) {
    HasKind(tags, Structure) || HasKind(tags, GoodEmphasis)
  }

  predicate HasWeakTag(tags: seq<Tag>) {
    HasKind(tags, Hedging) || HasKind(tags, ComplexSentence) || HasKind(tags, UnclearPoint)
  }

  /** `getStructureState`: pause segments are `pause`; a `structure` or
      `good_emphasis` tag (strong) wins over a hedging, complex or unclear
      tag (weak); with neither the structure is `neutral`. */
  function GetStructureState(seg: Segment): (s: StructureState)
    ensures s == StructurePause <==> seg.kind == Pause
    ensures s == Strong <==> seg.kind == Speech && HasStrongTag(seg.tags)
    ensures s == Weak <==> seg.kind == Speech && !HasStrongTag(seg.tags) && HasWeakTag(seg.tags)
    ensures s == Neutral <==> seg.kind == Speech && !HasStrongTag(seg.tags) && !HasWeakTag(seg.tags)
  {
    match seg.kind
    case Pause => StructurePause
    case Speech =>
      if HasStrongTag(seg.tags) then Strong
      else if HasWeakTag(seg.tags) then Weak
      else Neutral
  }

  /** Adding tags to a segment can only move its pace from `normal` to a tagged
      state, and a `fast` tag always settles it. */
  lemma FastTagSettlesPace(seg: Segment, extra: seq<Tag>)
    requires seg.kind == Speech && HasKind(extra, Fast)
    ensures GetPaceState(seg.(tags := seg.tags + extra)) == PaceFast
  {
    var i :| 0 <= i < |extra| && extra[i].kind == Fast;
    assert (seg.tags + extra)[|seg.tags| + i] == extra[i];
  }

  /** A strong tag settles the structure state whatever else is tagged. */
  lemma StrongTagSettlesStructure(seg: Segment, extra: seq<Tag>)
    requires seg.kind == Speech && HasStrongTag(extra)
    ensures GetStructureState(seg.(tags := seg.tags + extra)) == Strong
  {
    var tags := seg.tags + extra;
    if HasKind(extra, Structure) {
      var i :| 0 <= i < |extra| && extra[i].kind == Structure;
      assert tags[|seg.tags| + i] == extra[i];
    } else {
      var i :| 0 <= i < |extra| && extra[i].kind == GoodEmphasis;
      assert tags[|seg.tags| + i] == extra[i];
    }
  }

  // ---------------------------------------------------------------------
  // Time label

  /** `formatTime`: whole seconds; `M:SS` from one minute on, `Ns` below. */
  function FormatTime(ms: real): string {
    var totalSec := (ms / 1000.0).Floor;
    var min := totalSec / 60;
    var sec := JsRem(totalSec, 60);
    if min > 0 then IntToString(min) + ":" + PadStart(IntToString(sec), 2, '0')
    else IntToString(sec) + "s"
  }

  /** From one minute on, the label is the minutes, a colon and exactly two
      second digits, and reading them back gives the whole seconds. */
  lemma FormatTimeMinutes(ms: real)
    requires ms >= 60000.0
    ensures var totalSec := (ms / 1000.0).Floor;
      && FormatTime(ms) == NatToString(totalSec / 60) + ":" + PadStart(NatToString(totalSec % 60), 2, '0')
      && |PadStart(NatToString(totalSec % 60), 2, '0')| == 2
      && ParseNat(NatToString(totalSec / 60)) * 60 + ParseNat(PadStart(NatToString(totalSec % 60), 2, '0')) == totalSec
  {
    var totalSec := (ms / 1000.0).Floor;
    assert totalSec >= 60;
    ParseNatToString(totalSec / 60);
    ParsePadded(totalSec % 60, 2);
  }

  /** Below one minute (and from 0), the label is the whole seconds and `s`. */
  lemma FormatTimeSeconds(ms: real)
    requires 0.0 <= ms < 60000.0
    ensures var totalSec := (ms / 1000.0).Floor;
      0 <= totalSec < 60 && FormatTime(ms) == NatToString(totalSec) + "s"
  {
  }
}
