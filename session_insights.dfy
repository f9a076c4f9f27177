/** The insight cards and focus list (src/components/sessions/SessionInsights.tsx):
    tone bands for pace, filler density and calm, and the most severe issues. */
module SessionInsights {
  import opened Optional
  import opened SessionTypes
  import opened IssuesPanel

  // ---------------------------------------------------------------------
  // Focus issues

  /** The end index `Array.prototype.slice(0, limit)` stops at: a negative
      limit counts back from the end, and the end is clamped to the length. */
  function SliceEnd(len: nat, limit: int): (e: nat)
    ensures e <= len
    ensures limit >= 0 ==> e == if limit < len then limit else len
    ensures limit < 0 ==> e == if len + limit > 0 then len + limit else 0
  {
    if limit < 0 then (if len + limit > 0 then len + limit else 0)
    else if limit < len then limit else len
  }

  /** `topIssues`: the first `limit` issues of the severity-sorted copy. */
  function TopIssues(issues: seq<Issue>, limit: int): (r: seq<Issue>)
    ensures |r| <= |issues|
    ensures limit >= 0 ==> |r| == if limit < |issues| then limit else |issues|
    ensures r <= SortBySeverity(issues)
  {
    var sorted := SortBySeverity(issues);
    sorted[..SliceEnd(|sorted|, limit)]
  }

  /** The focus list the component shows: `topIssues` with its default
      limit of 3. */
  function FocusIssues(issues: seq<Issue>): (r: seq<Issue>)
    ensures |r| == if |issues| < 3 then |issues| else 3
    ensures r == TopIssues(issues, 3)
  {
    TopIssues(issues, 3)
  }

  /** The focus list is ordered most severe first, and no issue left out is
      more severe than one kept. */
  lemma TopIssuesMostSevere(issues: seq<Issue>, limit: int)
    ensures var r := TopIssues(issues, limit);
      && (forall i, j :: 0 <= i < j < |r| ==> SeverityRank(r[i].severity) <= SeverityRank(r[j].severity))
      && (forall i, j :: 0 <= i < |r| <= j < |issues| ==>
            SeverityRank(r[i].severity) <= SeverityRank(SortBySeverity(issues)[j].severity))
  {
  }

  /** Issues of one severity keep their input order in the focus list: what
      it keeps of each severity is a prefix of that severity's issues. */
  lemma {:induction false} TopIssuesStable(issues: seq<Issue>, limit: int, sev: Severity)
    ensures var r := TopIssues(issues, limit);
      OfSeverity(r, sev) <= OfSeverity(issues, sev)
  {
    var sorted := SortBySeverity(issues);
    var r := TopIssues(issues, limit);
    assert sorted == r + sorted[|r|..];
    OfSeverityAppend(r, sorted[|r|..], sev);
  }

  lemma {:induction false} OfSeverityAppend(a: seq<Issue>, b: seq<Issue>, sev: Severity)
    ensures OfSeverity(a + b, sev) == OfSeverity(a, sev) + OfSeverity(b, sev)
  {
    if a == [] {
      assert a + b == b;
    } else {
      assert (a + b)[1..] == a[1..] + b;
      OfSeverityAppend(a[1..], b, sev);
    }
  }

  // ---------------------------------------------------------------------
  // Tones

  datatype Tone = Positive | Caution | Risk

  /** The target pace band is 140 to 160 words per minute. */
  const PaceMin: real := 140.0
  const PaceMax: real := 160.0

  /** Pace tone: more than 15 over the band is risk, over the band or under
      it is caution, inside it (bounds included) positive. */
  function PaceTone(avgWpm: real): (t: Tone)
    ensures t == Risk <==> avgWpm > 175.0
    ensures t == Caution <==> (160.0 < avgWpm <= 175.0 || avgWpm < 140.0)
    ensures t == Positive <==> 140.0 <= avgWpm <= 160.0
  {
    if avgWpm > PaceMax + 15.0 then Risk
    else if avgWpm > PaceMax then Caution
    else if avgWpm < PaceMin then Caution
    else Positive
  }

  const PaceAbove := "Above target band \U{2014} build in brief pauses to lower pace."
  const PaceBelow := "Below target band \U{2014} tighten phrasing to keep attention."
  const PaceHealthy := "In a healthy band \U{2014} maintain this cadence."

  function PaceDetail(avgWpm: real): string {
    if avgWpm > PaceMax then PaceAbove
    else if avgWpm < PaceMin then PaceBelow
    else PaceHealthy
  }

  /** Filler tone: more than 4 per minute is risk, more than 2 caution. */
  function FillerTone(fillerPerMinute: real): (t: Tone)
    ensures t == Risk <==> fillerPerMinute > 4.0
    ensures t == Caution <==> 2.0 < fillerPerMinute <= 4.0
    ensures t == Positive <==> fillerPerMinute <= 2.0
  {
    if fillerPerMinute > 4.0 then Risk
    else if fillerPerMinute > 2.0 then Caution
    else Positive
  }

  const FillerHigh := "High filler density \U{2014} swap fillers for short breaths."
  const FillerModerate := "Moderate fillers \U{2014} try a beat of silence instead."
  const FillerLow := "Low fillers \U{2014} keep this clarity."

  function FillerDetail(fillerPerMinute: real): string {
    if fillerPerMinute > 4.0 then FillerHigh
    else if fillerPerMinute > 2.0 then FillerModerate
    else FillerLow
  }

  /** The calm score: the stress-speed index, 0.5 when it is absent. */
  function CalmScore(stressSpeedIndex: Option<real>): (c: real)
    ensures stressSpeedIndex.None? ==> c == 0.5
    ensures stressSpeedIndex.Some? ==> c == stressSpeedIndex.value
  {
    stressSpeedIndex.GetOr(0.5)
  }

  /** Calm tone: a score above 0.7 is risk, above 0.55 caution. */
  function CalmTone(stressSpeedIndex: Option<real>): (t: Tone)
    ensures t == Risk <==> CalmScore(stressSpeedIndex) > 0.7
    ensures t == Caution <==> 0.55 < CalmScore(stressSpeedIndex) <= 0.7
    ensures t == Positive <==> CalmScore(stressSpeedIndex) <= 0.55
    ensures stressSpeedIndex.None? ==> t == Positive
  {
    var calm := CalmScore(stressSpeedIndex);
    if calm > 0.7 then Risk else if calm > 0.55 then Caution else Positive
  }

  const CalmStress := "Stress creeping in \U{2014} watch breathing when pace rises."
  const CalmTension := "Slight tension \U{2014} short pauses will help reset."
  const CalmDelivery := "Calm delivery \U{2014} continue pairing pace and breath."

  function CalmDetail(stressSpeedIndex: Option<real>): string {
    var calm := CalmScore(stressSpeedIndex);
    if calm > 0.7 then CalmStress else if calm > 0.55 then CalmTension else CalmDelivery
  }

  /** An insight card without its icon and its formatted figure. */
  datatype Insight = Insight(title: string, detail: string, tone: Tone)

  /** `deriveInsights`: the pace, filler and calm cards, in that order. */
  function DeriveInsights(m: Metrics): (r: seq<Insight>)
    ensures |r| == 3
    ensures r[0].title == "Pace window" && r[0].tone == PaceTone(m.avgWpm)
    ensures r[1].title == "Fillers per min" && r[1].tone == FillerTone(m.fillerPerMinute)
    ensures r[2].title == "Calm & control" && r[2].tone == CalmTone(m.stressSpeedIndex)
  {
    [ Insight("Pace window", PaceDetail(m.avgWpm), PaceTone(m.avgWpm)),
      Insight("Fillers per min", FillerDetail(m.fillerPerMinute), FillerTone(m.fillerPerMinute)),
      Insight("Calm & control", CalmDetail(m.stressSpeedIndex), CalmTone(m.stressSpeedIndex)) ]
  }

  /** Each card's advice agrees with its tone: positive cards carry the
      encouraging text, a risk pace card says the pace is above the band,
      and the filler and calm texts follow their tones one to one. */
  lemma InsightDetailsMatchTones(m: Metrics)
    ensures var r := DeriveInsights(m);
      && (r[0].tone == Positive <==> r[0].detail == PaceHealthy)
      && (r[0].tone == Risk ==> r[0].detail == PaceAbove)
      && (r[0].tone == Caution ==> r[0].detail in {PaceAbove, PaceBelow})
      && (r[1].tone == Risk <==> r[1].detail == FillerHigh)
      && (r[1].tone == Caution <==> r[1].detail == FillerModerate)
      && (r[1].tone == Positive <==> r[1].detail == FillerLow)
      && (r[2].tone == Risk <==> r[2].detail == CalmStress)
      && (r[2].tone == Caution <==> r[2].detail == CalmTension)
      && (r[2].tone == Positive <==> r[2].detail == CalmDelivery)
  {
  }

  /** The positive paces form one interval: any pace between two positive
      paces is positive. */
  lemma PaceBandConvex(a: real, b: real, x: real)
    requires PaceTone(a) == Positive && PaceTone(b) == Positive && a <= x <= b
    ensures PaceTone(x) == Positive
  {
  }
}
