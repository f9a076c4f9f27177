/** The session metrics card (src/components/sessions/MetricsPanel.tsx):
    the "Xm Ys" duration label and the movement-score bands. */
module MetricsPanel {
  import opened Optional
  import opened JsNumber
  import opened SessionTypes

  /** `formatDuration(seconds)`: floored minutes, then the JavaScript
      remainder, as "<m>m <s>s". */
  function FormatDuration(seconds: int): string {
    IntToString(seconds / 60) + "m " + IntToString(JsRem(seconds, 60)) + "s"
  }

  /** For a whole non-negative number of seconds the label spells minutes and
      seconds that add back up to the input, with seconds below a minute. */
  lemma FormatDurationReadsBack(seconds: int)
    requires seconds >= 0
    ensures var mins := seconds / 60; var secs := JsRem(seconds, 60);
      && mins >= 0 && 0 <= secs < 60 && mins * 60 + secs == seconds
      && FormatDuration(seconds) == NatToString(mins) + "m " + NatToString(secs) + "s"
      && ParseNat(NatToString(mins)) * 60 + ParseNat(NatToString(secs)) == seconds
  {
    ParseNatToString(seconds / 60);
    ParseNatToString(seconds % 60);
  }

  /** The optimal movement band [0.3, 0.7] on the 0..1 scale. */
  const MovementMinOptimal: real := 0.3
  const MovementMaxOptimal: real := 0.7

  datatype MovementTone = TooLittle | Optimal | TooMuch

  /** `getMovementTone`: below the band is `low` (too little), above it
      `high` (too much), inside it
      (both boundaries included) optimal. */
  function GetMovementTone(score: real): (t: MovementTone)
    ensures t == TooLittle <==> score < 0.3
    ensures t == TooMuch <==> score > 0.7
    ensures t == Optimal <==> 0.3 <= score <= 0.7
  {
    if score < MovementMinOptimal then TooLittle
    else if score > MovementMaxOptimal then TooMuch
    else Optimal
  }

  /** The position of a tone on the movement scale. */
  function ToneRank(t: MovementTone): nat {
    match t
    case TooLittle => 0
    case Optimal => 1
    case TooMuch => 2
  }

  /** More movement never gives a lower tone, and the three bands are
      contiguous. */
  lemma MovementToneMonotone(a: real, b: real)
    requires a <= b
    ensures ToneRank(GetMovementTone(a)) <= ToneRank(GetMovementTone(b))
  {
  }

  /** The badge text of a tone. */
  function ToneLabel(t: MovementTone): (s: string)
    ensures t == Optimal <==> s == "Optimal"
  {
    match t
    case Optimal => "Optimal"
    case TooLittle => "Too Little"
    case TooMuch => "Too Much"
  }

  /** The score the panel classifies: the reported one, 0.5 when absent. */
  function MovementScore(m: Metrics): (score: real)
    ensures m.movementScore.Some? ==> score == m.movementScore.value
    ensures m.movementScore.None? ==> score == 0.5
  {
    m.movementScore.GetOr(0.5)
  }

  /** The panel's movement tone; a session without a movement score reads
      as optimal. */
  function PanelMovementTone(m: Metrics): (t: MovementTone)
    ensures m.movementScore.None? ==> t == Optimal
    ensures m.movementScore.Some? ==> t == GetMovementTone(m.movementScore.value)
  {
    GetMovementTone(MovementScore(m))
  }

  /** The duration cell: the reported seconds rounded, then formatted. */
  function DurationLabel(m: Metrics): string {
    FormatDuration(Round(m.durationSec))
  }

  /** A non-negative reported duration is labelled with the minutes and
      seconds of its nearest whole second. */
  lemma DurationLabelReadsBack(m: Metrics)
    requires m.durationSec >= 0.0
    ensures var s := Round(m.durationSec);
      && s >= 0
      && DurationLabel(m) == NatToString(s / 60) + "m " + NatToString(s % 60) + "s"
      && -0.5 < s as real - m.durationSec <= 0.5
  {
    FormatDurationReadsBack(Round(m.durationSec));
  }
}
