/**
  What the application shows for a reading: the note label, the cents label
  and the five tuning indicators (flat by much, flat by little, in tune, sharp
  by little, sharp by much). Label lookup, colours and translation are left to
  the user interface.
 */
module TunerDisplay {

  import Decimal
  import opened NoteMapper

  /** The note label shown while no note is heard. */
  const ListeningText: string := "I'm listening..."

  /** Cents thresholds between the indicators. */
  const BigDiff: real := 25.0
  const SmallDiff: real := 5.0

  function Abs(x: real): real {
    if x < 0.0 then -x else x
  }

  /** Conversion of a real to int, truncating toward zero. */
  function Truncate(x: real): (n: int)
    ensures Abs(n as real) <= Abs(x) < Abs(n as real) + 1.0
    ensures n != 0 ==> (n < 0 <==> x < 0.0)
  {
    if x >= 0.0 then x.Floor else -((-x).Floor)
  }

  /** The sign character of the cents text: '-' below zero, '+' otherwise (so zero shows '+'). */
  function SignChar(centsDiff: real): char {
    if centsDiff < 0.0 then '-' else '+'
  }

  /** The magnitude printed in the cents text: the absolute value truncated toward zero. */
  function Magnitude(centsDiff: real): (m: nat)
    ensures m as real <= Abs(centsDiff) < m as real + 1.0
  {
    Truncate(Abs(centsDiff))
  }

  /** `%c%d\n` of the sign and the magnitude of the cents offset. */
  function CentsText(centsDiff: real): (t: string)
    ensures |t| >= 3 && t[|t| - 1] == '\n'
    ensures t[0] == '-' <==> centsDiff < 0.0
    ensures t[0] == '+' <==> centsDiff >= 0.0
    ensures Decimal.AllDigits(t[1..|t| - 1])
  {
    [SignChar(centsDiff)] + Decimal.IntToString(Magnitude(centsDiff)) + "\n"
  }

  /** Reads a cents text back into (magnitude, is negative). */
  function ParseCentsText(t: string): (int, bool)
    requires |t| >= 3 && Decimal.AllDigits(t[1..|t| - 1])
  {
    (Decimal.ParseDigits(t[1..|t| - 1]), t[0] == '-')
  }

  /** The cents text determines the sign and the truncated magnitude it was printed from. */
  lemma CentsTextRoundTrip(centsDiff: real)
    ensures ParseCentsText(CentsText(centsDiff)) == (Magnitude(centsDiff), centsDiff < 0.0)
  {
    var t := CentsText(centsDiff);
    var digits := Decimal.IntToString(Magnitude(centsDiff));
    assert t[1..|t| - 1] == digits;
    Decimal.NatToStringRoundTrip(Magnitude(centsDiff));
  }

  /** Truncation keeps the sign of a small negative offset: -0.7 cents prints as "-0". */
  lemma SmallNegativeOffsetPrintsMinusZero()
    ensures CentsText(-0.7) == "-0\n"
  {
    assert Magnitude(-0.7) == 0;
    assert Decimal.IntToString(0) == "0";
  }

  /** The two labels for a reading: the note name, or the listening text for the empty reading; the cents text only when there is a note. */
  function Labels(note: NoteInfo): (labels: (string, string))
    ensures labels.0 != []
    ensures note.note == [] ==> labels == (ListeningText, "")
    ensures note.note != [] ==> labels.0 == note.note
    ensures labels.1 == [] <==> note.note == []
    ensures note.note != [] ==> labels.1 == CentsText(note.centsDiff)
  {
    var readableCents := CentsText(note.centsDiff);
    var noteLabel := if note.note == [] then ListeningText else note.note;
    var centsLabel := if readableCents != [] && note.note != [] then readableCents else "";
    (noteLabel, centsLabel)
  }

  /** Which of the five indicators are lit. */
  datatype Indicators = Indicators(flatBig: bool, flatSmall: bool, inTune: bool, sharpSmall: bool, sharpBig: bool)

  function LitCount(ind: Indicators): nat {
    (if ind.flatBig then 1 else 0) + (if ind.flatSmall then 1 else 0) + (if ind.inTune then 1 else 0)
      + (if ind.sharpSmall then 1 else 0) + (if ind.sharpBig then 1 else 0)
  }

  /**
    The indicators as the display decides them: at most -25, in (-25, -5],
    in (-5, 5), in (5, 25), at least 25.
   */
  function IndicatorsFor(centsDiff: real): (ind: Indicators)
    ensures ind.inTune <==> Abs(centsDiff) < SmallDiff
    ensures (ind.flatBig || ind.flatSmall) <==> centsDiff <= -SmallDiff
    ensures (ind.sharpSmall || ind.sharpBig) <==> centsDiff > SmallDiff
    ensures LitCount(ind) == if centsDiff == SmallDiff then 0 else 1
    ensures (ind.flatBig || ind.sharpBig) <==> Abs(centsDiff) >= BigDiff
  {
    Indicators(
      centsDiff <= -BigDiff,
      centsDiff > -BigDiff && centsDiff <= -SmallDiff,
      centsDiff > -SmallDiff && centsDiff < SmallDiff,
      centsDiff < BigDiff && centsDiff > SmallDiff,
      centsDiff >= BigDiff)
  }

  /** Exactly one indicator is lit for every offset except +5, where none is. */
  lemma OneIndicatorExceptAtPlusFive(centsDiff: real)
    ensures LitCount(IndicatorsFor(centsDiff)) == if centsDiff == SmallDiff then 0 else 1
  {
  }

  /** The indicators are not mirror images: -5 lights the small flat indicator but +5 lights nothing. */
  lemma IndicatorsAsymmetricAtFive()
    ensures IndicatorsFor(-SmallDiff).flatSmall
    ensures IndicatorsFor(SmallDiff) == Indicators(false, false, false, false, false)
  {
  }

  /** The indicators with the sharp-small band closed at 5, mirroring the flat-small band. */
  function SymmetricIndicators(centsDiff: real): (ind: Indicators)
    ensures ind.inTune <==> Abs(centsDiff) < SmallDiff
    ensures (ind.flatBig || ind.flatSmall) <==> centsDiff <= -SmallDiff
    ensures (ind.sharpSmall || ind.sharpBig) <==> centsDiff >= SmallDiff
    ensures LitCount(ind) == 1
    ensures (ind.flatBig || ind.sharpBig) <==> Abs(centsDiff) >= BigDiff
  {
    Indicators(
      centsDiff <= -BigDiff,
      centsDiff > -BigDiff && centsDiff <= -SmallDiff,
      centsDiff > -SmallDiff && centsDiff < SmallDiff,
      centsDiff < BigDiff && centsDiff >= SmallDiff,
      centsDiff >= BigDiff)
  }

  /** With the corrected band exactly one indicator is lit for every offset, and opposite offsets light mirrored indicators. */
  lemma SymmetricIndicatorsPartition(centsDiff: real)
    ensures LitCount(SymmetricIndicators(centsDiff)) == 1
    ensures var ind, mirrored := SymmetricIndicators(centsDiff), SymmetricIndicators(-centsDiff);
      && ind.flatBig == mirrored.sharpBig && ind.flatSmall == mirrored.sharpSmall && ind.inTune == mirrored.inTune
  {
  }

  /** The empty reading shows the listening text, no cents text, and lights only the in-tune indicator, since its offset is 0. */
  lemma EmptyReadingLooksInTune()
    ensures Labels(EmptyNote) == (ListeningText, "")
    ensures IndicatorsFor(EmptyNote.centsDiff) == Indicators(false, false, true, false, false)
  {
  }
}
