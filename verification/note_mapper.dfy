/**
  The note mapper: from a frequency to a note name, an octave and the offset
  in cents from the nearest equal-tempered note. The logarithm is a parameter,
  so the model is about the split of its result into octave, semitone and cents.
 */
module NoteMapper {

  import opened Options
  import Decimal

  /** The reading handed to the display: a note name (empty when there is no note), the cents offset, the amplitude and the frequency. */
  datatype NoteInfo = NoteInfo(note: string, centsDiff: real, amplitude: real, frequency: real)

  /**
    The empty reading: no note name and a cents offset of 0. The program leaves
    amplitude and frequency unset on this path; the model fills them with 0.
   */
  const EmptyNote: NoteInfo := NoteInfo("", 0.0, 0.0, 0.0)

  /** The chromatic names, starting at A. */
  const NoteNames: seq<string> := ["A", "A#", "B", "C", "C#", "D", "D#", "E", "F", "F#", "G", "G#"]

  /** A note position: the octave, the semitone index within it (0 is A) and the remaining cents. */
  datatype Pitch = Pitch(octave: int, noteNumber: int, centsOff: real)

  /** The position reproduces `linearF`: 1200 cents per octave and 100 per semitone. */
  ghost predicate Describes(p: Pitch, linearF: real) {
    1200.0 * (linearF - p.octave as real) == 100.0 * p.noteNumber as real + p.centsOff
  }

  /** A position naming the nearest note: a valid semitone and a remainder in (-50, 50]. */
  ghost predicate Nearest(p: Pitch) {
    0 <= p.noteNumber < 12 && -50.0 < p.centsOff <= 50.0
  }

  /**
    The split of `linearF` (octaves above the A four octaves below the tuning
    note): the octave is its floor, the semitone is the whole hundreds of the
    cents above that, and a remainder above 50 cents moves on to the next
    semitone, wrapping from G# to A of the next octave.
   */
  function SplitLinear(linearF: real): (p: Pitch)
    ensures Nearest(p) && Describes(p, linearF)
    ensures p.octave == linearF.Floor || p.octave == linearF.Floor + 1
  {
    var octave := linearF.Floor;
    var centsTotal := 1200.0 * (linearF - octave as real);
    var noteNumber := (centsTotal / 100.0).Floor % 12;
    var centsOff := centsTotal - noteNumber as real * 100.0;
    if centsOff > 50.0 then
      var next := noteNumber + 1;
      var octave', noteNumber' := if next >= 12 then octave + 1 else octave, if next >= 12 then next % 12 else next;
      var centsTotal' := 1200.0 * (linearF - octave' as real);
      Pitch(octave', noteNumber', centsTotal' - noteNumber' as real * 100.0)
    else
      Pitch(octave, noteNumber, centsOff)
  }

  /** The nearest-note position of a value is unique, so SplitLinear is the only split with these properties. */
  lemma NearestIsUnique(p: Pitch, q: Pitch, linearF: real)
    requires Nearest(p) && Describes(p, linearF)
    requires Nearest(q) && Describes(q, linearF)
    ensures p == q
  {
    var m := 12 * (q.octave - p.octave) + p.noteNumber - q.noteNumber;
    assert q.centsOff - p.centsOff == 100.0 * m as real;
    assert m == 0;
    assert 12 * (q.octave - p.octave) == q.noteNumber - p.noteNumber;
  }

  /** The split of every value is the unique nearest-note position describing it. */
  lemma SplitLinearIsNearest(p: Pitch, linearF: real)
    requires Nearest(p) && Describes(p, linearF)
    ensures SplitLinear(linearF) == p
  {
    NearestIsUnique(SplitLinear(linearF), p, linearF);
  }

  /** The printed name of a position: the chromatic name followed by the octave as `%d`. */
  function NoteName(p: Pitch): (name: string)
    requires 0 <= p.noteNumber < 12
    ensures |name| >= 2
  {
    NoteNames[p.noteNumber] + Decimal.IntToString(p.octave)
  }

  /**
    The reading for frequency `f` at amplitude `a` heard as harmonic `overtone`,
    with `log2` supplied by the caller: the note nearest to
    log2((f / overtone) / tuningFreq) + 4 octaves, its name, the cents offset
    in (-50, 50], and `f` and `a` carried through.
   */
  function ConvertFreqToNote(f: real, a: real, overtone: int, tuningFreq: int, log2: real -> real): (r: NoteInfo)
    requires overtone != 0 && tuningFreq != 0
    ensures var p := SplitLinear(log2((f / overtone as real) / tuningFreq as real) + 4.0);
      && r.note == NoteName(p)
      && r.centsDiff == p.centsOff
    ensures r.note != [] && -50.0 < r.centsDiff <= 50.0
    ensures r.frequency == f && r.amplitude == a
  {
    var linearF := log2((f / overtone as real) / tuningFreq as real) + 4.0;
    var p := SplitLinear(linearF);
    NoteInfo(NoteName(p), p.centsOff, a, f)
  }

  /** A frequency equal to the tuning frequency is A4 with no offset, whatever log2 does elsewhere, provided log2(1) = 0. */
  lemma TuningFrequencyIsA4(a: real, tuningFreq: int, log2: real -> real)
    requires tuningFreq > 0 && log2(1.0) == 0.0
    ensures ConvertFreqToNote(tuningFreq as real, a, 1, tuningFreq, log2).note == "A4"
    ensures ConvertFreqToNote(tuningFreq as real, a, 1, tuningFreq, log2).centsDiff == 0.0
  {
    var f := tuningFreq as real;
    assert (f / 1 as real) / f == 1.0;
    var p := SplitLinear(4.0);
    SplitLinearIsNearest(Pitch(4, 0, 0.0), 4.0);
    assert Decimal.IntToString(4) == "4";
  }

  /** The index of a chromatic name, or -1 for any other string. */
  function PitchClassIndex(name: string): (i: int)
    ensures -1 <= i < 12
    ensures 0 <= i ==> NoteNames[i] == name
    ensures i == -1 ==> forall k :: 0 <= k < 12 ==> NoteNames[k] != name
  {
    IndexFrom(name, 0)
  }

  function IndexFrom(name: string, k: nat): (i: int)
    requires k <= 12
    ensures i == -1 || k <= i < 12
    ensures 0 <= i ==> NoteNames[i] == name
    ensures i == -1 ==> forall j :: k <= j < 12 ==> NoteNames[j] != name
    decreases 12 - k
  {
    if k == 12 then -1 else if NoteNames[k] == name then k else IndexFrom(name, k + 1)
  }

  /** The chromatic names are pairwise distinct, so a name identifies its semitone. */
  lemma NoteNamesDistinct(i: int, j: int)
    requires 0 <= i < 12 && 0 <= j < 12 && NoteNames[i] == NoteNames[j]
    ensures i == j
  {
  }

  /** Every chromatic name is a letter, optionally followed by a sharp sign. */
  lemma NoteNameShape(n: int)
    requires 0 <= n < 12
    ensures |NoteNames[n]| == 1 || (|NoteNames[n]| == 2 && NoteNames[n][1] == '#')
  {
  }

  /** Reads a note name back into (semitone, octave). */
  function ParseNoteName(s: string): Option<(int, int)> {
    var k := if |s| >= 2 && s[1] == '#' then 2 else 1;
    if |s| < k then None
    else
      var n := PitchClassIndex(s[..k]);
      if n < 0 || !Decimal.IsIntString(s[k..]) then None
      else Some((n, Decimal.ParseInt(s[k..])))
  }

  /** A printed note name determines the semitone and the octave it was printed from. */
  lemma NoteNameRoundTrip(p: Pitch)
    requires 0 <= p.noteNumber < 12
    ensures ParseNoteName(NoteName(p)) == Some((p.noteNumber, p.octave))
  {
    var name := NoteNames[p.noteNumber];
    var digits := Decimal.IntToString(p.octave);
    var s := name + digits;
    Decimal.IntToStringRoundTrip(p.octave);
    var k := |name|;
    NoteNameShape(p.noteNumber);
    assert s[..k] == name && s[k..] == digits;
    if k == 1 {
      assert s[1] == digits[0];
      assert digits[0] == '-' || Decimal.IsDigit(digits[0]);
    }
    var i := PitchClassIndex(name);
    NoteNamesDistinct(i, p.noteNumber);
  }
}
