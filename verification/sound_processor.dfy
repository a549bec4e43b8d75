/**
  The sound processor's analysis path: each device read is captured into the
  window, every second successful read runs one analysis pass over the
  spectrum of the window, and the pass yields a note reading.

  The device, the transform and the logarithm are outside the model: a read is
  given as its byte count and fragment, the spectrum of the window as its bin
  amplitudes, and log2 as a function parameter.
 */
module SoundProcessor {

  import opened Options
  import opened CaptureWindow
  import opened Spectrum
  import opened Interpolation
  import opened Stability
  import opened NoteMapper

  /** A peak must exceed this amplitude to count as a tone. */
  const SilenceAmplitude: real := 40.0

  /** The coarse frequency must lie in this range for a note to be reported. */
  const MinSaneFreq: real := 20.0
  const MaxSaneFreq: real := 22000.0

  /** Interpolation between neighbouring bins is only done for FFT sizes up to this. */
  const MaxInterpolatedFftSize: nat := 32768

  /** The number of successful reads per analysis pass. */
  const ReadsPerAnalysis: int := 2

  /** The analysis parameters fixed at construction. */
  datatype Config = Config(sampleRate: nat, fftSize: nat, historySize: nat, tuningFreq: int) {
    predicate Valid() {
      fftSize >= 2 && historySize >= 1 && tuningFreq != 0
    }
  }

  /** 44100 Hz, an FFT of 131072 points, three remembered frequencies, A = 440 Hz. */
  const DefaultConfig: Config := Config(44100, 131072, 3, 440)

  /** The state a read can change: the capture window, the read counter, the frequency history and the silent-pass counter. */
  datatype Processor = Processor(window: seq<byte>, readCount: int, history: seq<real>, silentReadCount: int)

  /** The outcome of one analysis pass. */
  datatype Analysis = Analysis(note: NoteInfo, history: seq<real>, silentReadCount: int)

  /** The outcome of one read: the new state and the reading emitted, if the read completed a batch. */
  datatype Step = Step(processor: Processor, emitted: Option<NoteInfo>)

  /** The frequency of a bin under the configuration. */
  function CoarseFreq(cfg: Config, bin: int): real
    requires cfg.Valid()
  {
    BinToFreq(cfg.sampleRate, cfg.fftSize, bin) as real
  }

  /** The peak of a spectrum: the scan covers the first fftSize bins. */
  function PeakOf(cfg: Config, amps: seq<real>): (p: Peak)
    requires cfg.Valid() && cfg.fftSize < |amps|
    ensures p.bin < cfg.fftSize
  {
    PeakSearch(amps, cfg.fftSize)
  }

  /**
    The (frequency, amplitude) points of the peak bin and its two neighbours.
    Away from bin 1, when bins are at least 1 Hz apart and no product wraps,
    the three frequencies are strictly increasing.
   */
  function Neighbourhood(cfg: Config, amps: seq<real>, bin: nat): (pts: (Point, Point, Point))
    requires cfg.Valid() && 1 <= bin && bin + 1 < |amps|
    ensures pts.0.y == amps[bin - 1] && pts.1.y == amps[bin] && pts.2.y == amps[bin + 1]
    ensures 2 <= bin && cfg.sampleRate / 2 >= cfg.fftSize / 2 && bin * (cfg.sampleRate / 2) < WordModulus ==>
      pts.0.x < pts.1.x < pts.2.x
  {
    NeighboursAscend(cfg, bin);
    (Point(CoarseFreq(cfg, bin - 1), amps[bin - 1]),
     Point(CoarseFreq(cfg, bin), amps[bin]),
     Point(CoarseFreq(cfg, bin + 1), amps[bin + 1]))
  }

  lemma NeighboursAscend(cfg: Config, bin: nat)
    requires cfg.Valid() && 1 <= bin
    ensures 2 <= bin && cfg.sampleRate / 2 >= cfg.fftSize / 2 && bin * (cfg.sampleRate / 2) < WordModulus ==>
      CoarseFreq(cfg, bin - 1) < CoarseFreq(cfg, bin) < CoarseFreq(cfg, bin + 1)
  {
    var h := cfg.sampleRate / 2;
    if 2 <= bin && h >= cfg.fftSize / 2 && bin * h < WordModulus {
      assert (bin - 1) * h <= bin * h;
      BinToFreqStrictlyIncreasing(cfg.sampleRate, cfg.fftSize, bin - 1);
      BinToFreqStrictlyIncreasing(cfg.sampleRate, cfg.fftSize, bin);
    }
  }

  /**
    Whether the pass refines the peak by interpolation. It needs a left
    neighbour, and never happens at the configured FFT size.
   */
  predicate Interpolates(cfg: Config, bin: nat)
    ensures Interpolates(cfg, bin) ==> 1 <= bin && cfg.fftSize < DefaultConfig.fftSize
  {
    bin > 0 && cfg.fftSize <= MaxInterpolatedFftSize
  }

  /**
    The frequency stored in the history: the coarse frequency of the peak bin,
    refined to the vertex of the parabola through the peak and its neighbours
    when the FFT is small enough, keeping the coarse frequency when that
    parabola has no vertex.
   */
  function AdjustedFreq(cfg: Config, amps: seq<real>): (f: real)
    requires cfg.Valid() && cfg.fftSize < |amps|
    ensures !Interpolates(cfg, PeakOf(cfg, amps).bin) ==> f == CoarseFreq(cfg, PeakOf(cfg, amps).bin)
    ensures Interpolates(cfg, PeakOf(cfg, amps).bin) ==>
      var (l, m, r) := Neighbourhood(cfg, amps, PeakOf(cfg, amps).bin);
      (VertexAsWritten(l, m, r).Some? && f == VertexAsWritten(l, m, r).value.x) || (VertexAsWritten(l, m, r).None? && f == m.x)
  {
    var bin := PeakOf(cfg, amps).bin;
    if Interpolates(cfg, bin) then
      var (l, m, r) := Neighbourhood(cfg, amps, bin);
      GuardedVertex(l, m, r).x
    else
      CoarseFreq(cfg, bin)
  }

  /**
    One analysis pass over a spectrum. A peak at or below the silence
    amplitude gives the empty reading, counts one more silent pass and leaves
    the history alone. A louder peak resets the silent count and pushes its
    frequency into the history; a note is reported exactly when the history is
    then consistent and the coarse frequency is in the audible range.
   */
  function GetNote(cfg: Config, history: seq<real>, silentReadCount: int, amps: seq<real>, log2: real -> real): (r: Analysis)
    requires cfg.Valid() && |history| == cfg.historySize && cfg.fftSize < |amps|
    ensures |r.history| == |history|
    ensures PeakOf(cfg, amps).maxAmplitude <= SilenceAmplitude ==>
      r == Analysis(EmptyNote, history, silentReadCount + 1)
    ensures PeakOf(cfg, amps).maxAmplitude > SilenceAmplitude ==>
      r.silentReadCount == 0 && r.history == Push(history, AdjustedFreq(cfg, amps))
    ensures r.note.note != [] <==>
      && PeakOf(cfg, amps).maxAmplitude > SilenceAmplitude
      && Consistent(r.history)
      && MinSaneFreq <= CoarseFreq(cfg, PeakOf(cfg, amps).bin) <= MaxSaneFreq
    ensures r.note.note == [] ==> r.note == EmptyNote
    ensures r.note.note != [] ==>
      r.note == ConvertFreqToNote(AdjustedFreq(cfg, amps), PeakOf(cfg, amps).maxAmplitude, 1, cfg.tuningFreq, log2)
    ensures r.note.note != [] ==>
      && -50.0 < r.note.centsDiff <= 50.0
      && r.note.frequency == r.history[|r.history| - 1]
      && r.note.amplitude == PeakOf(cfg, amps).maxAmplitude
  {
    var peak := PeakOf(cfg, amps);
    if peak.maxAmplitude > SilenceAmplitude then
      var freq := CoarseFreq(cfg, peak.bin);
      var adjustedFreq := AdjustedFreq(cfg, amps);
      var history' := Push(history, adjustedFreq);
      var saneFreqRange := MinSaneFreq <= freq <= MaxSaneFreq;
      var note := if Consistent(history') && saneFreqRange
        then ConvertFreqToNote(adjustedFreq, peak.maxAmplitude, 1, cfg.tuningFreq, log2)
        else EmptyNote;
      Analysis(note, history', 0)
    else
      Analysis(EmptyNote, history, silentReadCount + 1)
  }

  /**
    The read counter after one read, and whether the read completes a batch:
    only a read that returned bytes counts, and reaching two reads triggers
    an analysis and resets the counter.
   */
  function CountRead(readCount: int, bytesRead: int): (r: (int, bool))
    ensures r.1 <==> readCount + Success(bytesRead) == ReadsPerAnalysis
    ensures r.0 + (if r.1 then ReadsPerAnalysis else 0) == readCount + Success(bytesRead)
    ensures 0 <= readCount < ReadsPerAnalysis ==> 0 <= r.0 < ReadsPerAnalysis
  {
    var counted := if bytesRead > 0 then readCount + 1 else readCount;
    if counted == ReadsPerAnalysis then (0, true) else (counted, false)
  }

  /** 1 for a read that returned bytes, 0 otherwise. */
  function Success(bytesRead: int): nat {
    if bytesRead > 0 then 1 else 0
  }

  /**
    One read from the device. The window captures what was read; when the read
    completes a batch, an analysis pass runs on `amps` (the spectrum of the
    captured window) and its reading is emitted.
   */
  function ReadPCM(cfg: Config, p: Processor, bytesRead: int, frag: seq<byte>, amps: seq<real>, log2: real -> real): (s: Step)
    requires cfg.Valid() && |p.history| == cfg.historySize && cfg.fftSize < |amps|
    requires bytesRead <= |frag| <= |p.window|
    ensures s.processor.window == Capture(p.window, frag, bytesRead)
    ensures |s.processor.window| == |p.window| && |s.processor.history| == |p.history|
    ensures s.emitted.Some? <==> p.readCount + Success(bytesRead) == ReadsPerAnalysis
    ensures s.processor.readCount + (if s.emitted.Some? then ReadsPerAnalysis else 0) == p.readCount + Success(bytesRead)
    ensures (s.processor.readCount, s.emitted.Some?) == CountRead(p.readCount, bytesRead)
    ensures 0 <= p.readCount < ReadsPerAnalysis ==> 0 <= s.processor.readCount < ReadsPerAnalysis
    ensures s.emitted.None? ==>
      s.processor.history == p.history && s.processor.silentReadCount == p.silentReadCount
    ensures s.emitted.Some? ==>
      var a := GetNote(cfg, p.history, p.silentReadCount, amps, log2);
      s.emitted.value == a.note && s.processor.history == a.history && s.processor.silentReadCount == a.silentReadCount
  {
    var window := Capture(p.window, frag, bytesRead);
    var (readCount, analyse) := CountRead(p.readCount, bytesRead);
    if analyse then
      var a := GetNote(cfg, p.history, p.silentReadCount, amps, log2);
      Step(Processor(window, readCount, a.history, a.silentReadCount), Some(a.note))
    else
      Step(Processor(window, readCount, p.history, p.silentReadCount), None)
  }

  /** The window of a processor keeps tracking the most recent bytes of the captured stream across a read. */
  lemma ReadKeepsRecentWindow(cfg: Config, p: Processor, stream: seq<byte>, bytesRead: int, frag: seq<byte>, amps: seq<real>, log2: real -> real)
    requires cfg.Valid() && |p.history| == cfg.historySize && cfg.fftSize < |amps|
    requires bytesRead <= |frag| <= |p.window|
    requires p.window == Recent(stream, |p.window|)
    ensures ReadPCM(cfg, p, bytesRead, frag, amps, log2).processor.window == Recent(stream + Received(frag, bytesRead), |p.window|)
  {
    CaptureKeepsRecent(stream, frag, bytesRead, |p.window|);
  }

  /** The number of reads that returned bytes. */
  function Successes(results: seq<int>): (n: nat)
    ensures n <= |results|
  {
    if results == [] then 0 else Success(results[0]) + Successes(results[1..])
  }

  /** The read counter after a sequence of reads, and the number of analysis passes they triggered. */
  function RunCounter(readCount: int, results: seq<int>): (int, nat)
    decreases |results|
  {
    if results == [] then (readCount, 0)
    else
      var (c, analyse) := CountRead(readCount, results[0]);
      var (final, passes) := RunCounter(c, results[1..]);
      (final, passes + if analyse then 1 else 0)
  }

  /**
    Analysis runs once per two successful reads: from a counter of 0 or 1, a
    sequence of reads triggers exactly half (rounded down) of the counter plus
    its successful reads, and leaves the remainder in the counter.
   */
  lemma {:induction false} OnePassPerTwoReads(readCount: int, results: seq<int>)
    requires 0 <= readCount < ReadsPerAnalysis
    ensures RunCounter(readCount, results) == ((readCount + Successes(results)) % 2, (readCount + Successes(results)) / 2)
    decreases |results|
  {
    if results != [] {
      var (c, analyse) := CountRead(readCount, results[0]);
      OnePassPerTwoReads(c, results[1..]);
    }
  }

  /**
    A steady tone is reported: with no interpolation, a loud peak whose
    frequency is in range and already fills the rest of the history yields a
    note.
   */
  lemma SteadyToneIsReported(cfg: Config, history: seq<real>, silentReadCount: int, amps: seq<real>, log2: real -> real)
    requires cfg.Valid() && |history| == cfg.historySize && cfg.fftSize < |amps|
    requires cfg.fftSize > MaxInterpolatedFftSize
    requires PeakOf(cfg, amps).maxAmplitude > SilenceAmplitude
    requires MinSaneFreq <= CoarseFreq(cfg, PeakOf(cfg, amps).bin) <= MaxSaneFreq
    requires forall i :: 1 <= i < |history| ==> history[i] == CoarseFreq(cfg, PeakOf(cfg, amps).bin)
    ensures GetNote(cfg, history, silentReadCount, amps, log2).note.note != []
  {
    var f := CoarseFreq(cfg, PeakOf(cfg, amps).bin);
    SteadyHistoryIsConsistent(Push(history, f), f);
  }

  /**
    When bins are at least 1 Hz apart and no product wraps, a peak from bin 2
    up (with its right neighbour inside the scanned range) always has a
    parabola opening downward through it and its neighbours, so the
    interpolated vertex exists: the unguarded division only bites at bin 1 or
    at the last scanned bin.
   */
  lemma InterpolationDefinedAboveBinOne(cfg: Config, amps: seq<real>)
    requires cfg.Valid() && cfg.fftSize < |amps| && cfg.fftSize <= MaxInterpolatedFftSize
    requires cfg.sampleRate / 2 >= cfg.fftSize / 2
    requires cfg.fftSize * (cfg.sampleRate / 2) < WordModulus
    requires 2 <= PeakOf(cfg, amps).bin && PeakOf(cfg, amps).bin + 1 < cfg.fftSize
    ensures var (l, m, r) := Neighbourhood(cfg, amps, PeakOf(cfg, amps).bin);
      VertexAsWritten(l, m, r).Some? && Fit(l, m, r).a < 0.0
  {
    var peak := PeakOf(cfg, amps);
    var bin := peak.bin;
    var h := cfg.sampleRate / 2;
    assert bin * h <= cfg.fftSize * h;
    assert (bin - 1) * h <= bin * h;
    BinToFreqStrictlyIncreasing(cfg.sampleRate, cfg.fftSize, bin - 1);
    BinToFreqStrictlyIncreasing(cfg.sampleRate, cfg.fftSize, bin);
    var (l, m, r) := Neighbourhood(cfg, amps, bin);
    PeakParabolaOpensDown(l, m, r);
  }

  /** An FFT size small enough for interpolation. */
  const SmallFftConfig: Config := Config(44100, 32768, 3, 440)

  /** A spectrum with its peak at bin 1, whose neighbours lie on a line with it. */
  const BinOneSpectrum: seq<real> := seq(32769, BinOneAmplitude)

  function BinOneAmplitude(i: int): real {
    if i == 0 then 50.0 else if i == 1 then 262192.0 else if i == 2 then 262191.0 else 0.0
  }

  lemma BinOneSpectrumPeak()
    ensures PeakOf(SmallFftConfig, BinOneSpectrum) == Peak(1, 262192.0)
  {
    var amps := BinOneSpectrum;
    forall j | 0 <= j < 32768 && j != 1
      ensures amps[j] < amps[1]
    {
      assert amps[j] == BinOneAmplitude(j);
    }
    UniqueMaximumIsPeak(amps, 32768, 1);
  }

  lemma BinOneNeighbourhood()
    ensures Neighbourhood(SmallFftConfig, BinOneSpectrum, 1) == (Point(262142.0, 50.0), Point(0.0, 262192.0), Point(1.0, 262191.0))
  {
    assert CoarseFreq(SmallFftConfig, 0) == 262142.0;
    assert CoarseFreq(SmallFftConfig, 1) == 0.0;
    assert CoarseFreq(SmallFftConfig, 2) == 1.0;
  }

  lemma CollinearNeighbourhood()
    ensures VertexAsWritten(Point(262142.0, 50.0), Point(0.0, 262192.0), Point(1.0, 262191.0)).None?
  {
    var (l, m, r) := (Point(262142.0, 50.0), Point(0.0, 262192.0), Point(1.0, 262191.0));
    assert NumeratorA(l, m, r) == 0.0;
    DenominatorNonzero(l, m, r);
  }

  /**
    The unguarded vertex fails at bin 1: with a 32768-point FFT at 44100 Hz,
    bin 0 wraps to 262142 Hz, and amplitudes 50, 262192, 262191 in bins 0, 1, 2
    put the three points on a line, so the unguarded code divides by a zero leading
    coefficient.
   */
  lemma UnguardedVertexFailsAtBinOne()
    ensures PeakOf(SmallFftConfig, BinOneSpectrum).bin == 1
    ensures PeakOf(SmallFftConfig, BinOneSpectrum).maxAmplitude > SilenceAmplitude
    ensures Interpolates(SmallFftConfig, 1)
    ensures var (l, m, r) := Neighbourhood(SmallFftConfig, BinOneSpectrum, 1);
      VertexAsWritten(l, m, r).None?
  {
    BinOneSpectrumPeak();
    BinOneNeighbourhood();
    CollinearNeighbourhood();
  }

  /**
    With the guard, the same spectrum keeps the coarse frequency of bin 1
    (0 Hz), and the reading is empty because 0 Hz is out of range.
   */
  lemma GuardedVertexKeepsCoarseAtBinOne(log2: real -> real)
    ensures AdjustedFreq(SmallFftConfig, BinOneSpectrum) == 0.0
    ensures GetNote(SmallFftConfig, [0.0, 0.0, 0.0], 0, BinOneSpectrum, log2).note == EmptyNote
  {
    UnguardedVertexFailsAtBinOne();
    BinOneNeighbourhood();
  }
}
