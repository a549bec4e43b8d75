/**
  The spectral side of an analysis pass with the transform itself abstracted
  away: the peak search over the bin amplitudes and the conversion of a bin
  index to a frequency in hertz.
 */
module Spectrum {

  /** 2^32: `size_t` and `int` are 32 bits wide on the target. */
  const WordModulus: int := 0x1_0000_0000

  /** The dominant bin of a spectrum and its amplitude. */
  datatype Peak = Peak(bin: nat, maxAmplitude: real)

  /**
    The peak search over the first `n` amplitudes: a running maximum that starts
    at 0 at bin 0 and moves only on a strictly greater amplitude. The result is
    the lowest bin holding the greatest amplitude, or bin 0 with amplitude 0
    when no amplitude exceeds 0.
   */
  function PeakSearch(amps: seq<real>, n: nat): (p: Peak)
    requires n <= |amps|
    ensures forall j :: 0 <= j < n ==> amps[j] <= p.maxAmplitude
    ensures p.maxAmplitude <= 0.0 ==> p == Peak(0, 0.0)
    ensures p.maxAmplitude > 0.0 ==>
      && p.bin < n
      && amps[p.bin] == p.maxAmplitude
      && forall j :: 0 <= j < p.bin ==> amps[j] < p.maxAmplitude
    decreases n
  {
    if n == 0 then Peak(0, 0.0)
    else
      var p := PeakSearch(amps, n - 1);
      if amps[n - 1] > p.maxAmplitude then Peak(n - 1, amps[n - 1]) else p
  }

  /** A bin whose positive amplitude is strictly above every other scanned amplitude is the peak. */
  lemma UniqueMaximumIsPeak(amps: seq<real>, n: nat, k: nat)
    requires k < n <= |amps| && amps[k] > 0.0
    requires forall j :: 0 <= j < n && j != k ==> amps[j] < amps[k]
    ensures PeakSearch(amps, n) == Peak(k, amps[k])
  {
    var p := PeakSearch(amps, n);
    assert amps[k] <= p.maxAmplitude;
    assert amps[p.bin] == p.maxAmplitude;
  }

  /**
    The frequency of a bin: `(bin - 1) * (sampleRate / 2)` is formed as a 32-bit
    int, converted to `size_t` for the division by `fftSize / 2`, which reduces
    it modulo 2^32, and divided with truncation. For bins from 1 upward, while the
    product fits, this is floor division; bin 0 gives a negative product that
    wraps to a value near 2^32 before the division.
   */
  function BinToFreq(sampleRate: nat, fftSize: nat, bin: int): (f: nat)
    requires fftSize >= 2
    ensures 1 <= bin && (bin - 1) * (sampleRate / 2) < WordModulus ==>
      f * (fftSize / 2) <= (bin - 1) * (sampleRate / 2) < (f + 1) * (fftSize / 2)
    ensures bin == 0 && 0 < sampleRate / 2 <= WordModulus ==>
      f * (fftSize / 2) <= WordModulus - sampleRate / 2 < (f + 1) * (fftSize / 2)
  {
    FloorDiv(Wrapped((bin - 1) * (sampleRate / 2)), fftSize / 2)
  }

  /** An int reduced modulo 2^32, as a conversion to a 32-bit unsigned value does. */
  function Wrapped(x: int): (w: nat)
    ensures w < WordModulus
    ensures 0 <= x < WordModulus ==> w == x
    ensures -WordModulus <= x < 0 ==> w == x + WordModulus
  {
    x % WordModulus
  }

  /** Unsigned division, which truncates. */
  function FloorDiv(n: nat, m: nat): (q: nat)
    requires m > 0
    ensures q * m <= n < (q + 1) * m
  {
    n / m
  }

  lemma MulMonotone(a: nat, b: nat, c: nat)
    requires b <= c
    ensures a * b <= a * c
  {
  }

  /**
    Bin 0 always lands above the 22000 Hz sanity bound for every FFT size up
    to the configured 131072 and every sample rate whose half fits in 31 bits,
    so a peak at bin 0 never yields a note.
   */
  lemma BinZeroIsInsane(sampleRate: nat, fftSize: nat)
    requires 2 <= fftSize <= 131072
    requires 2 <= sampleRate && sampleRate / 2 <= WordModulus / 2
    ensures BinToFreq(sampleRate, fftSize, 0) > 22000
  {
    var h := sampleRate / 2;
    var m := fftSize / 2;
    var f := BinToFreq(sampleRate, fftSize, 0);
    assert WordModulus / 2 <= WordModulus - h < (f + 1) * m;
    MulMonotone(f + 1, m, 65536);
    assert WordModulus / 2 < (f + 1) * 65536;
  }

  /** With the configured 44100 Hz and FFT size 131072, bin 0 reads as 65535 Hz. */
  lemma ConfiguredBinZero()
    ensures BinToFreq(44100, 131072, 0) == 65535
  {
  }

  /** Floor division by a positive divisor moves up by at least one when the dividend grows by the divisor. */
  lemma DivStrictlyIncreasing(a: nat, b: nat, m: nat)
    requires 0 < m && a + m <= b
    ensures a / m < b / m
  {
    assert (a / m + 1) * m <= a + m;
    MulLessCancel(a / m + 1, b / m + 1, m);
  }

  lemma MulLessCancel(x: int, y: int, m: int)
    requires m > 0 && x * m < y * m
    ensures x < y
  {
  }

  /**
    When half the sample rate is at least half the FFT size (bins at least 1 Hz
    apart) and no product wraps, neighbouring bins from 1 upward map to strictly
    increasing frequencies.
   */
  lemma BinToFreqStrictlyIncreasing(sampleRate: nat, fftSize: nat, bin: nat)
    requires fftSize >= 2 && sampleRate / 2 >= fftSize / 2
    requires 1 <= bin && bin * (sampleRate / 2) < WordModulus
    ensures BinToFreq(sampleRate, fftSize, bin) < BinToFreq(sampleRate, fftSize, bin + 1)
  {
    var h := sampleRate / 2;
    var a := (bin - 1) * h;
    var b := bin * h;
    assert a + h == b;
    assert a < WordModulus;
    assert a % WordModulus == a;
    assert b % WordModulus == b;
    DivStrictlyIncreasing(a, b, fftSize / 2);
  }
}
