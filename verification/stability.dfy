/**
  The frequency history of the sound processor and the consistency test run on
  it after every accepted peak.
 */
module Stability {

  /**
    One push: every entry moves one slot toward index 0, the oldest entry
    (index 0) is dropped and the new frequency is stored in the last slot.
   */
  function Push(history: seq<real>, f: real): (h: seq<real>)
    requires |history| >= 1
    ensures |h| == |history|
    ensures forall i :: 0 <= i < |history| - 1 ==> h[i] == history[i + 1]
    ensures h[|h| - 1] == f
  {
    history[1..] + [f]
  }

  /** The history after pushing each frequency of `fs` in order. */
  function PushAll(history: seq<real>, fs: seq<real>): (h: seq<real>)
    requires |history| >= 1
    ensures |h| == |history|
    decreases |fs|
  {
    if fs == [] then history else PushAll(Push(history, fs[0]), fs[1..])
  }

  /**
    The history is a sliding window over the pushed frequencies: after pushing
    `fs` it holds the last |history| values of the old history followed by `fs`.
   */
  lemma {:induction false} PushAllWindow(history: seq<real>, fs: seq<real>)
    requires |history| >= 1
    ensures PushAll(history, fs) == (history + fs)[|fs|..]
    decreases |fs|
  {
    if fs != [] {
      var h' := Push(history, fs[0]);
      PushAllWindow(h', fs[1..]);
      assert h' + fs[1..] == (history + fs)[1..];
    }
  }

  /** Once at least |history| frequencies have been pushed, the history holds exactly the most recent ones. */
  lemma HistoryForgetsOldEntries(history: seq<real>, fs: seq<real>)
    requires 1 <= |history| <= |fs|
    ensures PushAll(history, fs) == fs[|fs| - |history|..]
  {
    PushAllWindow(history, fs);
    assert (history + fs)[|fs|..] == fs[|fs| - |history|..];
  }

  /** `cur` is within 10% of `prev`: it is neither above prev*1.1 nor below prev*0.9. */
  predicate WithinTolerance(prev: real, cur: real) {
    prev * 0.9 <= cur <= prev * 1.1
  }

  /** Every adjacent pair of the history is within tolerance. */
  predicate Consistent(history: seq<real>) {
    forall h :: 1 <= h < |history| ==> WithinTolerance(history[h - 1], history[h])
  }

  /**
    The consistency loop: pairs are examined from index 1 upward and the first
    pair out of tolerance ends the scan with a negative verdict.
   */
  method CheckConsistency(history: seq<real>) returns (consistentTone: bool)
    ensures consistentTone <==> Consistent(history)
  {
    consistentTone := true;
    var h := 1;
    while h < |history|
      invariant 1 <= h
      invariant consistentTone
      invariant forall k :: 1 <= k < h && k < |history| ==> WithinTolerance(history[k - 1], history[k])
    {
      var freq := history[h];
      var prevFreq := history[h - 1];
      if freq > prevFreq * 1.1 || freq < prevFreq * 0.9 {
        consistentTone := false;
        break;
      }
      h := h + 1;
    }
  }

  /** A history that repeats one non-negative frequency is consistent. */
  lemma SteadyHistoryIsConsistent(history: seq<real>, f: real)
    requires f >= 0.0
    requires forall i :: 0 <= i < |history| ==> history[i] == f
    ensures Consistent(history)
  {
  }

  /** A jump of more than 10% makes the history inconsistent, e.g. 100, 100, 200 Hz. */
  lemma OctaveJumpIsInconsistent()
    ensures !Consistent([100.0, 100.0, 200.0])
  {
    var history := [100.0, 100.0, 200.0];
    assert !WithinTolerance(history[1], history[2]);
  }
}
