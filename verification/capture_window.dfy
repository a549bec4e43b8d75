/**
  The capture window of the sound processor: a fixed-length byte buffer that
  every successful device read shifts left by the number of bytes read,
  appending the newly read bytes at the end.
 */
module CaptureWindow {

  newtype byte = x: int | 0 <= x < 256

  /**
    The window after one read that returned `bytesRead`: a read of at most zero
    bytes (an error or nothing available) leaves the window as it was;
    otherwise the oldest `bytesRead` bytes are dropped, the rest move to the
    front in order, and the first `bytesRead` bytes of the fragment fill the tail.
   */
  function Capture(window: seq<byte>, frag: seq<byte>, bytesRead: int): (w: seq<byte>)
    requires bytesRead <= |frag| <= |window|
    ensures |w| == |window|
    ensures bytesRead <= 0 ==> w == window
    ensures bytesRead > 0 ==>
      && (forall i :: 0 <= i < |window| - bytesRead ==> w[i] == window[i + bytesRead])
      && (forall j :: 0 <= j < bytesRead ==> w[|window| - bytesRead + j] == frag[j])
  {
    if bytesRead <= 0 then window else window[bytesRead..] + frag[..bytesRead]
  }

  /** The bytes a read contributes to the audio stream. */
  function Received(frag: seq<byte>, bytesRead: int): (r: seq<byte>)
    requires bytesRead <= |frag|
    ensures |r| == if bytesRead > 0 then bytesRead else 0
  {
    if bytesRead > 0 then frag[..bytesRead] else []
  }

  /**
    The last `size` bytes of a stream; while fewer than `size` bytes have been
    captured the front is zero-filled, as the buffer is cleared when allocated.
   */
  function Recent(stream: seq<byte>, size: nat): (w: seq<byte>)
    ensures |w| == size
  {
    if |stream| >= size then stream[|stream| - size..]
    else seq(size - |stream|, _ => 0 as byte) + stream
  }

  /**
    The window always holds the most recent bytes of the captured stream in
    their original order: capturing a read into the window of a stream gives the
    window of the stream extended by what the read received.
   */
  lemma CaptureKeepsRecent(stream: seq<byte>, frag: seq<byte>, bytesRead: int, size: nat)
    requires bytesRead <= |frag| <= size
    ensures Capture(Recent(stream, size), frag, bytesRead) == Recent(stream + Received(frag, bytesRead), size)
  {
    var before := Recent(stream, size);
    var got := Received(frag, bytesRead);
    var lhs := Capture(before, frag, bytesRead);
    var rhs := Recent(stream + got, size);
    if bytesRead > 0 {
      var n := bytesRead;
      forall i | 0 <= i < size
        ensures lhs[i] == rhs[i]
      {
        var s' := stream + got;
        if i < size - n {
          assert lhs[i] == before[i + n];
          if |stream| >= size {
            assert before[i + n] == stream[|stream| - size + i + n];
            assert rhs[i] == s'[|s'| - size + i];
          } else if i + n < size - |stream| {
            assert before[i + n] == 0;
            assert |s'| < size;
            assert rhs[i] == 0;
          } else {
            assert before[i + n] == stream[i + n - (size - |stream|)];
            if |s'| >= size {
              assert rhs[i] == s'[|s'| - size + i];
            } else {
              assert rhs[i] == s'[i - (size - |s'|)];
            }
          }
        } else {
          var j := i - (size - n);
          assert lhs[i] == frag[j];
          assert s'[|stream| + j] == frag[j];
          if |s'| >= size {
            assert rhs[i] == s'[|s'| - size + i];
          } else {
            assert rhs[i] == s'[i - (size - |s'|)];
          }
        }
      }
    } else {
      assert stream + got == stream;
    }
  }
}
