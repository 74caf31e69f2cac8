/** Shared value types: bytes, an optional value, and flattening of frame lists. */
module Common {

  /** One octet, as held by a Uint8Array or a Python bytes object. */
  newtype byte = x: int | 0 <= x < 256

  datatype Option<+T> = None | Some(value: T)

  /**
   * How far a PCM client's `startRecording` gets: `getUserMedia` is refused, access is granted
   * but building the audio graph (`new AudioContext(...)` and its nodes) throws, or capture
   * starts.
   */
  datatype Access = Refused | GraphFailed | Granted

  /** A browser MediaRecorder as seen through `mediaRecorder && mediaRecorder.state`. */
  datatype Recorder = NoRecorder | Inactive | Active

  /**
   * Truncation toward zero: the ToIntegerOrInfinity step of ECMAScript's ToInt16, and
   * Python's `int()` of a float.
   */
  function Trunc(x: real): (n: int)
    ensures x >= 0.0 ==> n as real <= x < n as real + 1.0
    ensures x < 0.0 ==> n as real - 1.0 < x <= n as real
  {
    if x >= 0.0 then x.Floor else -((-x).Floor)
  }

  /** The number of samples in a list of frames (JS `reduce((sum, buf) => sum + buf.length, 0)`). */
  function TotalLength<T>(frames: seq<seq<T>>): (n: nat)
    ensures frames == [] ==> n == 0
  {
    if frames == [] then 0 else TotalLength(frames[..|frames| - 1]) + |frames[|frames| - 1]|
  }

  /** The frames laid end to end, in order (numpy.concatenate, Float32Array.set at offsets, Blob parts). */
  function Flatten<T>(frames: seq<seq<T>>): (r: seq<T>)
  {
    if frames == [] then [] else Flatten(frames[..|frames| - 1]) + frames[|frames| - 1]
  }

  lemma {:induction false} FlattenLength<T>(frames: seq<seq<T>>)
    ensures |Flatten(frames)| == TotalLength(frames)
  {
    if frames != [] {
      FlattenLength(frames[..|frames| - 1]);
    }
  }

  lemma {:induction false} FlattenAppend<T>(a: seq<seq<T>>, b: seq<seq<T>>)
    ensures Flatten(a + b) == Flatten(a) + Flatten(b)
    decreases |b|
  {
    if b == [] {
      assert a + b == a;
    } else {
      var last := |b| - 1;
      assert (a + b)[..|a + b| - 1] == a + b[..last];
      FlattenAppend(a, b[..last]);
    }
  }

  lemma FlattenSingle<T>(f: seq<T>)
    ensures Flatten([f]) == f
  {
    assert [f][..0] == [];
  }

  /** Every frame of the list, one after another, occupies its own slice of the flattening. */
  lemma {:induction false} FlattenPrefix<T>(frames: seq<seq<T>>, k: nat)
    requires k <= |frames|
    ensures Flatten(frames[..k]) <= Flatten(frames)
    decreases |frames|
  {
    if k < |frames| {
      var init := frames[..|frames| - 1];
      assert frames[..k] == init[..k];
      FlattenPrefix(init, k);
    } else {
      assert frames[..k] == frames;
    }
  }

  /** The frames that are not empty, in order (MediaRecorder `ondataavailable` keeps only `size > 0`). */
  function KeepNonEmpty<T>(frames: seq<seq<T>>): (r: seq<seq<T>>)
    ensures |r| <= |frames|
    ensures forall i :: 0 <= i < |r| ==> r[i] != []
  {
    if frames == [] then []
    else
      var last := frames[|frames| - 1];
      KeepNonEmpty(frames[..|frames| - 1]) + (if last == [] then [] else [last])
  }

  /** Dropping empty fragments never changes the bytes they make up together. */
  lemma {:induction false} FlattenKeepNonEmpty<T>(frames: seq<seq<T>>)
    ensures Flatten(KeepNonEmpty(frames)) == Flatten(frames)
  {
    if frames != [] {
      var init, last := frames[..|frames| - 1], frames[|frames| - 1];
      FlattenKeepNonEmpty(init);
      if last == [] {
        assert KeepNonEmpty(frames) == KeepNonEmpty(init) + [];
        assert KeepNonEmpty(init) + [] == KeepNonEmpty(init);
      } else {
        FlattenAppend(KeepNonEmpty(init), [last]);
        FlattenSingle(last);
      }
    }
  }
}
