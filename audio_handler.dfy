/**
 * The Python capture loop: the input-stream callback reduces each block to mono, queues it
 * and tracks voice activity; the processing thread takes blocks off the queue and hands out
 * one concatenated chunk whenever at least a second of audio has gathered.
 */
module AudioHandler {
  import opened Common
  import opened Level

  /** `AUDIO_CONFIG["sample_rate"]`; the duration arithmetic below writes it as the literal 16000.0. */
  const SampleRate: int := 16000
  /** `AUDIO_CONFIG["chunk_duration"]`, in seconds. */
  const ChunkDuration: real := 1.0

  /** Channel 0 of each frame. */
  function FirstChannel(frames: seq<seq<real>>): (r: seq<real>)
    requires forall i :: 0 <= i < |frames| ==> |frames[i]| >= 1
    ensures |r| == |frames|
  {
    seq(|frames|, i requires 0 <= i < |frames| => frames[i][0])
  }

  /** `indata[:, 0] if indata.shape[1] > 1 else indata.flatten()` for frames of `channels` values. */
  function Mono(frames: seq<seq<real>>, channels: nat): seq<real>
    requires forall i :: 0 <= i < |frames| ==> |frames[i]| == channels
  {
    if channels > 1 then FirstChannel(frames) else Flatten(frames)
  }

  /** Both branches take channel 0: flattening single-value frames lists their only channel. */
  lemma {:induction false} MonoIsFirstChannel(frames: seq<seq<real>>, channels: nat)
    requires channels >= 1
    requires forall i :: 0 <= i < |frames| ==> |frames[i]| == channels
    ensures Mono(frames, channels) == FirstChannel(frames)
  {
    if channels == 1 {
      FlattenSingles(frames);
    }
  }

  lemma {:induction false} FlattenSingles(frames: seq<seq<real>>)
    requires forall i :: 0 <= i < |frames| ==> |frames[i]| == 1
    ensures Flatten(frames) == FirstChannel(frames)
  {
    if frames != [] {
      var init := frames[..|frames| - 1];
      FlattenSingles(init);
      assert frames[|frames| - 1] == [frames[|frames| - 1][0]];
    }
  }

  /** `energy > silence_threshold` with energy the RMS, 0.01: Σx² > 0.0001 · n; an empty block is not speech. */
  predicate IsSpeech(block: seq<real>)
  {
    |block| > 0 && SumOfSquares(block) > 0.0001 * |block| as real
  }

  /** For a non-negative `energy` whose square is the mean square, the decision is `energy > 0.01`. */
  lemma SpeechIffEnergyAbove(block: seq<real>, energy: real)
    requires |block| > 0 && energy >= 0.0
    requires energy * energy == SumOfSquares(block) / |block| as real
    ensures IsSpeech(block) <==> energy > 0.01
  {
    MeanSquareOrder(block, energy * energy);
    SquareOrder(energy);
  }

  /** The callback's decision, computed through the mean square: `energy > 0.01` with energy its square root. */
  method SpeechDecision(block: seq<real>) returns (speech: bool)
    ensures speech == IsSpeech(block)
  {
    speech := false;
    if |block| > 0 {
      var ms := MeanSquare(block);
      MeanSquareOrder(block, ms);
      speech := ms > 0.0001;
    }
  }

  /** Adding a block's duration keeps the running duration equal to the samples held over the rate. */
  lemma DurationStep(held: seq<seq<real>>, block: seq<real>, duration: real)
    requires duration == TotalLength(held) as real / 16000.0
    ensures duration + |block| as real / 16000.0 == TotalLength(held + [block]) as real / 16000.0
  {
    assert (held + [block])[..|held|] == held;
  }

  /** Comparing the running duration with one second is comparing the samples held with the rate. */
  lemma DurationGate(samples: nat, duration: real)
    requires duration == samples as real / 16000.0
    ensures duration >= ChunkDuration <==> samples >= SampleRate
  {
  }

  /** The samples handed out, followed by the samples still held, are the samples taken, in order. */
  ghost predicate Conserves<T>(delivered: seq<seq<T>>, held: seq<seq<T>>, taken: seq<seq<T>>)
  {
    Flatten(delivered) + Flatten(held) == Flatten(taken)
  }

  /** Taking one more block into the accumulator keeps the thread's samples in order. */
  lemma FlowStep<T>(delivered: seq<seq<T>>, held: seq<seq<T>>, taken: seq<seq<T>>, block: seq<T>)
    requires Conserves(delivered, held, taken)
    ensures Conserves(delivered, held + [block], taken + [block])
  {
    calc {
      Flatten(delivered) + Flatten(held + [block]);
      { FlattenSnoc(held, block); }
      Flatten(delivered) + (Flatten(held) + block);
      { SeqAssoc(Flatten(delivered), Flatten(held), block); }
      (Flatten(delivered) + Flatten(held)) + block;
      Flatten(taken) + block;
      { FlattenSnoc(taken, block); }
      Flatten(taken + [block]);
    }
  }

  lemma SeqAssoc<T>(a: seq<T>, b: seq<T>, c: seq<T>)
    ensures a + (b + c) == (a + b) + c
  {
  }

  lemma FlattenSnoc<T>(frames: seq<seq<T>>, f: seq<T>)
    ensures Flatten(frames + [f]) == Flatten(frames) + f
  {
    var g := frames + [f];
    assert g[..|g| - 1] == frames;
  }

  /** Handing out the accumulator as one chunk and emptying it loses nothing. */
  lemma FlowDeliver(delivered: seq<seq<real>>, held: seq<seq<real>>, taken: seq<seq<real>>)
    requires Conserves(delivered, held, taken)
    ensures Conserves(delivered + [Flatten(held)], [], taken)
  {
    FlattenAppend(delivered, [Flatten(held)]);
    FlattenSingle(Flatten(held));
    assert Flatten(delivered + [Flatten(held)]) + [] == Flatten(delivered + [Flatten(held)]);
  }

  /** VAD events are alternating, so two in a row never carry the same decision. */
  ghost predicate Alternating(events: seq<bool>)
  {
    forall i :: 0 <= i < |events| - 1 ==> events[i] != events[i + 1]
  }

  /**
   * How far opening the input stream gets: `sd.InputStream(...)` raises, or the stream is
   * constructed but `stream.start()` raises, or it starts.
   */
  datatype Opening = NotConstructed | Constructed | Started

  class AudioCapture {
    var deviceIndex: Option<int>
    var isRecording: bool
    var streamOpen: bool
    /** `audio_queue`: mono blocks, oldest first. */
    var queue: seq<seq<real>>
    var isSpeaking: bool
    /** Whether `on_vad_change` and `on_audio_chunk` are registered. */
    const vadListener: bool
    const chunkListener: bool
    /** The processing thread's `accumulated_audio` and `accumulated_duration`. */
    var accumulated: seq<seq<real>>
    var accumulatedDuration: real
    /** The calls made to `on_vad_change` and to `on_audio_chunk`. */
    ghost var vadEvents: seq<bool>
    ghost var chunks: seq<seq<real>>
    /** The blocks the current processing thread has taken off the queue, and the chunks it has handed out. */
    ghost var taken: seq<seq<real>>
    ghost var threadChunks: seq<seq<real>>

    /**
     * The processing thread's duration matches the samples it holds and stays below one
     * second; every chunk handed out holds at least one second; with a chunk listener, the
     * chunks of the current thread followed by what it still holds are exactly the samples it
     * has taken, in order, so no audio is lost or reordered; the VAD events alternate, start
     * with speech and end with the current decision.
     */
    ghost predicate Valid()
      reads this
    {
      AccumulatorValid() && VadValid() && ChunksValid()
    }

    ghost predicate AccumulatorValid()
      reads this
    {
      && accumulatedDuration == TotalLength(accumulated) as real / 16000.0
      && accumulatedDuration < ChunkDuration
    }

    ghost predicate VadValid()
      reads this
    {
      && (vadListener ==> (Alternating(vadEvents) && (vadEvents == [] ==> !isSpeaking)
          && (vadEvents != [] ==> vadEvents[0] && vadEvents[|vadEvents| - 1] == isSpeaking)))
      && (!vadListener ==> vadEvents == [])
    }

    ghost predicate ChunksValid()
      reads this
    {
      && (forall i :: 0 <= i < |chunks| ==> |chunks[i]| >= SampleRate)
      && (!chunkListener ==> chunks == [] && threadChunks == [])
      && (chunkListener ==> Conserves(threadChunks, accumulated, taken))
    }

    constructor(device: Option<int>, onVadChange: bool, onAudioChunk: bool)
      ensures Valid()
      ensures deviceIndex == device && !isRecording && !streamOpen && queue == [] && !isSpeaking
      ensures vadListener == onVadChange && chunkListener == onAudioChunk
      ensures accumulated == [] && vadEvents == [] && chunks == [] && taken == [] && threadChunks == []
    {
      deviceIndex := device;
      isRecording := false;
      streamOpen := false;
      queue := [];
      isSpeaking := false;
      vadListener := onVadChange;
      chunkListener := onAudioChunk;
      accumulated := [];
      accumulatedDuration := 0.0;
      vadEvents := [];
      chunks := [];
      taken := [];
      threadChunks := [];
    }

    /**
     * `_audio_callback` for a block of frames with `channels` values each: the mono block is
     * queued; when the speech decision differs from the current one it is adopted, and
     * reported if a listener is registered. Repeating a decision reports nothing.
     */
    method AudioCallback(frames: seq<seq<real>>, channels: nat)
      requires Valid()
      requires forall i :: 0 <= i < |frames| ==> |frames[i]| == channels
      modifies this
      ensures Valid()
      ensures queue == old(queue) + [Mono(frames, channels)]
      ensures isSpeaking == IsSpeech(Mono(frames, channels))
      ensures vadEvents == old(vadEvents) + (if vadListener && isSpeaking != old(isSpeaking) then [isSpeaking] else [])
      ensures deviceIndex == old(deviceIndex) && isRecording == old(isRecording) && streamOpen == old(streamOpen)
      ensures accumulated == old(accumulated) && accumulatedDuration == old(accumulatedDuration) && chunks == old(chunks)
      ensures taken == old(taken) && threadChunks == old(threadChunks)
    {
      var block := Mono(frames, channels);
      queue := queue + [block];
      var speech := SpeechDecision(block);
      if speech != isSpeaking {
        isSpeaking := speech;
        if vadListener {
          vadEvents := vadEvents + [speech];
        }
      } else {
        assert vadEvents == vadEvents + [];
      }
    }

    /**
     * `start`: a no-op while recording. Otherwise recording begins only once the stream has
     * started. A stream that was constructed but failed to start stays assigned, so it is still
     * open until `stop` closes it.
     */
    method Start(opening: Opening) returns (failed: bool)
      requires Valid()
      modifies this
      ensures Valid()
      ensures old(isRecording) ==> (!failed && isRecording && streamOpen == old(streamOpen)
        && accumulated == old(accumulated) && accumulatedDuration == old(accumulatedDuration))
      ensures !old(isRecording) && opening == Started ==> (!failed && isRecording && streamOpen
        && accumulated == [] && accumulatedDuration == 0.0 && taken == [] && threadChunks == [])
      ensures !(!old(isRecording) && opening == Started) ==> taken == old(taken) && threadChunks == old(threadChunks)
      ensures !old(isRecording) && opening != Started ==> (failed && !isRecording
        && streamOpen == (opening == Constructed || old(streamOpen))
        && accumulated == old(accumulated) && accumulatedDuration == old(accumulatedDuration))
      ensures deviceIndex == old(deviceIndex) && queue == old(queue) && isSpeaking == old(isSpeaking)
      ensures vadEvents == old(vadEvents) && chunks == old(chunks)
    {
      if isRecording {
        return false;
      }
      if opening == NotConstructed {
        return true;
      }
      // `self.stream` is assigned before `start()` is attempted
      streamOpen := true;
      if opening == Constructed {
        return true;
      }
      isRecording := true;
      // a new processing thread starts with empty accumulators
      accumulated := [];
      accumulatedDuration := 0.0;
      taken := [];
      threadChunks := [];
      failed := false;
    }

    /** `stop`: recording is off, the stream is gone and the queue is drained block by block. */
    method Stop()
      requires Valid()
      modifies this
      ensures Valid()
      ensures !isRecording && !streamOpen && queue == []
      ensures deviceIndex == old(deviceIndex) && isSpeaking == old(isSpeaking)
      ensures accumulated == old(accumulated) && accumulatedDuration == old(accumulatedDuration)
      ensures vadEvents == old(vadEvents) && chunks == old(chunks)
      ensures taken == old(taken) && threadChunks == old(threadChunks)
    {
      isRecording := false;
      streamOpen := false;
      while |queue| > 0
        invariant Valid()
        invariant !isRecording && !streamOpen
        invariant deviceIndex == old(deviceIndex) && isSpeaking == old(isSpeaking)
        invariant accumulated == old(accumulated) && accumulatedDuration == old(accumulatedDuration)
        invariant vadEvents == old(vadEvents) && chunks == old(chunks)
        invariant taken == old(taken) && threadChunks == old(threadChunks)
        decreases |queue|
      {
        queue := queue[1..];
      }
    }

    /** `select_device`: capture is stopped first when running; then the device is set. */
    method SelectDevice(index: int)
      requires Valid()
      modifies this
      ensures Valid()
      ensures deviceIndex == Some(index)
      ensures old(isRecording) ==> !isRecording && !streamOpen && queue == []
      ensures !old(isRecording) ==> isRecording == old(isRecording) && streamOpen == old(streamOpen) && queue == old(queue)
      ensures isSpeaking == old(isSpeaking) && vadEvents == old(vadEvents) && chunks == old(chunks)
      ensures taken == old(taken) && threadChunks == old(threadChunks)
    {
      if isRecording {
        Stop();
      }
      deviceIndex := Some(index);
    }

    /**
     * One pass of `_process_audio`'s loop (only while recording; an empty queue is a timeout
     * and changes nothing): the oldest block leaves the queue and is accumulated.
     */
    method ProcessStep()
      requires Valid() && isRecording
      modifies this
      ensures Valid()
      ensures old(queue) == [] ==> (queue == [] && accumulated == old(accumulated) && chunks == old(chunks)
        && taken == old(taken))
      ensures old(queue) != [] ==> (
        var gathered := old(accumulated) + [old(queue)[0]];
        && queue == old(queue)[1..]
        && taken == old(taken) + [old(queue)[0]]
        && (TotalLength(gathered) >= SampleRate ==> (accumulated == []
            && chunks == old(chunks) + (if chunkListener then [Flatten(gathered)] else [])))
        && (TotalLength(gathered) < SampleRate ==> accumulated == gathered && chunks == old(chunks)))
      ensures deviceIndex == old(deviceIndex) && isRecording == old(isRecording) && streamOpen == old(streamOpen)
      ensures isSpeaking == old(isSpeaking) && vadEvents == old(vadEvents)
    {
      if |queue| == 0 {
        return;
      }
      var block := queue[0];
      queue := queue[1..];
      Accumulate(block);
    }

    /**
     * The body of that pass once a block is at hand: the block joins the accumulator; once one
     * second or more has gathered the blocks go out concatenated, if a listener is registered,
     * and the accumulator starts again.
     */
    method Accumulate(block: seq<real>)
      requires Valid()
      modifies this
      ensures Valid()
      ensures taken == old(taken) + [block]
      ensures var gathered := old(accumulated) + [block];
        && (TotalLength(gathered) >= SampleRate ==> (accumulated == []
            && chunks == old(chunks) + (if chunkListener then [Flatten(gathered)] else [])))
        && (TotalLength(gathered) < SampleRate ==> accumulated == gathered && chunks == old(chunks))
      ensures deviceIndex == old(deviceIndex) && isRecording == old(isRecording) && streamOpen == old(streamOpen)
      ensures queue == old(queue) && isSpeaking == old(isSpeaking) && vadEvents == old(vadEvents)
    {
      var held := accumulated + [block];
      ghost var taken' := taken + [block];
      var duration := accumulatedDuration + |block| as real / 16000.0;
      DurationStep(accumulated, block, accumulatedDuration);
      DurationGate(TotalLength(held), duration);
      if chunkListener {
        FlowStep(threadChunks, accumulated, taken, block);
      }
      if duration >= ChunkDuration {
        Release(held, taken');
      } else {
        Hold(held, duration, taken');
      }
    }

    /** Less than a second is gathered: the blocks stay in the accumulator with their duration. */
    method Hold(held: seq<seq<real>>, duration: real, ghost taken': seq<seq<real>>)
      requires VadValid() && duration == TotalLength(held) as real / 16000.0 && duration < ChunkDuration
      requires forall i :: 0 <= i < |chunks| ==> |chunks[i]| >= SampleRate
      requires !chunkListener ==> chunks == [] && threadChunks == []
      requires chunkListener ==> Conserves(threadChunks, held, taken')
      modifies this
      ensures Valid() && accumulated == held && taken == taken' && chunks == old(chunks)
      ensures deviceIndex == old(deviceIndex) && isRecording == old(isRecording) && streamOpen == old(streamOpen)
      ensures queue == old(queue) && isSpeaking == old(isSpeaking) && vadEvents == old(vadEvents)
    {
      accumulated, accumulatedDuration, taken := held, duration, taken';
    }

    /** A full second or more is gathered: it goes to the listener as one chunk and the accumulator restarts. */
    method Release(held: seq<seq<real>>, ghost taken': seq<seq<real>>)
      requires VadValid() && TotalLength(held) >= SampleRate
      requires forall i :: 0 <= i < |chunks| ==> |chunks[i]| >= SampleRate
      requires !chunkListener ==> chunks == [] && threadChunks == []
      requires chunkListener ==> Conserves(threadChunks, held, taken')
      modifies this
      ensures Valid() && accumulated == [] && taken == taken'
      ensures chunks == old(chunks) + (if chunkListener then [Flatten(held)] else [])
      ensures deviceIndex == old(deviceIndex) && isRecording == old(isRecording) && streamOpen == old(streamOpen)
      ensures queue == old(queue) && isSpeaking == old(isSpeaking) && vadEvents == old(vadEvents)
    {
      FlattenLength(held);
      var combined := Flatten(held);
      if chunkListener {
        FlowDeliver(threadChunks, held, taken');
        chunks, threadChunks := chunks + [combined], threadChunks + [combined];
      } else {
        assert chunks == chunks + [];
      }
      accumulated, accumulatedDuration, taken := [], 0.0, taken';
    }

    /**
     * `get_level`: 0 on an empty queue; otherwise the oldest block is taken off and put back
     * at the end, so the queue keeps its blocks but not its order, and its mean square is
     * returned (the RMS before the square root).
     */
    method GetLevel() returns (meanSquare: real)
      requires Valid()
      modifies this
      ensures Valid()
      ensures old(queue) == [] ==> meanSquare == 0.0 && queue == []
      ensures old(queue) != [] ==> (queue == old(queue)[1..] + [old(queue)[0]]
        && multiset(queue) == multiset(old(queue))
        && (old(queue)[0] != [] ==> meanSquare == SumOfSquares(old(queue)[0]) / |old(queue)[0]| as real))
      ensures deviceIndex == old(deviceIndex) && isRecording == old(isRecording) && streamOpen == old(streamOpen)
      ensures isSpeaking == old(isSpeaking) && accumulated == old(accumulated) && vadEvents == old(vadEvents)
      ensures chunks == old(chunks) && taken == old(taken) && threadChunks == old(threadChunks)
    {
      if |queue| == 0 {
        return 0.0;
      }
      var block := queue[0];
      queue := queue[1..] + [block];
      assert old(queue) == [block] + old(queue)[1..];
      meanSquare := 0.0;
      if |block| > 0 {
        meanSquare := MeanSquare(block);
      }
    }
  }
}
