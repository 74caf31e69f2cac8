/**
 * The WAV browser client: samples are appended to one flat buffer while recording; every
 * three seconds a timer hands the buffer to `processAndSendChunk`, which drops it when its
 * RMS level is below 0.01 and otherwise sends it as a WAV file (symmetric int16 scaling)
 * read back as a data URL, in an 'audio_blob' event.
 */
module AudioWav {
  import opened Common
  import Text
  import Base64
  import Wave
  import Wire
  import opened Level

  const SampleRate: int := 16000
  /** Milliseconds between timer ticks. */
  const ChunkDurationMs: int := 3000

  /**
   * `getAudioLevel(buffer) < 0.01`, that is sqrt(Σx²/n) < 0.01, stated without the square root:
   * Σx² < 0.0001 · n.
   */
  predicate IsSilent(s: seq<real>)
  {
    SumOfSquares(s) < 0.0001 * |s| as real
  }

  /** For any non-negative `level` whose square is the mean square (the RMS), the gate is `level < 0.01`. */
  lemma SilentIffLevelBelow(s: seq<real>, level: real)
    requires |s| > 0 && level >= 0.0
    requires level * level == SumOfSquares(s) / |s| as real
    ensures IsSilent(s) <==> level < 0.01
  {
    MeanSquareGate(s, level * level);
    SquareOrder(level);
  }

  /** Comparing the mean square with 0.01² = 0.0001 is the silence gate. */
  lemma MeanSquareGate(s: seq<real>, ms: real)
    requires |s| > 0 && ms == SumOfSquares(s) / |s| as real
    ensures IsSilent(s) <==> ms < 0.0001
  {
    MeanSquareOrder(s, ms);
  }

  /** A buffer of digital silence is always dropped. */
  lemma {:induction false} ZerosAreSilent(s: seq<real>)
    requires |s| > 0 && forall i :: 0 <= i < |s| ==> s[i] == 0.0
    ensures IsSilent(s)
  {
    ZeroSum(s);
  }

  /** A buffer holding one full-scale sample is never dropped, whatever else it holds (up to 10000 samples). */
  lemma {:induction false} LoudSampleNotSilent(s: seq<real>, i: nat)
    requires i < |s| <= 10000 && (s[i] >= 1.0 || s[i] <= -1.0)
    ensures !IsSilent(s)
  {
    SumAtLeastSquare(s, i);
    assert s[i] * s[i] >= 1.0;
  }

  /** The 'audio_blob' event for one non-silent buffer: the WAV file via its data URL, 3 seconds. */
  function BlobMessage(samples: seq<real>): Wire.Message
  {
    var url := Base64.DataUrl("audio/wav", Wave.Encode(Wave.Symmetric, samples, SampleRate));
    Wire.AudioBlob(Base64.DataUrlPayload(url), "audio/wav", ChunkDurationMs / 1000)
  }

  /** What one `processAndSendChunk` emits: nothing for an empty or silent buffer, else one blob. */
  function Flush(samples: seq<real>): seq<Wire.Message>
  {
    if samples == [] || IsSilent(samples) then [] else [BlobMessage(samples)]
  }

  /**
   * A sent blob carries the base64 of the WAV file, typed 'audio/wav', with the nominal duration
   * 3 whatever the number of samples; the server's decoding gives back that file.
   */
  lemma BlobMessageContents(samples: seq<real>)
    ensures var m := BlobMessage(samples);
      && m.AudioBlob? && m.mimeType == "audio/wav" && m.duration == 3
      && Base64.Decode(m.audio) == Some(Wave.Encode(Wave.Symmetric, samples, SampleRate))
  {
    var wav := Wave.Encode(Wave.Symmetric, samples, SampleRate);
    Base64.DataUrlPayloadIsBase64("audio/wav", wav);
    Base64.DecodeEncode(wav);
  }

  /**
   * For the buffer's RMS `level` (a non-negative number whose square is the mean square), a
   * flush emits an event exactly when the buffer is non-empty and `level >= 0.01`, and that one
   * event is the 'audio/wav' blob the server decodes back to the buffer's WAV file.
   */
  lemma FlushSendsIffAudible(samples: seq<real>, level: real)
    requires level >= 0.0
    requires samples != [] ==> level * level == SumOfSquares(samples) / |samples| as real
    ensures |Flush(samples)| <= 1
    ensures Flush(samples) != [] <==> samples != [] && level >= 0.01
    ensures Flush(samples) != [] ==> var m := Flush(samples)[0];
      && m.AudioBlob? && m.mimeType == "audio/wav"
      && Base64.Decode(m.audio) == Some(Wave.Encode(Wave.Symmetric, samples, SampleRate))
  {
    if samples != [] {
      SilentIffLevelBelow(samples, level);
      BlobMessageContents(samples);
    }
  }

  class WhisperLiveWav {
    var isRecording: bool
    /** Whether the three-second interval timer is installed. */
    var chunkTimer: bool
    /** Whether the microphone stream is held. */
    var streamOpen: bool
    var audioBuffer: seq<real>
    var transcriptionText: seq<string>
    /** The number shown in the word-count element. */
    var wordCount: int
    ghost var sent: seq<Wire.Message>

    constructor()
      ensures !isRecording && !chunkTimer && !streamOpen && audioBuffer == []
      ensures transcriptionText == [] && wordCount == 0 && sent == []
    {
      isRecording := false;
      chunkTimer := false;
      streamOpen := false;
      audioBuffer := [];
      transcriptionText := [];
      wordCount := 0;
      sent := [];
    }

    /** `onaudioprocess`: samples are appended only while recording. */
    method OnAudioProcess(frame: seq<real>)
      modifies this
      ensures audioBuffer == if old(isRecording) then old(audioBuffer) + frame else old(audioBuffer)
      ensures isRecording == old(isRecording) && chunkTimer == old(chunkTimer) && streamOpen == old(streamOpen)
      ensures sent == old(sent) && transcriptionText == old(transcriptionText) && wordCount == old(wordCount)
    {
      if isRecording {
        audioBuffer := audioBuffer + frame;
      }
    }

    /**
     * `startRecording`: with microphone access the stream is held at once; once the audio graph
     * is built the buffer starts empty, recording is on and the timer runs. A refusal is only
     * reported; when the graph throws, the stream stays held and nothing else changes.
     */
    method StartRecording(access: Access)
      modifies this
      ensures access == Granted ==> isRecording && chunkTimer && streamOpen && audioBuffer == []
      ensures access != Granted ==> (isRecording == old(isRecording) && chunkTimer == old(chunkTimer)
        && audioBuffer == old(audioBuffer))
      ensures access == GraphFailed ==> streamOpen
      ensures access == Refused ==> streamOpen == old(streamOpen)
      ensures sent == old(sent) && transcriptionText == old(transcriptionText) && wordCount == old(wordCount)
    {
      if access == Refused {
        return;
      }
      streamOpen := true;
      if access == GraphFailed {
        return;
      }
      audioBuffer := [];
      isRecording := true;
      chunkTimer := true;
    }

    /**
     * `processAndSendChunk`: an empty buffer is left alone; a silent one is discarded; an audible
     * one is encoded and sent. Either way the buffer ends empty.
     */
    method ProcessAndSendChunk()
      modifies this
      ensures audioBuffer == [] && sent == old(sent) + Flush(old(audioBuffer))
      ensures isRecording == old(isRecording) && chunkTimer == old(chunkTimer) && streamOpen == old(streamOpen)
      ensures transcriptionText == old(transcriptionText) && wordCount == old(wordCount)
    {
      if |audioBuffer| == 0 {
        return;
      }
      var ms := MeanSquare(audioBuffer);
      MeanSquareGate(audioBuffer, ms);
      if ms < 0.0001 {
        audioBuffer := [];
        return;
      }
      var wav := Wave.EncodeWav(Wave.Symmetric, audioBuffer, SampleRate);
      ghost var samples := audioBuffer;
      audioBuffer := [];
      var url := Base64.DataUrl("audio/wav", wav[..]);
      sent := sent + [Wire.AudioBlob(Base64.DataUrlPayload(url), "audio/wav", ChunkDurationMs / 1000)];
      assert sent == old(sent) + [BlobMessage(samples)];
    }

    /** The interval callback: it flushes only while recording and when there is something buffered. */
    method Tick()
      modifies this
      ensures old(isRecording) && old(audioBuffer) != [] ==> audioBuffer == [] && sent == old(sent) + Flush(old(audioBuffer))
      ensures !(old(isRecording) && old(audioBuffer) != []) ==> audioBuffer == old(audioBuffer) && sent == old(sent)
      ensures isRecording == old(isRecording) && chunkTimer == old(chunkTimer) && streamOpen == old(streamOpen)
      ensures transcriptionText == old(transcriptionText) && wordCount == old(wordCount)
    {
      if isRecording && |audioBuffer| > 0 {
        ProcessAndSendChunk();
      }
    }

    /** `stopChunkStreaming`: the timer is removed and any remaining audio goes through the same gate. */
    method StopChunkStreaming()
      modifies this
      ensures !chunkTimer && audioBuffer == [] && sent == old(sent) + Flush(old(audioBuffer))
      ensures isRecording == old(isRecording) && streamOpen == old(streamOpen)
      ensures transcriptionText == old(transcriptionText) && wordCount == old(wordCount)
    {
      chunkTimer := false;
      if |audioBuffer| > 0 {
        ProcessAndSendChunk();
      }
    }

    /**
     * `stopRecording`: recording goes off before the final flush, so no sample can be appended
     * after it; a silent remainder is dropped; the stream is released and the buffer is empty.
     */
    method StopRecording()
      modifies this
      ensures !isRecording && !chunkTimer && !streamOpen && audioBuffer == []
      ensures sent == old(sent) + Flush(old(audioBuffer))
      ensures transcriptionText == old(transcriptionText) && wordCount == old(wordCount)
    {
      isRecording := false;
      StopChunkStreaming();
      streamOpen := false;
      audioBuffer := [];
    }

    /** `toggleRecording`. */
    method ToggleRecording(access: Access)
      modifies this
      ensures old(isRecording) ==> (!isRecording && !chunkTimer && !streamOpen && audioBuffer == []
        && sent == old(sent) + Flush(old(audioBuffer)))
      ensures !old(isRecording) ==> (isRecording == (access == Granted) && sent == old(sent)
        && chunkTimer == (access == Granted || old(chunkTimer))
        && streamOpen == (access != Refused || old(streamOpen))
        && audioBuffer == (if access == Granted then [] else old(audioBuffer)))
      ensures transcriptionText == old(transcriptionText) && wordCount == old(wordCount)
    {
      if isRecording {
        StopRecording();
      } else {
        StartRecording(access);
      }
    }

    /**
     * `addTranscription`: the text is appended and the shown count grows by the number of
     * non-empty `split(' ')` pieces, which are the text's space-separated words.
     */
    method AddTranscription(text: string)
      modifies this
      ensures transcriptionText == old(transcriptionText) + [text]
      ensures wordCount == old(wordCount) + |Text.Words(Text.SpaceOnly, text)|
      ensures isRecording == old(isRecording) && chunkTimer == old(chunkTimer) && streamOpen == old(streamOpen)
      ensures audioBuffer == old(audioBuffer) && sent == old(sent)
    {
      transcriptionText := transcriptionText + [text];
      var words := |Text.NonEmpty(Text.Split(text, ' '))|;
      Text.NonEmptySplitWords(text);
      wordCount := wordCount + words;
    }

    /** `saveTranscript`: one 'save_transcript' event with the entries joined by blank lines. */
    method SaveTranscript()
      modifies this
      ensures sent == old(sent) + [Wire.SaveTranscript(Text.Join(transcriptionText, "\n\n"))]
      ensures isRecording == old(isRecording) && chunkTimer == old(chunkTimer) && streamOpen == old(streamOpen)
      ensures audioBuffer == old(audioBuffer) && transcriptionText == old(transcriptionText) && wordCount == old(wordCount)
    {
      sent := sent + [Wire.SaveTranscript(Text.Join(transcriptionText, "\n\n"))];
    }

    /** `clearTranscript`: no entries and the count shows 0. */
    method ClearTranscript()
      modifies this
      ensures transcriptionText == [] && wordCount == 0
      ensures isRecording == old(isRecording) && chunkTimer == old(chunkTimer) && streamOpen == old(streamOpen)
      ensures audioBuffer == old(audioBuffer) && sent == old(sent)
    {
      transcriptionText := [];
      wordCount := 0;
    }
  }
}
