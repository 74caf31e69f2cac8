/**
 * The PCM browser client: script-processor frames are buffered until two seconds of 16 kHz
 * audio (32000 samples) are present, then the frames are combined, encoded as WAV with the
 * asymmetric int16 scaling, base64-encoded and emitted as 'audio_data'.
 */
module AudioPcm {
  import opened Common
  import Text
  import Base64
  import Wave
  import Wire

  const SampleRate: int := 16000
  /** Seconds of audio per chunk. */
  const ChunkDuration: real := 2.0
  /** `Math.floor(this.sampleRate * this.chunkDuration)`. */
  const ChunkSamples: int := (SampleRate as real * ChunkDuration).Floor

  /** The 'audio_data' event one chunk of samples becomes. */
  function ChunkMessage(samples: seq<real>): (m: Wire.Message)
    ensures m.AudioData? && m.format == "wav" && m.sampleRate == SampleRate
  {
    Wire.AudioData(Base64.Encode(Wave.Encode(Wave.Asymmetric, samples, SampleRate)), "wav", SampleRate)
  }

  /** The server's `base64.b64decode` of an 'audio_data' payload yields exactly the WAV file the client built. */
  lemma ServerDecodesChunk(samples: seq<real>)
    ensures Base64.Decode(ChunkMessage(samples).audio) == Some(Wave.Encode(Wave.Asymmetric, samples, SampleRate))
  {
    Base64.DecodeEncode(Wave.Encode(Wave.Asymmetric, samples, SampleRate));
  }

  /** That file's header announces mono 16-bit PCM at 16 kHz (32000 bytes per second) and 2n data bytes. */
  lemma ChunkHeader(samples: seq<real>)
    ensures Wave.ParseHeader(Wave.Encode(Wave.Asymmetric, samples, SampleRate))
      == Some(Wave.Format(1, 1, SampleRate, 2 * SampleRate, 2, 16, 2 * |samples| % 0x1_0000_0000))
  {
    Wave.ParseEncodedHeaderInRange(Wave.Asymmetric, samples, SampleRate);
  }

  /** Its samples are the client's samples in order, clamped, scaled asymmetrically and truncated. */
  lemma ChunkSamplesRecovered(samples: seq<real>)
    ensures Wave.ReadSamples(Wave.Encode(Wave.Asymmetric, samples, SampleRate))
      == seq(|samples|, i requires 0 <= i < |samples| => Wave.SampleValue(Wave.Asymmetric, samples[i]))
  {
    Wave.DecodeSamples(Wave.Asymmetric, samples, SampleRate);
  }

  /**
   * The duration display: whole seconds since the start, shown as minutes and seconds, each
   * padded to two characters. JavaScript's `%` truncates toward zero, which matters only if the
   * clock went backwards.
   */
  function FormatElapsed(elapsedMs: int): (r: string)
  {
    var elapsed := elapsedMs / 1000;
    var seconds := if elapsed >= 0 || elapsed % 60 == 0 then elapsed % 60 else elapsed % 60 - 60;
    Text.TwoDigits(elapsed / 60) + ":" + Text.TwoDigits(seconds)
  }

  /** Under an hour and forward in time, the display is "mm:ss" with mm * 60 + ss the elapsed whole seconds. */
  lemma FormatElapsedShape(elapsedMs: int)
    requires 0 <= elapsedMs < 6_000_000
    ensures var r := FormatElapsed(elapsedMs);
      && |r| == 5 && r[2] == ':'
      && Text.DigitsValue(r[..2]) * 60 + Text.DigitsValue(r[3..]) == elapsedMs / 1000
      && Text.DigitsValue(r[3..]) < 60
  {
    var elapsed := elapsedMs / 1000;
    var minutes, seconds := elapsed / 60, elapsed % 60;
    assert 0 <= elapsed < 6000;
    assert minutes * 60 + seconds == elapsed && 0 <= minutes < 100 && 0 <= seconds < 60;
    var mm, ss := Text.TwoDigits(minutes), Text.TwoDigits(seconds);
    Text.TwoDigitsShape(minutes);
    Text.TwoDigitsShape(seconds);
    var r := FormatElapsed(elapsedMs);
    assert r == mm + ":" + ss;
    assert r[..2] == mm;
    assert r[3..] == ss;
  }

  /** `combinedBuffer.set(buffer, offset)` for each buffered frame in turn. */
  method CombineFrames(frames: seq<seq<real>>) returns (combined: array<real>)
    ensures combined[..] == Flatten(frames)
  {
    FlattenLength(frames);
    combined := new real[TotalLength(frames)];
    var offset := 0;
    for i := 0 to |frames|
      invariant offset == |Flatten(frames[..i])|
      invariant Flatten(frames[..i]) <= Flatten(frames)
      invariant combined[..offset] == Flatten(frames[..i])
    {
      var buffer := frames[i];
      assert frames[..i + 1][..i] == frames[..i];
      FlattenPrefix(frames, i + 1);
      for j := 0 to |buffer|
        invariant combined[..offset] == Flatten(frames[..i])
        invariant forall k :: 0 <= k < j ==> combined[offset + k] == buffer[k]
      {
        combined[offset + j] := buffer[j];
      }
      assert combined[..offset + |buffer|] == Flatten(frames[..i]) + buffer;
      offset := offset + |buffer|;
    }
    assert frames[..|frames|] == frames;
  }

  /** `arrayBufferToBase64`: one character per byte, in order, then `btoa`. */
  method ArrayBufferToBase64(buffer: array<byte>) returns (b64: string)
    ensures b64 == Base64.Encode(buffer[..])
  {
    var binary := "";
    for i := 0 to buffer.Length
      invariant binary == Base64.Latin1(buffer[..i])
    {
      assert Base64.Latin1(buffer[..i + 1]) == Base64.Latin1(buffer[..i]) + [buffer[i] as int as char];
      binary := binary + [buffer[i] as int as char];
    }
    assert buffer[..buffer.Length] == buffer[..];
    Base64.BtoaLatin1(buffer[..]);
    var r := Base64.Btoa(binary);
    b64 := r.value;
  }

  class WhisperLivePcm {
    var isRecording: bool
    var startTime: int
    /** Float32Array frames awaiting the next chunk, in arrival order. */
    var audioBuffer: seq<seq<real>>
    var transcriptionText: seq<string>
    var wordCount: int
    var durationText: string
    /** Every event emitted on the socket, oldest first. */
    ghost var sent: seq<Wire.Message>

    /** A chunk is sent as soon as the buffer reaches its size, so a full chunk never waits. */
    ghost predicate Valid()
      reads this
    {
      TotalLength(audioBuffer) < ChunkSamples
    }

    constructor()
      ensures Valid()
      ensures !isRecording && audioBuffer == [] && transcriptionText == [] && wordCount == 0 && sent == []
    {
      isRecording := false;
      startTime := 0;
      audioBuffer := [];
      transcriptionText := [];
      wordCount := 0;
      durationText := "00:00";
      sent := [];
    }

    /**
     * `sendAudioChunk`: nothing on an empty buffer; otherwise one 'audio_data' event carrying the
     * frames concatenated in push order, after which the buffer is empty.
     */
    method SendAudioChunk()
      modifies this
      ensures old(audioBuffer) == [] ==> audioBuffer == [] && sent == old(sent)
      ensures old(audioBuffer) != [] ==> audioBuffer == [] && sent == old(sent) + [ChunkMessage(Flatten(old(audioBuffer)))]
      ensures isRecording == old(isRecording) && startTime == old(startTime) && durationText == old(durationText)
      ensures transcriptionText == old(transcriptionText) && wordCount == old(wordCount)
    {
      if |audioBuffer| == 0 {
        return;
      }
      var combined := CombineFrames(audioBuffer);
      ghost var samples := Flatten(audioBuffer);
      audioBuffer := [];
      var wavData := Wave.EncodeWav(Wave.Asymmetric, combined[..], SampleRate);
      var base64 := ArrayBufferToBase64(wavData);
      sent := sent + [Wire.AudioData(base64, "wav", SampleRate)];
    }

    /**
     * `onaudioprocess`: a frame is kept only while recording; once the buffered total reaches
     * 32000 samples the chunk goes out at once. A sent chunk holds at least 32000 samples and
     * fewer than 32000 plus the length of the frame that completed it.
     */
    method OnAudioProcess(frame: seq<real>)
      requires Valid()
      modifies this
      ensures Valid()
      ensures !old(isRecording) ==> audioBuffer == old(audioBuffer) && sent == old(sent)
      ensures old(isRecording) && TotalLength(old(audioBuffer)) + |frame| < ChunkSamples ==>
        audioBuffer == old(audioBuffer) + [frame] && sent == old(sent)
      ensures old(isRecording) && TotalLength(old(audioBuffer)) + |frame| >= ChunkSamples ==>
        && audioBuffer == []
        && sent == old(sent) + [ChunkMessage(Flatten(old(audioBuffer) + [frame]))]
        && ChunkSamples <= |Flatten(old(audioBuffer) + [frame])| < ChunkSamples + |frame|
      ensures isRecording == old(isRecording) && startTime == old(startTime) && durationText == old(durationText)
      ensures transcriptionText == old(transcriptionText) && wordCount == old(wordCount)
    {
      if !isRecording {
        return;
      }
      ghost var before := audioBuffer;
      audioBuffer := audioBuffer + [frame];
      assert audioBuffer[..|audioBuffer| - 1] == before;
      FlattenLength(audioBuffer);
      var totalSamples := TotalLength(audioBuffer);
      if totalSamples >= ChunkSamples {
        SendAudioChunk();
      }
    }

    /**
     * `startRecording`: on microphone access the start time is noted and the buffer emptied
     * before the audio graph is built; recording stays on only if the graph is built. On a
     * refusal, or when the graph throws, the handler switches recording off again.
     */
    method StartRecording(access: Access, now: int)
      requires Valid()
      modifies this
      ensures Valid()
      ensures isRecording == (access == Granted)
      ensures access != Refused ==> startTime == now && audioBuffer == []
      ensures access == Refused ==> audioBuffer == old(audioBuffer) && startTime == old(startTime)
      ensures sent == old(sent) && durationText == old(durationText)
      ensures transcriptionText == old(transcriptionText) && wordCount == old(wordCount)
    {
      if access == Refused {
        isRecording := false;
        return;
      }
      isRecording := true;
      startTime := now;
      audioBuffer := [];
      if access == GraphFailed {
        isRecording := false;
      }
    }

    /**
     * `stopRecording`: recording is switched off first, then any partial buffer goes out once.
     * The buffer is left empty, so a second stop emits nothing.
     */
    method StopRecording()
      requires Valid()
      modifies this
      ensures Valid()
      ensures !isRecording && audioBuffer == []
      ensures sent == old(sent) + (if old(audioBuffer) == [] then [] else [ChunkMessage(Flatten(old(audioBuffer)))])
      ensures startTime == old(startTime) && durationText == old(durationText)
      ensures transcriptionText == old(transcriptionText) && wordCount == old(wordCount)
    {
      isRecording := false;
      if |audioBuffer| > 0 {
        SendAudioChunk();
      }
    }

    /** `toggleRecording`: stop while recording, start otherwise. */
    method ToggleRecording(access: Access, now: int)
      requires Valid()
      modifies this
      ensures Valid()
      ensures old(isRecording) ==> (!isRecording && audioBuffer == [] && startTime == old(startTime)
        && sent == old(sent) + (if old(audioBuffer) == [] then [] else [ChunkMessage(Flatten(old(audioBuffer)))]))
      ensures !old(isRecording) ==> (isRecording == (access == Granted) && sent == old(sent)
        && (access != Refused ==> startTime == now && audioBuffer == [])
        && (access == Refused ==> startTime == old(startTime) && audioBuffer == old(audioBuffer)))
      ensures durationText == old(durationText)
      ensures transcriptionText == old(transcriptionText) && wordCount == old(wordCount)
    {
      if isRecording {
        StopRecording();
      } else {
        StartRecording(access, now);
      }
    }

    /** The duration timer tick: it redraws "mm:ss" only while recording. */
    method UpdateDuration(now: int)
      modifies this
      ensures durationText == if old(isRecording) then FormatElapsed(now - startTime) else old(durationText)
      ensures isRecording == old(isRecording) && startTime == old(startTime) && audioBuffer == old(audioBuffer)
      ensures sent == old(sent) && transcriptionText == old(transcriptionText) && wordCount == old(wordCount)
    {
      if isRecording {
        durationText := FormatElapsed(now - startTime);
      }
    }

    /**
     * `addTranscription`: the text goes at the end of the list and the count grows by the number
     * of pieces `split(' ')` gives, empty pieces included: one more than the spaces in the text.
     */
    method AddTranscription(text: string)
      modifies this
      ensures transcriptionText == old(transcriptionText) + [text]
      ensures wordCount == old(wordCount) + Text.Count(text, ' ') + 1
      ensures isRecording == old(isRecording) && startTime == old(startTime) && audioBuffer == old(audioBuffer)
      ensures sent == old(sent) && durationText == old(durationText)
    {
      transcriptionText := transcriptionText + [text];
      Text.SplitCount(text, ' ');
      wordCount := wordCount + |Text.Split(text, ' ')|;
    }

    /** `saveTranscript`: one 'save_transcript' event with the entries joined by blank lines. */
    method SaveTranscript()
      modifies this
      ensures sent == old(sent) + [Wire.SaveTranscript(Text.Join(transcriptionText, "\n\n"))]
      ensures isRecording == old(isRecording) && startTime == old(startTime) && audioBuffer == old(audioBuffer)
      ensures transcriptionText == old(transcriptionText) && wordCount == old(wordCount) && durationText == old(durationText)
    {
      sent := sent + [Wire.SaveTranscript(Text.Join(transcriptionText, "\n\n"))];
    }

    /** `clearTranscript`: no entries and a zero count. */
    method ClearTranscript()
      modifies this
      ensures transcriptionText == [] && wordCount == 0
      ensures isRecording == old(isRecording) && startTime == old(startTime) && audioBuffer == old(audioBuffer)
      ensures sent == old(sent) && durationText == old(durationText)
    {
      transcriptionText := [];
      wordCount := 0;
    }
  }
}
