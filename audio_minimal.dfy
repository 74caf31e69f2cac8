/**
 * The minimal browser client: a MediaRecorder in the browser's default format hands out
 * opaque fragments every 100 ms; every three seconds, and once more when recording stops,
 * the collected fragments are joined into one blob and sent as an 'audio_blob' event.
 */
module AudioMinimal {
  import opened Common
  import Text
  import Base64
  import Wire

  /** Milliseconds between timer ticks; also the nominal chunk duration sent with each blob. */
  const ChunkDurationMs: int := 3000

  /** The 'audio_blob' event for the fragments: one blob of all of them, read back as a data URL. */
  function BlobMessage(mimeType: string, chunks: seq<seq<byte>>): Wire.Message
  {
    var blobType := Base64.BlobType(mimeType);
    var url := Base64.DataUrl(blobType, Flatten(chunks));
    Wire.AudioBlob(Base64.DataUrlPayload(url), blobType, ChunkDurationMs / 1000)
  }

  /** What one `processRecording` emits: nothing for no fragments, else one blob. */
  function Drain(mimeType: string, chunks: seq<seq<byte>>): seq<Wire.Message>
  {
    if chunks == [] then [] else [BlobMessage(mimeType, chunks)]
  }

  /**
   * The blob carries the recorder's (normalised) type and the nominal 3 seconds, and its
   * payload decodes to all fragments' bytes in arrival order.
   */
  lemma BlobMessageContents(mimeType: string, chunks: seq<seq<byte>>)
    requires ',' !in mimeType
    ensures var m := BlobMessage(mimeType, chunks);
      && m.AudioBlob? && m.mimeType == Base64.BlobType(mimeType) && m.duration == 3
      && Base64.Decode(m.audio) == Some(Flatten(chunks))
  {
    var blobType := Base64.BlobType(mimeType);
    assert ',' !in blobType by {
      if blobType != "" {
        forall i | 0 <= i < |blobType| ensures blobType[i] != ',' {
          assert blobType[i] == Text.LowerChar(mimeType[i]);
        }
      }
    }
    Base64.DataUrlPayloadIsBase64(blobType, Flatten(chunks));
    Base64.DecodeEncode(Flatten(chunks));
  }

  /**
   * At most one event per drain, and one exactly when there was a fragment; for a recorder type
   * without a comma, that event's payload decodes to every fragment's bytes in arrival order.
   */
  lemma DrainSendsIffFragments(mimeType: string, chunks: seq<seq<byte>>)
    ensures |Drain(mimeType, chunks)| <= 1
    ensures Drain(mimeType, chunks) != [] <==> chunks != []
    ensures ',' !in mimeType && chunks != [] ==> var m := Drain(mimeType, chunks)[0];
      && m.AudioBlob? && m.mimeType == Base64.BlobType(mimeType)
      && Base64.Decode(m.audio) == Some(Flatten(chunks))
  {
    if ',' !in mimeType && chunks != [] {
      BlobMessageContents(mimeType, chunks);
    }
  }

  /** Collecting fragments as they arrive keeps the non-empty ones, and with them every byte. */
  lemma CollectedBytes(arrivals: seq<seq<byte>>)
    ensures Flatten(KeepNonEmpty(arrivals)) == Flatten(arrivals)
    ensures forall i :: 0 <= i < |KeepNonEmpty(arrivals)| ==> KeepNonEmpty(arrivals)[i] != []
  {
    FlattenKeepNonEmpty(arrivals);
  }

  class WhisperLiveMinimal {
    var isRecording: bool
    var recorder: Recorder
    /** The type the browser chose for the recorder (`mediaRecorder.mimeType`). */
    var mimeType: string
    var audioChunks: seq<seq<byte>>
    /** Whether the chunk interval timer is installed. */
    var chunkTimer: bool
    /** Whether the microphone stream is held. */
    var streamOpen: bool
    var transcriptionText: seq<string>
    /** The number shown in the word-count element. */
    var wordCount: int
    ghost var sent: seq<Wire.Message>
    /** How many times `mediaRecorder.stop()` has been called. */
    ghost var recorderStops: nat

    constructor()
      ensures !isRecording && recorder == NoRecorder && audioChunks == [] && !chunkTimer && !streamOpen
      ensures transcriptionText == [] && wordCount == 0 && sent == [] && recorderStops == 0
    {
      isRecording := false;
      recorder := NoRecorder;
      mimeType := "";
      audioChunks := [];
      chunkTimer := false;
      streamOpen := false;
      transcriptionText := [];
      wordCount := 0;
      sent := [];
      recorderStops := 0;
    }

    /** `ondataavailable`: a fragment is kept only when it holds data. */
    method OnDataAvailable(fragment: seq<byte>)
      modifies this
      ensures audioChunks == old(audioChunks) + KeepNonEmpty([fragment])
      ensures isRecording == old(isRecording) && recorder == old(recorder) && mimeType == old(mimeType)
      ensures chunkTimer == old(chunkTimer) && streamOpen == old(streamOpen) && recorderStops == old(recorderStops)
      ensures sent == old(sent) && transcriptionText == old(transcriptionText) && wordCount == old(wordCount)
    {
      assert [fragment][..0] == [];
      if |fragment| > 0 {
        audioChunks := audioChunks + [fragment];
      } else {
        assert audioChunks + [] == audioChunks;
      }
    }

    /**
     * `startRecording`: with microphone access a new recorder of the browser's chosen type
     * starts, the fragment list is emptied, recording is on and the chunk timer runs. A
     * refusal is only reported.
     */
    method StartRecording(granted: bool, chosenType: string)
      modifies this
      ensures granted ==> (isRecording && recorder == Active && mimeType == chosenType
        && audioChunks == [] && chunkTimer && streamOpen)
      ensures !granted ==> (isRecording == old(isRecording) && recorder == old(recorder) && mimeType == old(mimeType)
        && audioChunks == old(audioChunks) && chunkTimer == old(chunkTimer) && streamOpen == old(streamOpen))
      ensures sent == old(sent) && recorderStops == old(recorderStops)
      ensures transcriptionText == old(transcriptionText) && wordCount == old(wordCount)
    {
      if granted {
        streamOpen := true;
        recorder := Active;
        mimeType := chosenType;
        audioChunks := [];
        isRecording := true;
        chunkTimer := true;
      }
    }

    /** `processRecording`: nothing without fragments; otherwise one blob of them all, then none are left. */
    method ProcessRecording()
      modifies this
      ensures audioChunks == [] && sent == old(sent) + Drain(old(mimeType), old(audioChunks))
      ensures isRecording == old(isRecording) && recorder == old(recorder) && mimeType == old(mimeType)
      ensures chunkTimer == old(chunkTimer) && streamOpen == old(streamOpen) && recorderStops == old(recorderStops)
      ensures transcriptionText == old(transcriptionText) && wordCount == old(wordCount)
    {
      if |audioChunks| == 0 {
        assert sent == old(sent) + [];
        return;
      }
      var blobType := Base64.BlobType(mimeType);
      var url := Base64.DataUrl(blobType, Flatten(audioChunks));
      sent := sent + [Wire.AudioBlob(Base64.DataUrlPayload(url), blobType, ChunkDurationMs / 1000)];
      audioChunks := [];
    }

    /** The interval callback: it drains only while recording and when a fragment is waiting. */
    method Tick()
      modifies this
      ensures old(isRecording) ==> audioChunks == [] && sent == old(sent) + Drain(old(mimeType), old(audioChunks))
      ensures !old(isRecording) ==> audioChunks == old(audioChunks) && sent == old(sent)
      ensures isRecording == old(isRecording) && recorder == old(recorder) && mimeType == old(mimeType)
      ensures chunkTimer == old(chunkTimer) && streamOpen == old(streamOpen) && recorderStops == old(recorderStops)
      ensures transcriptionText == old(transcriptionText) && wordCount == old(wordCount)
    {
      if isRecording && |audioChunks| > 0 {
        ProcessRecording();
      } else if isRecording {
        assert sent == old(sent) + [];
      }
    }

    /** `stopChunkStreaming`: the timer is removed and any waiting fragments are sent. */
    method StopChunkStreaming()
      modifies this
      ensures !chunkTimer && audioChunks == [] && sent == old(sent) + Drain(old(mimeType), old(audioChunks))
      ensures isRecording == old(isRecording) && recorder == old(recorder) && mimeType == old(mimeType)
      ensures streamOpen == old(streamOpen) && recorderStops == old(recorderStops)
      ensures transcriptionText == old(transcriptionText) && wordCount == old(wordCount)
    {
      chunkTimer := false;
      if |audioChunks| > 0 {
        ProcessRecording();
      } else {
        assert sent == old(sent) + [];
      }
    }

    /**
     * `stopRecording`: recording goes off, the timer goes and the waiting fragments are
     * sent; the recorder is told to stop only when it is not already inactive; the stream
     * is released.
     */
    method StopRecording()
      modifies this
      ensures !isRecording && !chunkTimer && !streamOpen && audioChunks == []
      ensures sent == old(sent) + Drain(old(mimeType), old(audioChunks))
      ensures recorder == (if old(recorder) == Active then Inactive else old(recorder))
      ensures recorderStops == old(recorderStops) + (if old(recorder) == Active then 1 else 0)
      ensures mimeType == old(mimeType) && transcriptionText == old(transcriptionText) && wordCount == old(wordCount)
    {
      isRecording := false;
      StopChunkStreaming();
      if recorder == Active {
        recorder := Inactive;
        recorderStops := recorderStops + 1;
      }
      streamOpen := false;
    }

    /** The recorder's `onstop` event, after its last fragment: the same drain. */
    method OnRecorderStop()
      modifies this
      ensures audioChunks == [] && sent == old(sent) + Drain(old(mimeType), old(audioChunks))
      ensures isRecording == old(isRecording) && recorder == old(recorder) && mimeType == old(mimeType)
      ensures chunkTimer == old(chunkTimer) && streamOpen == old(streamOpen) && recorderStops == old(recorderStops)
      ensures transcriptionText == old(transcriptionText) && wordCount == old(wordCount)
    {
      ProcessRecording();
    }

    /** `toggleRecording`. */
    method ToggleRecording(granted: bool, chosenType: string)
      modifies this
      ensures old(isRecording) ==> (!isRecording && !chunkTimer && !streamOpen && audioChunks == []
        && sent == old(sent) + Drain(old(mimeType), old(audioChunks))
        && recorder == (if old(recorder) == Active then Inactive else old(recorder))
        && recorderStops == old(recorderStops) + (if old(recorder) == Active then 1 else 0)
        && mimeType == old(mimeType))
      ensures !old(isRecording) ==> sent == old(sent) && recorderStops == old(recorderStops)
      ensures !old(isRecording) && granted ==> (isRecording && recorder == Active && mimeType == chosenType
        && audioChunks == [] && chunkTimer && streamOpen)
      ensures !old(isRecording) && !granted ==> (!isRecording && recorder == old(recorder) && mimeType == old(mimeType)
        && audioChunks == old(audioChunks) && chunkTimer == old(chunkTimer) && streamOpen == old(streamOpen))
      ensures transcriptionText == old(transcriptionText) && wordCount == old(wordCount)
    {
      if isRecording {
        StopRecording();
      } else {
        StartRecording(granted, chosenType);
      }
    }

    /** `addTranscription`: the text is appended and the shown count grows by its space-separated words. */
    method AddTranscription(text: string)
      modifies this
      ensures transcriptionText == old(transcriptionText) + [text]
      ensures wordCount == old(wordCount) + |Text.Words(Text.SpaceOnly, text)|
      ensures isRecording == old(isRecording) && recorder == old(recorder) && mimeType == old(mimeType)
      ensures chunkTimer == old(chunkTimer) && streamOpen == old(streamOpen) && recorderStops == old(recorderStops)
      ensures audioChunks == old(audioChunks) && sent == old(sent)
    {
      transcriptionText := transcriptionText + [text];
      var words := |Text.NonEmpty(Text.Split(text, ' '))|;
      Text.NonEmptySplitWords(text);
      wordCount := wordCount + words;
    }

    /** `saveTranscript`: one 'save_transcript' event with the entries joined by blank lines. */
    method SaveTranscript()
      modifies this
      ensures sent == old(sent) + [Wire.SaveTranscript(Text.Join(transcriptionText, "\n\n"))]
      ensures isRecording == old(isRecording) && recorder == old(recorder) && mimeType == old(mimeType)
      ensures chunkTimer == old(chunkTimer) && streamOpen == old(streamOpen) && recorderStops == old(recorderStops)
      ensures audioChunks == old(audioChunks) && transcriptionText == old(transcriptionText) && wordCount == old(wordCount)
    {
      sent := sent + [Wire.SaveTranscript(Text.Join(transcriptionText, "\n\n"))];
    }

    /** `clearTranscript`: no entries and the count shows 0. */
    method ClearTranscript()
      modifies this
      ensures transcriptionText == [] && wordCount == 0
      ensures isRecording == old(isRecording) && recorder == old(recorder) && mimeType == old(mimeType)
      ensures chunkTimer == old(chunkTimer) && streamOpen == old(streamOpen) && recorderStops == old(recorderStops)
      ensures audioChunks == old(audioChunks) && sent == old(sent)
    {
      transcriptionText := [];
      wordCount := 0;
    }
  }
}
