/**
 * The simple browser client: one MediaRecorder take of at most ten seconds in the first
 * container type the browser supports; when the recorder stops, all fragments go out as one
 * 'audio_blob' event.
 */
module AudioSimple {
  import opened Common
  import Text
  import Base64
  import Wire

  /** Seconds per take; also the duration sent with the blob. */
  const RecordingDuration: int := 10

  /** The container types tried, most preferred first. */
  const Preferences: seq<string> := ["audio/webm;codecs=opus", "audio/webm", "audio/ogg;codecs=opus", "audio/mp4", "audio/wav"]
  const Fallback: string := "audio/webm"

  /** The first of `types` that `isSupported` accepts, else `fallback`. */
  function FirstSupported(types: seq<string>, isSupported: string -> bool, fallback: string): (t: string)
    ensures t == fallback || (t in types && isSupported(t))
  {
    if types == [] then fallback
    else if isSupported(types[0]) then types[0]
    else FirstSupported(types[1..], isSupported, fallback)
  }

  /** `getSupportedMimeType`, with `MediaRecorder.isTypeSupported` as a parameter. */
  function SupportedMimeType(isSupported: string -> bool): string
  {
    FirstSupported(Preferences, isSupported, Fallback)
  }

  /** The result is the entry at the first supported position, or the fallback when none is supported. */
  lemma {:induction false} FirstSupportedIsFirst(types: seq<string>, isSupported: string -> bool, fallback: string)
    ensures (forall i :: 0 <= i < |types| ==> !isSupported(types[i])) ==> FirstSupported(types, isSupported, fallback) == fallback
    ensures forall k :: (0 <= k < |types| && isSupported(types[k]) && (forall i :: 0 <= i < k ==> !isSupported(types[i]))
      ==> FirstSupported(types, isSupported, fallback) == types[k])
  {
    if types != [] {
      FirstSupportedIsFirst(types[1..], isSupported, fallback);
      forall k | 0 <= k < |types| && isSupported(types[k]) && (forall i :: 0 <= i < k ==> !isSupported(types[i]))
        ensures FirstSupported(types, isSupported, fallback) == types[k]
      {
        if k > 0 {
          assert !isSupported(types[0]);
          assert types[1..][k - 1] == types[k];
          assert forall i :: 0 <= i < k - 1 ==> !isSupported(types[1..][i]) by {
            forall i | 0 <= i < k - 1 ensures !isSupported(types[1..][i]) {
              assert types[1..][i] == types[i + 1];
            }
          }
        }
      }
      if forall i :: 0 <= i < |types| ==> !isSupported(types[i]) {
        assert !isSupported(types[0]);
        assert forall i :: 0 <= i < |types[1..]| ==> !isSupported(types[1..][i]) by {
          forall i | 0 <= i < |types[1..]| ensures !isSupported(types[1..][i]) {
            assert types[1..][i] == types[i + 1];
          }
        }
      }
    }
  }

  /** When some listed type is supported, the one chosen is supported too. */
  lemma {:induction false} FirstSupportedFound(types: seq<string>, isSupported: string -> bool, fallback: string)
    requires exists i :: 0 <= i < |types| && isSupported(types[i])
    ensures isSupported(FirstSupported(types, isSupported, fallback))
  {
    if !isSupported(types[0]) {
      var i :| 0 <= i < |types| && isSupported(types[i]);
      assert types[1..][i - 1] == types[i];
      FirstSupportedFound(types[1..], isSupported, fallback);
    }
  }

  /**
   * The chosen type is one the browser supports exactly when some listed type is; otherwise it
   * is the fallback 'audio/webm', which the browser has just rejected.
   */
  lemma SupportedMimeTypeUsable(isSupported: string -> bool)
    ensures isSupported(SupportedMimeType(isSupported)) <==> exists i :: 0 <= i < |Preferences| && isSupported(Preferences[i])
  {
    assert Preferences[1] == Fallback;
    if exists i :: 0 <= i < |Preferences| && isSupported(Preferences[i]) {
      FirstSupportedFound(Preferences, isSupported, Fallback);
    } else {
      FirstSupportedIsFirst(Preferences, isSupported, Fallback);
    }
  }

  /** A browser with Opus in WebM gets that; one that supports none of the list gets 'audio/webm'. */
  lemma SupportedMimeTypeChoices(isSupported: string -> bool)
    ensures isSupported("audio/webm;codecs=opus") ==> SupportedMimeType(isSupported) == "audio/webm;codecs=opus"
    ensures (forall i :: 0 <= i < |Preferences| ==> !isSupported(Preferences[i])) ==> SupportedMimeType(isSupported) == "audio/webm"
    ensures SupportedMimeType(isSupported) in Preferences
  {
    FirstSupportedIsFirst(Preferences, isSupported, Fallback);
    if isSupported("audio/webm;codecs=opus") {
      assert isSupported(Preferences[0]);
    }
  }

  /** The blob's type: the recorder's, or 'audio/webm' when the recorder reports none. */
  function RecordedType(mimeType: string): string
  {
    Base64.BlobType(if mimeType == "" then Fallback else mimeType)
  }

  /** The 'audio_blob' event for a finished take: all its fragments in one blob, 10 seconds. */
  function BlobMessage(mimeType: string, chunks: seq<seq<byte>>): Wire.Message
  {
    var blobType := RecordedType(mimeType);
    var url := Base64.DataUrl(blobType, Flatten(chunks));
    Wire.AudioBlob(Base64.DataUrlPayload(url), blobType, RecordingDuration)
  }

  /** What one `processRecording` emits: nothing for no fragments, else one blob. */
  function Drain(mimeType: string, chunks: seq<seq<byte>>): seq<Wire.Message>
  {
    if chunks == [] then [] else [BlobMessage(mimeType, chunks)]
  }

  /** The blob carries a non-empty type and the nominal 10 seconds, and decodes to the take's bytes. */
  lemma BlobMessageContents(mimeType: string, chunks: seq<seq<byte>>)
    requires ',' !in mimeType
    ensures var m := BlobMessage(mimeType, chunks);
      && m.AudioBlob? && m.duration == 10
      && m.mimeType == (if mimeType == "" then "audio/webm" else Base64.BlobType(mimeType))
      && Base64.Decode(m.audio) == Some(Flatten(chunks))
  {
    var given := if mimeType == "" then Fallback else mimeType;
    var blobType := RecordedType(mimeType);
    if mimeType == "" {
      Base64.BlobTypeKeepsNormalised(Fallback);
    }
    assert ',' !in blobType by {
      if blobType != "" {
        forall i | 0 <= i < |blobType| ensures blobType[i] != ',' {
          assert blobType[i] == Text.LowerChar(given[i]);
        }
      }
    }
    Base64.DataUrlPayloadIsBase64(blobType, Flatten(chunks));
    Base64.DecodeEncode(Flatten(chunks));
  }

  /** The countdown: whole seconds since the start, what is left of the ten, never below zero. */
  function Remaining(elapsedMs: int): (r: int)
    ensures r >= 0 && (elapsedMs >= 0 ==> r <= RecordingDuration)
    ensures r > 0 <==> elapsedMs < RecordingDuration * 1000
  {
    var elapsed := elapsedMs / 1000;
    if RecordingDuration - elapsed > 0 then RecordingDuration - elapsed else 0
  }

  /** The countdown text: minutes and seconds left, each padded to two characters. */
  function CountdownText(remaining: int): string
  {
    Text.TwoDigits(remaining / 60) + ":" + Text.TwoDigits(remaining % 60)
  }

  /** With at most ten seconds left the display is "00:ss" with ss the seconds left. */
  lemma CountdownTextShape(remaining: int)
    requires 0 <= remaining <= RecordingDuration
    ensures var r := CountdownText(remaining);
      && |r| == 5 && r[..3] == "00:" && Text.DigitsValue(r[3..]) == remaining
  {
    assert remaining / 60 == 0 && remaining % 60 == remaining;
    Text.TwoDigitsShape(remaining);
    ZeroMinutes();
    MinutesSecondsLayout(Text.TwoDigits(0), Text.TwoDigits(remaining));
  }

  lemma ZeroMinutes()
    ensures Text.TwoDigits(0) == "00"
  {
    assert Text.IntToString(0) == "0";
  }

  lemma MinutesSecondsLayout(m: string, s: string)
    requires |m| == 2 && |s| == 2
    ensures var r := m + ":" + s; |r| == 5 && r[..3] == m + ":" && r[3..] == s
  {
  }

  class WhisperLiveSimple {
    var isRecording: bool
    var recorder: Recorder
    /** The recorder's `mimeType`, as created with the chosen type. */
    var mimeType: string
    var audioChunks: seq<seq<byte>>
    /** `Date.now()` when the take started, in milliseconds. */
    var startTime: int
    var transcriptionText: seq<string>
    var wordCount: int
    ghost var sent: seq<Wire.Message>
    /** How many times `mediaRecorder.stop()` has been called. */
    ghost var recorderStops: nat

    constructor()
      ensures !isRecording && recorder == NoRecorder && audioChunks == []
      ensures transcriptionText == [] && wordCount == 0 && sent == [] && recorderStops == 0
    {
      isRecording := false;
      recorder := NoRecorder;
      mimeType := "";
      audioChunks := [];
      startTime := 0;
      transcriptionText := [];
      wordCount := 0;
      sent := [];
      recorderStops := 0;
    }

    /** `ondataavailable`: a fragment is kept only when it holds data. */
    method OnDataAvailable(fragment: seq<byte>)
      modifies this
      ensures audioChunks == old(audioChunks) + KeepNonEmpty([fragment])
      ensures isRecording == old(isRecording) && recorder == old(recorder) && mimeType == old(mimeType)
      ensures startTime == old(startTime) && recorderStops == old(recorderStops)
      ensures sent == old(sent) && transcriptionText == old(transcriptionText) && wordCount == old(wordCount)
    {
      assert [fragment][..0] == [];
      if |fragment| > 0 {
        audioChunks := audioChunks + [fragment];
      } else {
        assert audioChunks + [] == audioChunks;
      }
    }

    /**
     * `startRecording`: with microphone access a recorder of the first supported type starts
     * with no fragments and the clock is noted. When the microphone is refused, or the browser
     * supports none of the listed types so that `new MediaRecorder` rejects the fallback, the
     * handler marks recording off and nothing else changes.
     */
    method StartRecording(granted: bool, isSupported: string -> bool, now: int)
      modifies this
      ensures granted && isSupported(SupportedMimeType(isSupported)) ==> (isRecording && recorder == Active
        && mimeType == SupportedMimeType(isSupported) && audioChunks == [] && startTime == now)
      ensures !(granted && isSupported(SupportedMimeType(isSupported))) ==> (!isRecording && recorder == old(recorder)
        && mimeType == old(mimeType) && audioChunks == old(audioChunks) && startTime == old(startTime))
      ensures sent == old(sent) && recorderStops == old(recorderStops)
      ensures transcriptionText == old(transcriptionText) && wordCount == old(wordCount)
    {
      if granted && isSupported(SupportedMimeType(isSupported)) {
        mimeType := SupportedMimeType(isSupported);
        recorder := Active;
        audioChunks := [];
        isRecording := true;
        startTime := now;
      } else {
        isRecording := false;
      }
    }

    /** `stopRecording`: recording goes off; the recorder is told to stop only if it is not already inactive. */
    method StopRecording()
      modifies this
      ensures !isRecording
      ensures recorder == (if old(recorder) == Active then Inactive else old(recorder))
      ensures recorderStops == old(recorderStops) + (if old(recorder) == Active then 1 else 0)
      ensures audioChunks == old(audioChunks) && mimeType == old(mimeType) && startTime == old(startTime)
      ensures sent == old(sent) && transcriptionText == old(transcriptionText) && wordCount == old(wordCount)
    {
      isRecording := false;
      if recorder == Active {
        recorder := Inactive;
        recorderStops := recorderStops + 1;
      }
    }

    /** The auto-stop timeout, ten seconds after the start: it stops only a take still running. */
    method AutoStop()
      modifies this
      ensures !isRecording
      ensures old(isRecording) ==> (recorder == (if old(recorder) == Active then Inactive else old(recorder))
        && recorderStops == old(recorderStops) + (if old(recorder) == Active then 1 else 0))
      ensures !old(isRecording) ==> recorder == old(recorder) && recorderStops == old(recorderStops)
      ensures audioChunks == old(audioChunks) && mimeType == old(mimeType) && startTime == old(startTime)
      ensures sent == old(sent) && transcriptionText == old(transcriptionText) && wordCount == old(wordCount)
    {
      if isRecording {
        StopRecording();
      }
    }

    /** `processRecording`, run by the recorder's `onstop`: nothing without fragments, else one blob and none left. */
    method ProcessRecording()
      modifies this
      ensures audioChunks == [] && sent == old(sent) + Drain(old(mimeType), old(audioChunks))
      ensures isRecording == old(isRecording) && recorder == old(recorder) && mimeType == old(mimeType)
      ensures startTime == old(startTime) && recorderStops == old(recorderStops)
      ensures transcriptionText == old(transcriptionText) && wordCount == old(wordCount)
    {
      if |audioChunks| == 0 {
        assert sent == old(sent) + [];
        return;
      }
      var blobType := RecordedType(mimeType);
      var url := Base64.DataUrl(blobType, Flatten(audioChunks));
      sent := sent + [Wire.AudioBlob(Base64.DataUrlPayload(url), blobType, RecordingDuration)];
      audioChunks := [];
    }

    /**
     * One tick of the duration timer: while recording it returns the countdown text and
     * whether to tick again (only while time is left); otherwise nothing is shown.
     */
    method UpdateDuration(now: int) returns (shown: Option<string>, again: bool)
      ensures !isRecording ==> shown == None && !again
      ensures isRecording ==> (shown == Some(CountdownText(Remaining(now - startTime)))
        && (again <==> now - startTime < RecordingDuration * 1000))
    {
      if !isRecording {
        return None, false;
      }
      var remaining := Remaining(now - startTime);
      shown := Some(CountdownText(remaining));
      again := remaining > 0;
    }

    /** `toggleRecording`. */
    method ToggleRecording(granted: bool, isSupported: string -> bool, now: int)
      modifies this
      ensures old(isRecording) ==> (!isRecording && audioChunks == old(audioChunks)
        && recorder == (if old(recorder) == Active then Inactive else old(recorder))
        && recorderStops == old(recorderStops) + (if old(recorder) == Active then 1 else 0)
        && mimeType == old(mimeType) && startTime == old(startTime))
      ensures !old(isRecording) ==> recorderStops == old(recorderStops)
      ensures !old(isRecording) && granted && isSupported(SupportedMimeType(isSupported)) ==> (isRecording
        && recorder == Active && mimeType == SupportedMimeType(isSupported) && audioChunks == [] && startTime == now)
      ensures !old(isRecording) && !(granted && isSupported(SupportedMimeType(isSupported))) ==> (!isRecording
        && recorder == old(recorder) && mimeType == old(mimeType) && audioChunks == old(audioChunks)
        && startTime == old(startTime))
      ensures sent == old(sent) && transcriptionText == old(transcriptionText) && wordCount == old(wordCount)
    {
      if isRecording {
        StopRecording();
      } else {
        StartRecording(granted, isSupported, now);
      }
    }

    /** `addTranscription`: the text is appended and the count grows by its space-separated words. */
    method AddTranscription(text: string)
      modifies this
      ensures transcriptionText == old(transcriptionText) + [text]
      ensures wordCount == old(wordCount) + |Text.Words(Text.SpaceOnly, text)|
      ensures isRecording == old(isRecording) && recorder == old(recorder) && mimeType == old(mimeType)
      ensures startTime == old(startTime) && recorderStops == old(recorderStops)
      ensures audioChunks == old(audioChunks) && sent == old(sent)
    {
      transcriptionText := transcriptionText + [text];
      var words := |Text.NonEmpty(Text.Split(text, ' '))|;
      Text.NonEmptySplitWords(text);
      wordCount := wordCount + words;
    }

    /** `saveTranscript`: one 'save_transcript' event with the entries joined by blank lines. */
    method SaveTranscript()
      modifies this
      ensures sent == old(sent) + [Wire.SaveTranscript(Text.Join(transcriptionText, "\n\n"))]
      ensures isRecording == old(isRecording) && recorder == old(recorder) && mimeType == old(mimeType)
      ensures startTime == old(startTime) && recorderStops == old(recorderStops)
      ensures audioChunks == old(audioChunks) && transcriptionText == old(transcriptionText) && wordCount == old(wordCount)
    {
      sent := sent + [Wire.SaveTranscript(Text.Join(transcriptionText, "\n\n"))];
    }

    /** `clearTranscript`: no entries and a count of 0. */
    method ClearTranscript()
      modifies this
      ensures transcriptionText == [] && wordCount == 0
      ensures isRecording == old(isRecording) && recorder == old(recorder) && mimeType == old(mimeType)
      ensures startTime == old(startTime) && recorderStops == old(recorderStops)
      ensures audioChunks == old(audioChunks) && sent == old(sent)
    {
      transcriptionText := [];
      wordCount := 0;
    }
  }
}
