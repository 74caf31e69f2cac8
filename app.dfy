/**
 * The Flask and Socket.IO server: model-size validation, the client table, the 'audio_data'
 * handler that queues chunks for the background transcriber, and the 'audio_blob' handler
 * that picks a file extension from the MIME type, transcribes at once and filters the
 * speech engine's usual hallucinations. Temporary files are a map from path to bytes; the
 * speech engine's answer and the clock are parameters.
 */
module App {
  import opened Common
  import Text
  import Base64
  import Wave
  import AudioWav

  // ---------------------------------------------------------------------------
  // Pure decisions
  // ---------------------------------------------------------------------------

  const ValidModels: seq<string> := ["tiny", "base", "small", "medium", "large", "large-v2", "large-v3"]
  const DefaultModel: string := "small"
  const DefaultBlobType: string := "audio/webm"
  const DefaultFormat: string := "wav"

  /** `data.get('model', 'small')`. */
  function RequestedModel(model: Option<string>): string
  {
    if model.Some? then model.value else DefaultModel
  }

  /** The extension of the temporary file: the first of "wav", "ogg", "mp4" the type mentions, else "webm". */
  function BlobExtension(mimeType: string): (ext: string)
    ensures ext in ["wav", "ogg", "mp4", "webm"]
    ensures ext == "wav" <==> Text.Contains(mimeType, "wav")
    ensures ext == "ogg" <==> !Text.Contains(mimeType, "wav") && Text.Contains(mimeType, "ogg")
    ensures ext == "mp4" <==> !Text.Contains(mimeType, "wav") && !Text.Contains(mimeType, "ogg") && Text.Contains(mimeType, "mp4")
    ensures ext == "webm" <==> !Text.Contains(mimeType, "wav") && !Text.Contains(mimeType, "ogg") && !Text.Contains(mimeType, "mp4")
  {
    if Text.Contains(mimeType, "wav") then "wav"
    else if Text.Contains(mimeType, "ogg") then "ogg"
    else if Text.Contains(mimeType, "mp4") then "mp4"
    else "webm"
  }

  /** A type that lacks one of the characters of `sub` cannot contain it. */
  lemma {:induction false} MissingCharacter(s: string, sub: string, c: char)
    requires c in sub && c !in s
    ensures !Text.Contains(s, sub)
    decreases |s|
  {
    if |sub| <= |s| {
      assert c !in s[..|sub|];
    }
    if |s| > 0 {
      MissingCharacter(s[1..], sub, c);
    }
  }

  /** The WAV clients' type is stored as ".wav". */
  lemma WavTypeExtension()
    ensures BlobExtension("audio/wav") == "wav"
  {
    Text.ContainsAt("audio/wav", "wav", 6);
  }

  /** The recorder clients' WebM types, with or without a codec, are stored as ".webm". */
  lemma WebmTypeExtension()
    ensures BlobExtension("audio/webm") == "webm"
    ensures BlobExtension("audio/webm;codecs=opus") == "webm"
  {
    WebmLetters("audio/webm");
    WebmExtension("audio/webm");
    WebmLetters("audio/webm;codecs=opus");
    WebmExtension("audio/webm;codecs=opus");
  }

  /** The letters that rule out the other containers are missing from both WebM types. */
  lemma WebmLetters(mimeType: string)
    requires mimeType == "audio/webm" || mimeType == "audio/webm;codecs=opus"
    ensures 'v' !in mimeType && 'g' !in mimeType && '4' !in mimeType
  {
  }

  /** A type with none of 'v', 'g' and '4' names none of the other containers. */
  lemma WebmExtension(mimeType: string)
    requires 'v' !in mimeType && 'g' !in mimeType && '4' !in mimeType
    ensures BlobExtension(mimeType) == "webm"
  {
    MissingCharacter(mimeType, "wav", 'v');
    MissingCharacter(mimeType, "ogg", 'g');
    MissingCharacter(mimeType, "mp4", '4');
  }

  /** An Ogg recording is stored as ".ogg". */
  lemma OggTypeExtension()
    ensures BlobExtension("audio/ogg;codecs=opus") == "ogg"
  {
    OggExtension("audio/ogg;codecs=opus");
  }

  /** A type without a 'v' that holds "ogg" in the subtype's place is stored as ".ogg". */
  lemma OggExtension(mimeType: string)
    requires |mimeType| >= 9 && mimeType[6..9] == "ogg" && 'v' !in mimeType
    ensures BlobExtension(mimeType) == "ogg"
  {
    MissingCharacter(mimeType, "wav", 'v');
    Text.ContainsAt(mimeType, "ogg", 6);
  }

  /** An MP4 recording is stored as ".mp4". */
  lemma Mp4TypeExtension()
    ensures BlobExtension("audio/mp4") == "mp4"
  {
    Mp4Extension("audio/mp4");
  }

  /** A type with neither 'v' nor 'g' that holds "mp4" in the subtype's place is stored as ".mp4". */
  lemma Mp4Extension(mimeType: string)
    requires |mimeType| >= 9 && mimeType[6..9] == "mp4" && 'v' !in mimeType && 'g' !in mimeType
    ensures BlobExtension(mimeType) == "mp4"
  {
    MissingCharacter(mimeType, "wav", 'v');
    MissingCharacter(mimeType, "ogg", 'g');
    Text.ContainsAt(mimeType, "mp4", 6);
  }

  /** The phrases the speech engine tends to produce on silence or music. */
  const Hallucinations: seq<string> := [
    "thank you", "thanks for watching", "thanks",
    "bye", "goodbye", "see you later",
    "♪", "[music]", "[Music]", "[MUSIC]",
    "you", "yeah", "uh", "um"]

  /** `transcribed_text.lower() in hallucinations`. */
  predicate IsHallucination(text: string)
  {
    Text.Lower(text) in Hallucinations
  }

  /** The stripped engine text with a lone hallucination replaced by "". */
  function Filtered(engineText: string): (t: string)
    ensures t == "" || t == Text.Strip(engineText)
    ensures t != "" ==> !IsHallucination(t)
    ensures IsHallucination(Text.Strip(engineText)) ==> t == ""
    ensures !IsHallucination(Text.Strip(engineText)) ==> t == Text.Strip(engineText)
  {
    var text := Text.Strip(engineText);
    if IsHallucination(text) then "" else text
  }

  /** The list entries with capitals can never match a lowercased text: the filter is the lowercase list alone. */
  lemma HallucinationIgnoresCapitalisedEntries(text: string)
    ensures IsHallucination(text) <==> Text.Lower(text) in Hallucinations[..8] + Hallucinations[10..]
  {
    LowerIsNotCapitalised(text);
    assert Hallucinations == Hallucinations[..8] + ["[Music]", "[MUSIC]"] + Hallucinations[10..];
  }

  /**
   * A lowercased text has no capital letter at all, so in particular it is neither "[Music]"
   * nor "[MUSIC]".
   */
  lemma LowerIsNotCapitalised(text: string)
    ensures forall i :: 0 <= i < |Text.Lower(text)| ==> !('A' <= Text.Lower(text)[i] <= 'Z')
    ensures Text.Lower(text) != "[Music]" && Text.Lower(text) != "[MUSIC]"
  {
    var l := Text.Lower(text);
    forall i | 0 <= i < |l| ensures !('A' <= l[i] <= 'Z') {
      assert l[i] == Text.LowerChar(text[i]);
    }
    if |l| == 7 {
      assert !('A' <= l[1] <= 'Z');
    }
  }

  /** Case does not matter: "Thank you" and "THANKS" are dropped as surely as "thank you". */
  lemma HallucinationIgnoresCase(a: string, b: string)
    requires Text.Lower(a) == Text.Lower(b)
    ensures IsHallucination(a) <==> IsHallucination(b)
  {
  }

  // ---------------------------------------------------------------------------
  // The server
  // ---------------------------------------------------------------------------

  /** The JSON body of an 'audio_data' or 'audio_blob' event; a missing key is None. */
  datatype Payload = Payload(audio: Option<string>, format: Option<string>, mimeType: Option<string>)

  datatype Event =
    | Connected(clientId: string, modelLoaded: bool, modelLoading: bool)
    | AudioReceived(timestamp: real)
    | Transcribed(text: string, timestamp: real)
      /** 'error' with a message the server composes. */
    | Error(message: string)
      /** 'error' whose message is `prefix` followed by the text of an exception a library call raised. */
    | Failure(prefix: string)
      /** 'model_loaded' with the size now in use. */
    | ModelReady(modelSize: string)

  /** An emit to one client, or one to every connected client (`socketio.emit` outside a handler). */
  datatype Emit = Emit(to: string, event: Event) | Broadcast(event: Event)

  datatype ClientInfo = ClientInfo(connectedAt: real, transcriptions: seq<string>)

  /** A `/change_model` reply: 400 or the loading message. */
  datatype ModelReply = Rejected(status: int, error: string) | Loading(message: string, modelSize: string)

  /** The temporary path of an 'audio_data' chunk: temp/temp_audio_{client}_{milliseconds}.{format}. */
  function ChunkPath(clientId: string, now: real, format: string): string
  {
    "temp/temp_audio_" + clientId + "_" + Text.IntToString(Trunc(now * 1000.0)) + "." + format
  }

  /** The temporary path of an 'audio_blob' recording: temp/recording_{client}_{seconds}.{ext}. */
  function BlobPath(clientId: string, now: real, ext: string): string
  {
    "temp/recording_" + clientId + "_" + Text.IntToString(Trunc(now)) + "." + ext
  }

  /** The reply to one transcribed blob: the filtered text, or the no-speech error. */
  function BlobReply(engineText: string, now: real): (e: Event)
    ensures e.Transcribed? <==> Filtered(engineText) != ""
    ensures e.Transcribed? ==> e.text == Filtered(engineText) && !IsHallucination(e.text)
    ensures !e.Transcribed? ==> e == Error("No speech detected in audio")
  {
    var text := Filtered(engineText);
    if text != "" then Transcribed(text, now) else Error("No speech detected in audio")
  }

  class Server {
    var modelSize: string
    var modelLoaded: bool
    var modelLoading: bool
    var clients: map<string, ClientInfo>
    /** `transcription_queue`: a client and the path of its chunk, oldest first. */
    var queue: seq<(string, string)>
    var tempFiles: map<string, seq<byte>>
    ghost var emitted: seq<Emit>

    constructor()
      ensures modelSize == "large-v3" && !modelLoaded && !modelLoading
      ensures clients == map[] && queue == [] && tempFiles == map[] && emitted == []
    {
      modelSize := "large-v3";
      modelLoaded := false;
      modelLoading := false;
      clients := map[];
      queue := [];
      tempFiles := map[];
      emitted := [];
    }

    /**
     * `/change_model`: a size outside the seven valid ones is refused with 400 and changes
     * nothing; a valid one becomes the model size (its loading runs in the background).
     */
    method ChangeModel(model: Option<string>) returns (reply: ModelReply)
      modifies this
      ensures var size := RequestedModel(model);
        && (size in ValidModels <==> reply.Loading?)
        && (reply.Loading? ==> (modelSize == size && reply.modelSize == size
              && reply.message == "Loading " + size + " model..."))
        && (reply.Rejected? ==> reply == Rejected(400, "Invalid model size") && modelSize == old(modelSize))
      ensures modelLoaded == old(modelLoaded) && modelLoading == old(modelLoading)
      ensures clients == old(clients) && queue == old(queue) && tempFiles == old(tempFiles) && emitted == old(emitted)
    {
      var size := RequestedModel(model);
      if size !in ValidModels {
        return Rejected(400, "Invalid model size");
      }
      modelSize := size;
      reply := Loading("Loading " + size + " model...", size);
    }

    /**
     * `load_model`'s effect once it has finished: a successful load makes the model available
     * and tells every client the size; a failure keeps the previous model and broadcasts the
     * error. Either way loading is over. Whether the load succeeds is a parameter.
     */
    method LoadModel(succeeded: bool)
      modifies this
      ensures !modelLoading
      ensures succeeded ==> modelLoaded && emitted == old(emitted) + [Broadcast(ModelReady(modelSize))]
      ensures !succeeded ==> (modelLoaded == old(modelLoaded)
        && emitted == old(emitted) + [Broadcast(Failure("Failed to load model: "))])
      ensures modelSize == old(modelSize) && clients == old(clients) && queue == old(queue) && tempFiles == old(tempFiles)
    {
      modelLoading := true;
      if succeeded {
        modelLoaded := true;
        modelLoading := false;
        emitted := emitted + [Broadcast(ModelReady(modelSize))];
      } else {
        modelLoading := false;
        emitted := emitted + [Broadcast(Failure("Failed to load model: "))];
      }
    }

    /** 'connect': the client gets a fresh entry with no transcriptions and is told the model state. */
    method Connect(clientId: string, now: real)
      modifies this
      ensures clients == old(clients)[clientId := ClientInfo(now, [])]
      ensures emitted == old(emitted) + [Emit(clientId, Connected(clientId, modelLoaded, modelLoading))]
      ensures modelSize == old(modelSize) && modelLoaded == old(modelLoaded) && modelLoading == old(modelLoading)
      ensures queue == old(queue) && tempFiles == old(tempFiles)
    {
      clients := clients[clientId := ClientInfo(now, [])];
      emitted := emitted + [Emit(clientId, Connected(clientId, modelLoaded, modelLoading))];
    }

    /** 'disconnect': the entry goes if there is one; an unknown client changes nothing. */
    method Disconnect(clientId: string)
      modifies this
      ensures clients == old(clients) - {clientId}
      ensures clientId !in old(clients) ==> clients == old(clients)
      ensures modelSize == old(modelSize) && modelLoaded == old(modelLoaded) && modelLoading == old(modelLoading)
      ensures queue == old(queue) && tempFiles == old(tempFiles) && emitted == old(emitted)
    {
      if clientId in clients {
        clients := clients - {clientId};
      }
    }

    /**
     * 'audio_data': the base64 audio is decoded and written to a temporary file named after
     * the client, the time and the format (default "wav"), which is queued for the background
     * transcriber and acknowledged. A missing or undecodable audio field is reported as an
     * error and nothing is written.
     */
    method HandleAudioData(clientId: string, data: Payload, now: real)
      modifies this
      ensures data.audio.None? ==> (tempFiles == old(tempFiles) && queue == old(queue)
        && emitted == old(emitted) + [Emit(clientId, Error("'audio'"))])
      ensures data.audio.Some? && Base64.Decode(data.audio.value).None? ==> (tempFiles == old(tempFiles)
        && queue == old(queue) && emitted == old(emitted) + [Emit(clientId, Failure(""))])
      ensures data.audio.Some? && Base64.Decode(data.audio.value).Some? ==> (
        var path := ChunkPath(clientId, now, if data.format.Some? then data.format.value else DefaultFormat);
        && tempFiles == old(tempFiles)[path := Base64.Decode(data.audio.value).value]
        && queue == old(queue) + [(clientId, path)]
        && emitted == old(emitted) + [Emit(clientId, AudioReceived(now))])
      ensures modelSize == old(modelSize) && clients == old(clients)
    {
      if data.audio.None? {
        emitted := emitted + [Emit(clientId, Error("'audio'"))];
        return;
      }
      var bytes := Base64.Decode(data.audio.value);
      if bytes.None? {
        emitted := emitted + [Emit(clientId, Failure(""))];
        return;
      }
      var format := if data.format.Some? then data.format.value else DefaultFormat;
      var path := ChunkPath(clientId, now, format);
      tempFiles := tempFiles[path := bytes.value];
      queue := queue + [(clientId, path)];
      emitted := emitted + [Emit(clientId, AudioReceived(now))];
    }

    /**
     * One turn of the background transcriber: the oldest queued chunk is taken. Without a
     * model it is dropped and its file stays behind. Otherwise the engine's stripped text, when
     * not empty, goes to the chunk's client and the file is removed; when the engine raises
     * (`engine` is None) the file stays and the client, if still connected, gets the error.
     */
    method ProcessQueued(engine: Option<string>, now: real)
      requires queue != []
      modifies this
      ensures queue == old(queue)[1..]
      ensures var (clientId, path) := old(queue)[0];
        && (!modelLoaded ==> (tempFiles == old(tempFiles) && emitted == old(emitted)))
        && (modelLoaded && engine.None? ==> (tempFiles == old(tempFiles)
              && emitted == old(emitted) + (if clientId in clients then [Emit(clientId, Failure(""))] else [])))
        && (modelLoaded && engine.Some? ==> (tempFiles == old(tempFiles) - {path}
              && emitted == old(emitted) + (if Text.Strip(engine.value) != ""
                   then [Emit(clientId, Transcribed(Text.Strip(engine.value), now))] else [])))
      ensures modelSize == old(modelSize) && modelLoaded == old(modelLoaded) && modelLoading == old(modelLoading)
      ensures clients == old(clients)
    {
      var (clientId, path) := queue[0];
      queue := queue[1..];
      if !modelLoaded {
        return;
      }
      if engine.None? {
        if clientId in clients {
          emitted := emitted + [Emit(clientId, Failure(""))];
        }
        return;
      }
      var text := Text.Strip(engine.value);
      if text != "" {
        emitted := emitted + [Emit(clientId, Transcribed(text, now))];
      }
      tempFiles := tempFiles - {path};
    }

    /**
     * 'audio_blob': the decoded recording is written under an extension chosen from its MIME
     * type (default "audio/webm"). With a model loaded it is transcribed at once (`engine` is
     * the engine's raw text, None when it raises) and the filtered text or the no-speech error
     * is sent; the file is then removed. Without a model the client is told so and the file
     * stays behind.
     */
    method HandleAudioBlob(clientId: string, data: Payload, now: real, engine: Option<string>)
      modifies this
      ensures data.audio.None? ==> (tempFiles == old(tempFiles) && emitted == old(emitted) + [Emit(clientId, Error("'audio'"))])
      ensures data.audio.Some? && Base64.Decode(data.audio.value).None? ==>
        (tempFiles == old(tempFiles) && emitted == old(emitted) + [Emit(clientId, Failure(""))])
      ensures data.audio.Some? && Base64.Decode(data.audio.value).Some? ==> (
        var mimeType := if data.mimeType.Some? then data.mimeType.value else DefaultBlobType;
        var path := BlobPath(clientId, now, BlobExtension(mimeType));
        && (!modelLoaded ==> (tempFiles == old(tempFiles)[path := Base64.Decode(data.audio.value).value]
              && emitted == old(emitted) + [Emit(clientId, Error("Model not loaded yet"))]))
        && (modelLoaded ==> (tempFiles == old(tempFiles)[path := Base64.Decode(data.audio.value).value] - {path}
              && emitted == old(emitted) + [Emit(clientId,
                   if engine.Some? then BlobReply(engine.value, now) else Failure("Transcription failed: "))])))
      ensures modelSize == old(modelSize) && clients == old(clients) && queue == old(queue)
    {
      if data.audio.None? {
        emitted := emitted + [Emit(clientId, Error("'audio'"))];
        return;
      }
      var bytes := Base64.Decode(data.audio.value);
      if bytes.None? {
        emitted := emitted + [Emit(clientId, Failure(""))];
        return;
      }
      var mimeType := if data.mimeType.Some? then data.mimeType.value else DefaultBlobType;
      var path := BlobPath(clientId, now, BlobExtension(mimeType));
      tempFiles := tempFiles[path := bytes.value];
      if !modelLoaded {
        emitted := emitted + [Emit(clientId, Error("Model not loaded yet"))];
        return;
      }
      if engine.Some? {
        emitted := emitted + [Emit(clientId, BlobReply(engine.value, now))];
      } else {
        emitted := emitted + [Emit(clientId, Failure("Transcription failed: "))];
      }
      tempFiles := tempFiles - {path};
    }
  }

  /**
   * A blob from the WAV client decodes on the server to exactly the WAV file the client
   * encoded, and is stored with the ".wav" extension.
   */
  lemma WavClientBlobArrivesIntact(samples: seq<real>)
    ensures var m := AudioWav.BlobMessage(samples);
      && Base64.Decode(m.audio) == Some(Wave.Encode(Wave.Symmetric, samples, AudioWav.SampleRate))
      && BlobExtension(m.mimeType) == "wav"
  {
    AudioWav.BlobMessageContents(samples);
    WavTypeExtension();
  }
}
