/**
 * The file-upload page: it validates the chosen file by size and extension, decides whether
 * to convert it to 16 kHz WAV in the browser first, and reads the server's progress stream
 * line by line.
 */
module Upload {
  import opened Common
  import Text
  import Wave

  /** One gibibyte. */
  const MaxSize: int := 1024 * 1024 * 1024
  const AudioExtensions: seq<string> := ["wav", "mp3", "m4a", "flac", "ogg", "wma", "webm"]
  const VideoExtensions: seq<string> := ["mp4", "avi", "mov", "mkv"]
  /** Formats the browser decodes and re-encodes as WAV before uploading. */
  const ConvertedExtensions: seq<string> := ["mp3", "m4a", "flac", "ogg", "wma", "webm"]
  /** The sample rate of a converted file. */
  const ConversionRate: int := 16000

  /** A chosen file: its name, its size in bytes and the browser's MIME type for it. */
  datatype File = File(name: string, size: int, mimeType: string)

  /** `name.split('.').pop().toLowerCase()`: the text after the last dot, or the whole name. */
  function Extension(name: string): (ext: string)
    ensures '.' !in ext
    ensures |ext| <= |name| && ext == Text.Lower(name[|name| - |ext|..])
    ensures |ext| < |name| ==> name[|name| - |ext| - 1] == '.'
  {
    var pieces := Text.Split(name, '.');
    Text.SplitPiecesAvoidSeparator(name, '.');
    Text.LastPieceIsSuffix(name, '.');
    var last := pieces[|pieces| - 1];
    assert '.' !in Text.Lower(last) by {
      forall i | 0 <= i < |last| ensures Text.Lower(last)[i] != '.' {
        assert last[i] != '.';
      }
    }
    Text.Lower(last)
  }

  /** A name with a dot has as extension the lower-cased text after its last dot. */
  lemma ExtensionAfterLastDot(stem: string, ext: string)
    requires '.' !in ext
    ensures Extension(stem + "." + ext) == Text.Lower(ext)
  {
    Text.SplitLastPiece(stem, ext, '.');
  }

  /** A name without a dot is its own extension, lower-cased. */
  lemma ExtensionWithoutDot(name: string)
    requires '.' !in name
    ensures Extension(name) == Text.Lower(name)
  {
    Text.SplitNoSeparator(name, '.');
  }

  /** The outcome of `handleFileSelect`'s checks. */
  datatype Verdict = TooLarge | Unsupported | Accepted(isVideo: bool)

  function Validate(file: File): (v: Verdict)
    ensures v == TooLarge <==> file.size > MaxSize
    ensures v.Accepted? <==> file.size <= MaxSize && Extension(file.name) in AudioExtensions + VideoExtensions
    ensures v.Accepted? ==> (v.isVideo <==> Extension(file.name) in VideoExtensions)
  {
    var ext := Extension(file.name);
    if file.size > MaxSize then TooLarge
    else if ext !in AudioExtensions && ext !in VideoExtensions then Unsupported
    else Accepted(ext in VideoExtensions)
  }

  /** A file up to 1 GiB named "<stem>.<ext>" is accepted exactly when its lower-cased extension is listed. */
  lemma ValidateDotted(stem: string, ext: string, size: int)
    requires '.' !in ext && size <= MaxSize
    ensures Validate(File(stem + "." + ext, size, "")).Accepted?
      <==> Text.Lower(ext) in AudioExtensions + VideoExtensions
  {
    ExtensionAfterLastDot(stem, ext);
  }

  /** Extensions are compared after lower-casing: "talk.WAV" is judged exactly as "talk.wav". */
  lemma ValidateIgnoresCase(stem: string, ext: string, size: int, mimeType: string)
    requires '.' !in ext
    ensures Validate(File(stem + "." + ext, size, mimeType)) == Validate(File(stem + "." + Text.Lower(ext), size, mimeType))
  {
    var lowered := Text.Lower(ext);
    assert '.' !in lowered by {
      forall i | 0 <= i < |ext| ensures lowered[i] != '.' {
        assert ext[i] != '.';
      }
    }
    assert Text.Lower(lowered) == lowered;
    ExtensionAfterLastDot(stem, ext);
    ExtensionAfterLastDot(stem, lowered);
  }

  /** Conversion to WAV happens only for the listed compressed formats and only for audio files. */
  predicate NeedsConversion(file: File)
  {
    Extension(file.name) in ConvertedExtensions && Text.StartsWith(file.mimeType, "audio/")
  }

  /** WAV files, video files and files without an audio MIME type are uploaded unchanged. */
  lemma ConversionCases(file: File)
    ensures Extension(file.name) == "wav" ==> !NeedsConversion(file)
    ensures Extension(file.name) in VideoExtensions ==> !NeedsConversion(file)
    ensures !Text.StartsWith(file.mimeType, "audio/") ==> !NeedsConversion(file)
    ensures NeedsConversion(file) ==> Extension(file.name) in AudioExtensions
  {
    ConvertedAreAudio(Extension(file.name));
  }

  lemma ConvertedAreAudio(ext: string)
    ensures ext in ConvertedExtensions ==> ext in AudioExtensions && ext != "wav" && ext !in VideoExtensions
  {
  }

  /**
   * `name.replace(/\.[^/.]+$/, '') + '.wav'`: a final dot followed by at least one character
   * and no '/' is removed, then ".wav" is appended.
   */
  function WavFileName(name: string): (r: string)
    ensures |r| >= 4 && r[|r| - 4..] == ".wav"
    ensures r[..|r| - 4] <= name
  {
    var pieces := Text.Split(name, '.');
    var last := pieces[|pieces| - 1];
    var stem := if |pieces| >= 2 && last != "" && '/' !in last && |last| + 1 <= |name| then name[..|name| - |last| - 1] else name;
    stem + ".wav"
  }

  /** "<stem>.<ext>" becomes "<stem>.wav" when the extension is non-empty and has no '/' or '.'. */
  lemma WavFileNameReplaces(stem: string, ext: string)
    requires ext != "" && '.' !in ext && '/' !in ext
    ensures WavFileName(stem + "." + ext) == stem + ".wav"
  {
    var name := stem + "." + ext;
    Text.SplitLastPiece(stem, ext, '.');
    assert name[..|name| - |ext| - 1] == stem;
  }

  /** A name without a dot, or one whose last dot ends it, keeps its text and gains ".wav". */
  lemma WavFileNameAppends(name: string)
    requires '.' !in name || (|name| > 0 && name[|name| - 1] == '.')
    ensures WavFileName(name) == name + ".wav"
  {
    if '.' !in name {
      Text.SplitNoSeparator(name, '.');
    } else {
      var stem := name[..|name| - 1];
      assert name == stem + "." + "";
      Text.SplitLastPiece(stem, "", '.');
    }
  }

  /** `createWAVBlob(audioData, sampleRate)`: the header with the given rate, then the symmetric int16 samples. */
  method CreateWavBlob(audioData: seq<real>, sampleRate: int) returns (blob: seq<byte>)
    ensures blob == Wave.Encode(Wave.Symmetric, audioData, sampleRate)
    ensures |blob| == Wave.HeaderSize + 2 * |audioData|
  {
    var buf := Wave.EncodeWav(Wave.Symmetric, audioData, sampleRate);
    blob := buf[..];
  }

  /** The lines of a progress stream that carry an event, each without its "data: " prefix. */
  function Payloads(lines: seq<string>): (r: seq<string>)
    ensures |r| <= |lines|
  {
    if lines == [] then []
    else
      var line := lines[|lines| - 1];
      Payloads(lines[..|lines| - 1]) + (if Text.StartsWith(line, "data: ") then [line[6..]] else [])
  }

  /** A "data: " line stays a payload wherever it stands, after the payloads of the lines before it. */
  lemma {:induction false} PayloadsAppend(a: seq<string>, b: seq<string>)
    ensures Payloads(a + b) == Payloads(a) + Payloads(b)
    decreases |b|
  {
    if b == [] {
      assert a + b == a;
    } else {
      assert (a + b)[..|a + b| - 1] == a + b[..|b| - 1];
      PayloadsAppend(a, b[..|b| - 1]);
    }
  }

  /** The inner loop over one read's complete lines: the "data: " lines, prefix removed, in order. */
  method CollectPayloads(lines: seq<string>) returns (payloads: seq<string>)
    ensures payloads == Payloads(lines)
  {
    payloads := [];
    for j := 0 to |lines|
      invariant payloads == Payloads(lines[..j])
    {
      assert lines[..j + 1][..j] == lines[..j];
      if Text.StartsWith(lines[j], "data: ") {
        payloads := payloads + [lines[j][6..]];
      }
    }
    assert lines[..|lines|] == lines;
  }

  /** One read: the lines so far, then the split of the buffered line continued by the new text. */
  lemma StreamStep(done: string, chunk: string, lines: seq<string>, buffer: string, sep: char)
    requires lines + [buffer] == Text.Split(done, sep)
    ensures Text.Split(done + chunk, sep) == lines + Text.Split(buffer + chunk, sep)
  {
    var all := Text.Split(done, sep);
    Text.SplitAppend(done, chunk, sep);
    assert (lines + [buffer])[..|lines|] == lines;
    assert all[..|all| - 1] == lines;
    assert all[|all| - 1] == buffer;
  }

  /**
   * The read loop of `startTranscription`: each read is appended to the buffer, the
   * complete lines are taken off and the unfinished last line stays buffered. The lines
   * handled are exactly the complete lines of the whole stream and the buffer is what
   * follows its last newline.
   */
  method SplitStream(chunks: seq<string>) returns (payloads: seq<string>, buffer: string)
    ensures var all := Text.Split(Flatten(chunks), '\n');
      payloads == Payloads(all[..|all| - 1]) && buffer == all[|all| - 1]
    ensures '\n' !in buffer
  {
    payloads := [];
    buffer := [];
    ghost var lines: seq<string> := [];
    for i := 0 to |chunks|
      invariant lines + [buffer] == Text.Split(Flatten(chunks[..i]), '\n')
      invariant payloads == Payloads(lines)
    {
      assert chunks[..i + 1][..i] == chunks[..i];
      assert Flatten(chunks[..i + 1]) == Flatten(chunks[..i]) + chunks[i];
      StreamStep(Flatten(chunks[..i]), chunks[i], lines, buffer, '\n');
      var pieces := Text.Split(buffer + chunks[i], '\n');
      var complete := pieces[..|pieces| - 1];
      assert complete + [pieces[|pieces| - 1]] == pieces;
      assert (lines + complete) + [pieces[|pieces| - 1]] == lines + pieces;
      var more := CollectPayloads(complete);
      PayloadsAppend(lines, complete);
      payloads := payloads + more;
      lines := lines + complete;
      buffer := pieces[|pieces| - 1];
    }
    assert chunks[..|chunks|] == chunks;
    Text.SplitPiecesAvoidSeparator(Flatten(chunks), '\n');
  }

  /** Whatever the reads, the handled lines and the buffer joined by newlines are the whole stream. */
  lemma StreamReassembles(chunks: seq<string>)
    ensures var all := Text.Split(Flatten(chunks), '\n');
      Text.Join(all[..|all| - 1] + [all[|all| - 1]], "\n") == Flatten(chunks)
  {
    var all := Text.Split(Flatten(chunks), '\n');
    assert all[..|all| - 1] + [all[|all| - 1]] == all;
    Text.JoinSplit(Flatten(chunks), '\n');
  }

  const ConvertingMessage: string := "Converting audio to WAV format..."
  const UploadingMessage: string := "Uploading file..."

  /** One progress event from the server. */
  datatype Progress = Progress(status: string, message: string, progress: int, transcription: string)

  /** What is uploaded: the chosen file itself, or its WAV conversion. */
  datatype Upload = Original(file: File) | Converted(name: string, wav: seq<byte>)

  class FileUploadHandler {
    var selectedFile: Option<File>
    var currentTranscription: Option<string>
    var transcribeEnabled: bool
    var progressVisible: bool
    var progressMessage: string
    var progressPercent: int
    /** The number shown in the word-count element. */
    var wordCount: int

    constructor()
      ensures selectedFile == None && currentTranscription == None && transcribeEnabled && !progressVisible
      ensures wordCount == 0
    {
      selectedFile := None;
      currentTranscription := None;
      transcribeEnabled := true;
      progressVisible := false;
      progressMessage := "";
      progressPercent := 0;
      wordCount := 0;
    }

    /** `handleFileSelect`: an accepted file becomes the selection; a rejected one leaves it as it was. */
    method HandleFileSelect(file: File)
      modifies this
      ensures selectedFile == if Validate(file).Accepted? then Some(file) else old(selectedFile)
      ensures currentTranscription == old(currentTranscription) && transcribeEnabled == old(transcribeEnabled)
      ensures progressVisible == old(progressVisible) && progressMessage == old(progressMessage)
      ensures progressPercent == old(progressPercent) && wordCount == old(wordCount)
    {
      if file.size > MaxSize {
        return;
      }
      var ext := Extension(file.name);
      if !(ext in AudioExtensions) && !(ext in VideoExtensions) {
        return;
      }
      selectedFile := Some(file);
    }

    /** `removeFile`. */
    method RemoveFile()
      modifies this
      ensures selectedFile == None
      ensures currentTranscription == old(currentTranscription) && transcribeEnabled == old(transcribeEnabled)
      ensures progressVisible == old(progressVisible) && progressMessage == old(progressMessage)
      ensures progressPercent == old(progressPercent) && wordCount == old(wordCount)
    {
      selectedFile := None;
    }

    /**
     * The part of `startTranscription` before the request: nothing without a selection;
     * otherwise the progress shows and the button is disabled. A file that needs conversion
     * first shows "Converting audio to WAV format..." at 0% and is uploaded as "<stem>.wav"
     * holding its decoded samples, the conversion ending at 100% (`decoded`, None when decoding
     * failed, in which case the button comes back and nothing is uploaded); any other file is
     * uploaded as it is. Before
     * an upload the status reads "Uploading file...".
     */
    method StartTranscription(decoded: Option<seq<real>>) returns (upload: Option<Upload>)
      modifies this
      ensures old(selectedFile) == None ==> (upload == None && progressVisible == old(progressVisible)
        && transcribeEnabled == old(transcribeEnabled))
      ensures old(selectedFile).Some? && !NeedsConversion(old(selectedFile).value) ==>
        upload == Some(Original(old(selectedFile).value)) && progressVisible && !transcribeEnabled
      ensures old(selectedFile).Some? && NeedsConversion(old(selectedFile).value) && decoded.Some? ==>
        upload == Some(Converted(WavFileName(old(selectedFile).value.name),
          Wave.Encode(Wave.Symmetric, decoded.value, ConversionRate)))
        && progressVisible && !transcribeEnabled
      ensures old(selectedFile).Some? && NeedsConversion(old(selectedFile).value) && decoded.None? ==>
        upload == None && !progressVisible && transcribeEnabled
      ensures old(selectedFile) == None ==> progressMessage == old(progressMessage) && progressPercent == old(progressPercent)
      ensures old(selectedFile).Some? && NeedsConversion(old(selectedFile).value) ==> (progressPercent == (if decoded.Some? then 100 else 0)
        && progressMessage == (if decoded.Some? then UploadingMessage else ConvertingMessage))
      ensures old(selectedFile).Some? && !NeedsConversion(old(selectedFile).value) ==>
        progressMessage == UploadingMessage && progressPercent == old(progressPercent)
      ensures upload.Some? ==> progressMessage == UploadingMessage
      ensures selectedFile == old(selectedFile) && currentTranscription == old(currentTranscription)
      ensures wordCount == old(wordCount)
    {
      if selectedFile == None {
        return None;
      }
      var file := selectedFile.value;
      progressVisible := true;
      transcribeEnabled := false;
      if NeedsConversion(file) {
        progressMessage := ConvertingMessage;
        progressPercent := 0;
        if decoded == None {
          transcribeEnabled := true;
          progressVisible := false;
          return None;
        }
        var wav := CreateWavBlob(decoded.value, ConversionRate);
        upload := Some(Converted(WavFileName(file.name), wav));
        progressPercent := 100;
      } else {
        upload := Some(Original(file));
      }
      progressMessage := UploadingMessage;
    }

    /** `handleProgress`: 'processing', 'complete' and 'error' each have their effect; any other status none. */
    method HandleProgress(data: Progress)
      modifies this
      ensures data.status == "processing" ==> (progressMessage == data.message && progressPercent == data.progress
        && currentTranscription == old(currentTranscription) && wordCount == old(wordCount)
        && progressVisible == old(progressVisible) && transcribeEnabled == old(transcribeEnabled))
      ensures data.status == "complete" ==> (currentTranscription == Some(data.transcription)
        && wordCount == |Text.Words(Text.JsWhitespace, data.transcription)| && !progressVisible
        && progressMessage == old(progressMessage) && progressPercent == old(progressPercent)
        && transcribeEnabled == old(transcribeEnabled))
      ensures data.status == "error" ==> (transcribeEnabled && !progressVisible
        && currentTranscription == old(currentTranscription) && wordCount == old(wordCount)
        && progressMessage == old(progressMessage) && progressPercent == old(progressPercent))
      ensures data.status !in {"processing", "complete", "error"} ==> (
        currentTranscription == old(currentTranscription) && wordCount == old(wordCount)
        && progressVisible == old(progressVisible) && transcribeEnabled == old(transcribeEnabled)
        && progressMessage == old(progressMessage) && progressPercent == old(progressPercent))
      ensures selectedFile == old(selectedFile)
    {
      if data.status == "processing" {
        progressMessage := data.message;
        progressPercent := data.progress;
      } else if data.status == "complete" {
        DisplayTranscription(data.transcription);
      } else if data.status == "error" {
        transcribeEnabled := true;
        progressVisible := false;
      }
    }

    /** `displayTranscription`: the text is kept for download and its whitespace-separated words are counted. */
    method DisplayTranscription(transcription: string)
      modifies this
      ensures currentTranscription == Some(transcription)
      ensures wordCount == |Text.Words(Text.JsWhitespace, transcription)| && !progressVisible
      ensures selectedFile == old(selectedFile) && transcribeEnabled == old(transcribeEnabled)
      ensures progressMessage == old(progressMessage) && progressPercent == old(progressPercent)
    {
      progressVisible := false;
      wordCount := |Text.Words(Text.JsWhitespace, transcription)|;
      currentTranscription := Some(transcription);
    }
  }
}
