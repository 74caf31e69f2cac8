# WhisperLive in Dafny

This project models the capture-and-streaming core of WhisperLive, a real-time speech-to-text
system, and proves properties of that model.

**Browser clients.** Four browser clients capture microphone audio:
- `WhisperLivePCM` buffers script-processor frames until 32000 samples are held.
- `WhisperLiveWAV` flushes a flat sample buffer every three seconds behind an RMS silence gate.
- `WhisperLiveMinimal` collects MediaRecorder fragments.
- `WhisperLiveSimple` makes one ten-second MediaRecorder take.

They ship audio to the Flask/Socket.IO server as base64 in `audio_data` and `audio_blob` events.
Two of them first build a 44-byte RIFF/WAVE PCM16 file. The upload page converts and streams
files, and reads the server's progress stream line by line.

**Terminal application.** The Python side adds a terminal application with these parts:
- the sounddevice capture loop, with its one-second accumulator and voice-activity edge detector;
- a Rich terminal display that keeps the newest 50 transcript entries;
- a transcript file manager with an auto-save append rule;
- the application object that guards recording start and stop, cycles devices and auto-saves.

A Windows installer script is also covered.

**Modules.** There is one Dafny module per source file:

| module | source file |
|---|---|
| `App` | `app.py` |
| `AudioHandler` | `src/audio_handler.py` |
| `AudioPcm` | `static/js/audio-pcm.js` |
| `AudioWav` | `static/js/audio-wav.js` |
| `AudioMinimal` | `static/js/audio-minimal.js` |
| `AudioSimple` | `static/js/audio-simple.js` |
| `Upload` | `static/js/upload.js` |
| `Display` | `src/display.py` |
| `Utils` | `src/utils.py` |
| `SpeechToText` | `speech_to_text.py` |
| `Install` | `install_windows.py` |

The shared modules are:
- `Wave`: one WAV encoder, with the asymmetric and symmetric int16 scalings as a parameter, and its reader.
- `Base64`: section 4 of RFC 4648, `btoa`, data URLs.
- `Text`: split, join, words, strip, ASCII case, decimal rendering.
- `Calendar`: the two `strftime` layouts.
- `Level`: sums of squares.
- `Common`: bytes, Option, flattening.
- `Wire`: the Socket.IO events the clients emit.

**Classes and effects.** Objects whose fields the source updates are classes. Their methods
state the whole new state. Socket emits are recorded in a `sent` or `emitted` log. Files are a
map from path to contents. These are parameters: microphone permission, stream start-up,
recorder type support, the speech engine's answer, clocks, the time zone and whether a file
write succeeds.

**The clients differ in these ways.** The model follows each one's code:
- The asymmetric ×32768/×32767 scaling is used only by audio-pcm.js. audio-wav.js and
  upload.js scale by 32767 both ways.
- Two paths drop audio on stop:
  - audio-wav.js sends its final partial buffer through the silence gate, so a silent
    remainder is dropped;
  - the Python processing thread drops the audio it has not yet handed out.
- audio-pcm.js counts words as `split(' ').length`, empty pieces included. The other clients
  count non-empty pieces.
- The PCM client's chunk is 2 seconds (32000 samples).

## Model

| member | source | states |
|---|---|---|
| Wave.Clamp | static/js/audio-pcm.js:266 | the clamped sample lies in [-1, 1], equals the input inside that range and the nearer bound outside it |
| Wave.ToInt16 | static/js/audio-pcm.js:267 | ECMAScript ToInt16: the result lies in [-32768, 32768) and is congruent to the input modulo 2^16 |
| Wave.SampleValueRange | static/js/audio-pcm.js:264-269 | a stored sample is the truncation of the clamped, scaled input; it always fits int16; full scale maps to 32767 and to -32768 (asymmetric) or -32767 (symmetric); the sign is kept except for tiny negative inputs that truncate to 0 |
| Wave.SampleValueMonotone | static/js/audio-wav.js:348-349 | encoding preserves the order of samples |
| Wave.Encode | static/js/audio-pcm.js:253 | an encoded file of n samples is 44 + 2n bytes |
| Wave.HeaderSizes | static/js/audio-pcm.js:271-288 | the header carries 'RIFF', 'WAVE', 'fmt ' and 'data' at offsets 0, 8, 12 and 36, the sizes 36+2n at 4, 16 at 16 and 2n at 40 (modulo 2^32), PCM format 1, one channel, the rate and twice the rate, block align 2 and 16 bits |
| Wave.HeaderWideFields | static/js/audio-pcm.js:273-288 | the 32-bit fields at 4, 16, 24, 28 and 40 hold 36+2n, 16, the rate, twice the rate and 2n, little-endian and modulo 2^32 |
| Wave.HeaderNarrowFields | static/js/audio-pcm.js:279-284 | the 16-bit fields at 20, 22, 32 and 34 hold format 1, 1 channel, block align 2 and 16 bits |
| Wave.U16Read | static/js/audio-pcm.js:279 | reading a written little-endian u16 back gives the value modulo 2^16 |
| Wave.U32Read | static/js/audio-pcm.js:273 | reading a written little-endian u32 back gives the value modulo 2^32 |
| Wave.I16Read | static/js/audio-pcm.js:267 | reading a written int16 back gives the value |
| Wave.ParseHeaderOfHeader | static/js/audio-wav.js:327-343 | a WAV reader accepts the header and recovers mono 16-bit PCM, the wrapped rate and byte rate, and 2n data bytes |
| Wave.ParseEncodedHeader | static/js/audio-wav.js:313-354 | any encoded file starts with that header, so a reader accepts it the same way |
| Wave.ParseEncodedHeaderInRange | static/js/upload.js:452-453 | for a rate whose byte rate fits in 32 bits the reader gets the rate and byte rate back unchanged |
| Wave.SampleAt | static/js/audio-pcm.js:289 | sample i reads back at offset 44 + 2i as its stored int16 value |
| Wave.DecodeSamples | static/js/upload.js:462-467 | decoding an encoding's payload gives every sample's stored value in order |
| Wave.ClampInvariance | static/js/audio-wav.js:348 | encoding the clamped samples gives the same bytes as encoding the originals |
| Wave.EncodeWav | static/js/audio-pcm.js:252-292 | the DataView-writing encoder fills the buffer with exactly the encoding |
| Wave.WritePayload | static/js/audio-wav.js:345-351 | the sample loop leaves the header intact and writes each sample's two bytes after it |
| Base64.Encode | static/js/audio-pcm.js:300 | base64 output is ⌈n/3⌉·4 characters and contains no comma |
| Base64.ValueOfSym | static/js/audio-pcm.js:300 | every alphabet character decodes back to its 6-bit value |
| Base64.DecodeEncode | app.py:205 | decoding a base64 encoding gives back exactly the original bytes, for every length |
| Base64.Latin1 | static/js/audio-pcm.js:296-299 | the binary string has one character per byte, whose code is that byte |
| Base64.Btoa | static/js/audio-pcm.js:300 | `btoa` succeeds exactly when every character code is at most 0xFF |
| Base64.BtoaLatin1 | static/js/audio-pcm.js:294-301 | `btoa` of a binary string is the base64 of its bytes |
| Base64.DataUrlPayloadIsBase64 | static/js/audio-wav.js:288 | for a MIME type without a comma, the data URL's text after the comma is exactly the base64 of the bytes |
| Base64.BlobType | static/js/audio-minimal.js:202-204 | a Blob's type is "" or as long as the given one, printable ASCII with no capitals |
| Base64.BlobTypeKeepsNormalised | static/js/audio-minimal.js:202-204 | a type that is already lower-case printable ASCII is kept, so normalising is idempotent |
| Common.Trunc | static/js/audio-pcm.js:267 | truncation toward zero: floor for non-negative inputs, ceiling for negative ones |
| Common.FlattenLength | static/js/audio-pcm.js:226 | the concatenated frames are as long as the sum of the frame lengths |
| Common.FlattenAppend | static/js/audio-pcm.js:226-233 | concatenating two frame lists concatenates their concatenations |
| Common.KeepNonEmpty | static/js/audio-minimal.js:133-138 | the kept fragments are a list of non-empty fragments no longer than the input |
| Common.FlattenKeepNonEmpty | static/js/audio-minimal.js:133-138 | dropping empty fragments never loses a byte |
| Level.SumOfSquares | static/js/audio-wav.js:304-311 | the sum of squares is never negative |
| Level.ZeroSum | static/js/audio-wav.js:304-311 | an all-zero buffer has zero energy |
| Level.SumAtLeastSquare | static/js/audio-wav.js:304-311 | the sum of squares is at least any one sample's square |
| Level.MeanSquare | static/js/audio-wav.js:305-309 | the accumulating loop returns the sum of squares over n |
| Level.MeanSquareOrder | static/js/audio-wav.js:272 | comparing Σx² with 0.0001·n is comparing the mean square with 0.0001 |
| Level.SquareOrder | src/audio_handler.py:98 | for a non-negative level, its square passes 0.0001 exactly when it passes 0.01 |
| Text.Split | static/js/upload.js:227 | splitting on one character always yields at least one piece |
| Text.SplitCount | static/js/audio-pcm.js:328 | `split(' ')` yields one more piece than there are spaces |
| Text.SplitPiecesAvoidSeparator | static/js/upload.js:227 | no piece holds the separator |
| Text.JoinSplit | static/js/upload.js:227-228 | joining the pieces with the separator restores the string |
| Text.SplitJoin | src/display.py:255 | splitting a join of separator-free parts gives the parts back |
| Text.SplitAppend | static/js/upload.js:226-228 | splitting a concatenation continues the last piece of the first part with the first piece of the second |
| Text.SplitLastPiece | static/js/upload.js:228 | the last piece is what follows the last separator; the others are the pieces of what precedes it |
| Text.NonEmpty | static/js/audio-wav.js:380 | `.filter(w => w.length > 0)` keeps only non-empty pieces and never grows the list |
| Text.Words | src/display.py:205 | the whitespace words are non-empty and contain no blank |
| Text.WordsJoin | speech_to_text.py:312 | the words of a space-join of words are those words |
| Text.NonEmptySplitWords | static/js/audio-wav.js:380 | the non-empty pieces of `split(' ')` are the space-separated words |
| Text.WordsEmptyIffAllBlank | src/display.py:194-205 | a text has no words exactly when it is all whitespace |
| Text.StripEmptyIffBlank | src/display.py:194 | `not s.strip()` holds exactly for empty and all-whitespace strings |
| Text.StripShape | install_windows.py:100 | a non-empty stripped string starts and ends with a non-blank character |
| Text.StripAvoids | install_windows.py:100 | stripping brings in no new character |
| Text.StripIdempotent | install_windows.py:100 | stripping twice is stripping once |
| Text.Lower | app.py:366 | lower-casing keeps the length and maps each character |
| Text.Repeat | src/display.py:109 | `c * n` is n copies of c, none for n ≤ 0 |
| Text.CountRepeat | src/display.py:109 | a run of c holds n c's and nothing else |
| Text.DigitsRoundTrip | src/display.py:151 | a rendered natural number reads back as itself |
| Text.DigitsLength | src/utils.py:140 | one digit exactly below 10, at most two below 100 |
| Text.PadStart | static/js/audio-pcm.js:390 | `padStart` yields the longer of the string and the width |
| Text.TwoDigitsShape | src/utils.py:140 | `:02d` / `padStart(2, '0')` of a number below 100 is two digits reading as the number |
| Calendar.FormatShape | src/display.py:248-250 | a valid time renders as "YYYY-mm-dd HH:MM:SS" with separators at their places and fields reading back as the time's fields |
| Calendar.FormatLength | src/utils.py:45 | that rendering is 19 characters |
| Calendar.CompactShape | src/utils.py:26 | "%Y%m%d_%H%M%S" of a valid time is 15 characters: 8 digits, '_', 6 digits |
| Calendar.FormatHasNoNewline | src/display.py:248-251 | a rendered time holds no line break |
| Upload.Extension | static/js/upload.js:125 | the extension holds no dot and is the lower-cased end of the name: everything after its last dot, or the whole name when it has none |
| Upload.ExtensionAfterLastDot | static/js/upload.js:125 | for "stem.ext" with no dot in ext, the extension is ext lower-cased |
| Upload.ExtensionWithoutDot | static/js/upload.js:125 | a dot-free name is its own extension, lower-cased |
| Upload.Validate | static/js/upload.js:118-132 | a file over 1024³ bytes is too large; otherwise it is accepted exactly when its extension is one of the 7 audio or 4 video extensions |
| Upload.ValidateDotted | static/js/upload.js:118-132 | a file up to 1 GiB named "stem.ext" is accepted exactly when ext, lower-cased, is listed |
| Upload.ValidateIgnoresCase | static/js/upload.js:125 | extensions are judged after lower-casing |
| Upload.ConversionCases | static/js/upload.js:177-182 | WAV files, video files and non-audio MIME types are uploaded unchanged; the six compressed audio formats with an audio/ type are converted |
| Upload.WavFileName | static/js/upload.js:409 | the converted name ends in ".wav" |
| Upload.WavFileNameReplaces | static/js/upload.js:409 | "stem.ext" becomes "stem.wav" when ext is non-empty and has no '/' or '.' |
| Upload.WavFileNameAppends | static/js/upload.js:409 | a name without a dot, or ending in a dot, keeps its text and gains ".wav" |
| Upload.CreateWavBlob | static/js/upload.js:430-470 | the blob is the WAV encoding at the given rate with symmetric scaling: 44 + 2n bytes |
| Upload.Payloads | static/js/upload.js:229-233 | each payload is a "data: " line with its six-character prefix removed |
| Upload.PayloadsAppend | static/js/upload.js:229-233 | the payloads of two line lists are the first's then the second's |
| Upload.CollectPayloads | static/js/upload.js:229-234 | the inner loop yields exactly the payloads of the read's complete lines, in order |
| Upload.StreamStep | static/js/upload.js:226-228 | after a read, the lines handled so far, each followed by a newline, then the buffer, are the old ones plus the new text |
| Upload.SplitStream | static/js/upload.js:220-236 | the read loop handles exactly the complete lines of the whole stream and buffers the unfinished last line, which holds no newline; both depend only on the concatenated stream, so how it is cut into reads makes no difference |
| Upload.StreamReassembles | static/js/upload.js:226-228 | the handled lines and the buffer, joined by newlines, are the whole stream |
| Upload.FileUploadHandler.constructor | static/js/upload.js:3-8 | no selection and no transcription at the start |
| Upload.FileUploadHandler.HandleFileSelect | static/js/upload.js:116-140 | an accepted file becomes the selection; a too-large or unsupported one leaves it unchanged |
| Upload.FileUploadHandler.RemoveFile | static/js/upload.js:160-166 | the selection is cleared |
| Upload.FileUploadHandler.StartTranscription | static/js/upload.js:168-206 | nothing without a selection; otherwise the progress shows and the button is disabled; a file that needs conversion shows "Converting audio to WAV format..." at 0% and is uploaded as its decoded samples in a "stem.wav" WAV file with the progress at 100%, or, when decoding fails, nothing is uploaded, the button is enabled again and the progress hidden; any other file is uploaded unchanged; every upload is preceded by "Uploading file..." |
| Upload.FileUploadHandler.HandleProgress | static/js/upload.js:246-258 | 'processing' updates the progress, 'complete' shows the result, 'error' re-enables the button; any other status changes nothing |
| Upload.FileUploadHandler.DisplayTranscription | static/js/upload.js:260-285 | the text is kept and the count is its whitespace-separated non-empty words |
| AudioPcm.ChunkMessage | static/js/audio-pcm.js:239-247 | a chunk becomes one 'audio_data' event with the base64 of its WAV file, format 'wav' and rate 16000 |
| AudioPcm.ServerDecodesChunk | app.py:205 | the server's base64 decoding of the event gives exactly the client's WAV file |
| AudioPcm.ChunkHeader | static/js/audio-pcm.js:271-288 | that file is 44 + 2n bytes and announces mono 16-bit PCM at 16 kHz, 32000 bytes per second and 2n data bytes |
| AudioPcm.ChunkSamplesRecovered | static/js/audio-pcm.js:264-269 | its payload holds the chunk's samples in order, clamped, scaled asymmetrically and truncated |
| AudioPcm.FormatElapsedShape | static/js/audio-pcm.js:387-390 | under an hour, the duration shows as "mm:ss" with mm·60 + ss the elapsed whole seconds |
| AudioPcm.CombineFrames | static/js/audio-pcm.js:226-233 | the combined buffer is the frames concatenated in push order, as long as their total length |
| AudioPcm.ArrayBufferToBase64 | static/js/audio-pcm.js:294-301 | the result is the base64 of the buffer's bytes, so it decodes back to them |
| AudioPcm.WhisperLivePcm.constructor | static/js/audio-pcm.js:3-23 | not recording, empty buffer, nothing sent, empty transcript |
| AudioPcm.WhisperLivePcm.SendAudioChunk | static/js/audio-pcm.js:222-250 | nothing for an empty buffer; otherwise one event carrying the frames concatenated in order, and the buffer is empty |
| AudioPcm.WhisperLivePcm.OnAudioProcess | static/js/audio-pcm.js:157-172 | a frame is kept only while recording; a send happens exactly when the buffer reaches `Math.floor(16000 * 2.0)` = 32000 samples, so a sent chunk holds between 32000 and 32000 + frame length − 1 samples |
| AudioPcm.WhisperLivePcm.StartRecording | static/js/audio-pcm.js:116-189 | with microphone access the start time is noted and the buffer emptied, and recording stays on only if the audio graph is built; a refusal or a failing graph leaves recording off, and a refusal leaves the buffer and start time as they were |
| AudioPcm.WhisperLivePcm.StopRecording | static/js/audio-pcm.js:191-220 | recording goes off, the partial buffer is sent once if non-empty, and the buffer is empty, so a second stop sends nothing |
| AudioPcm.WhisperLivePcm.ToggleRecording | static/js/audio-pcm.js:108-114 | while recording: off, the partial buffer sent once and emptied, the start time kept; otherwise the start's effect on recording, buffer and start time for each of the three outcomes; the duration text and transcript unchanged |
| AudioPcm.WhisperLivePcm.UpdateDuration | static/js/audio-pcm.js:383-396 | the "mm:ss" text is redrawn only while recording |
| AudioPcm.WhisperLivePcm.AddTranscription | static/js/audio-pcm.js:313-331 | the text is appended and the count grows by the number of spaces plus one |
| AudioPcm.WhisperLivePcm.SaveTranscript | static/js/audio-pcm.js:398-405 | one 'save_transcript' event with the entries joined by blank lines |
| AudioPcm.WhisperLivePcm.ClearTranscript | static/js/audio-pcm.js:407-413 | no entries and a zero count |
| AudioWav.SilentIffLevelBelow | static/js/audio-wav.js:272 | for a non-negative level whose square is the mean square, the gate drops the buffer exactly when the level is below 0.01 |
| AudioWav.MeanSquareGate | static/js/audio-wav.js:304-311 | comparing the computed mean square with 0.0001 is the silence gate |
| AudioWav.ZerosAreSilent | static/js/audio-wav.js:272-276 | an all-zero buffer is dropped |
| AudioWav.LoudSampleNotSilent | static/js/audio-wav.js:272-276 | a buffer of up to 10000 samples holding a full-scale sample is never dropped |
| AudioWav.BlobMessageContents | static/js/audio-wav.js:279-296 | a sent blob is the base64 of the symmetric WAV encoding, typed 'audio/wav', with duration 3 whatever the length, and the server decodes it to that file |
| AudioWav.FlushSendsIffAudible | static/js/audio-wav.js:262-302 | for the buffer's RMS level, a flush emits at most one event, one exactly when the buffer is non-empty and the level is at least 0.01, and that event is an 'audio/wav' blob decoding to the buffer's WAV file |
| AudioWav.WhisperLiveWav.constructor | static/js/audio-wav.js:3-25 | not recording, no timer, empty buffer, nothing sent |
| AudioWav.WhisperLiveWav.OnAudioProcess | static/js/audio-wav.js:175-180 | samples are appended only while recording |
| AudioWav.WhisperLiveWav.StartRecording | static/js/audio-wav.js:137-203 | with access and a built audio graph the buffer starts empty, recording is on and the timer runs; when the graph throws only the stream is held; a refusal changes nothing |
| AudioWav.WhisperLiveWav.ProcessAndSendChunk | static/js/audio-wav.js:262-302 | the emitted events are the flush of the buffer and the buffer ends empty |
| AudioWav.WhisperLiveWav.Tick | static/js/audio-wav.js:239-247 | the timer flushes only while recording with a non-empty buffer |
| AudioWav.WhisperLiveWav.StopChunkStreaming | static/js/audio-wav.js:249-260 | the timer goes and the remaining audio passes the same gate |
| AudioWav.WhisperLiveWav.StopRecording | static/js/audio-wav.js:205-237 | recording goes off before the final flush, a silent remainder is dropped, the buffer ends empty |
| AudioWav.WhisperLiveWav.ToggleRecording | static/js/audio-wav.js:129-135 | while recording: off, no timer, no stream, the remainder through the silence gate and an empty buffer; otherwise recording, timer, stream and buffer as the start leaves them for each outcome, and nothing sent |
| AudioWav.WhisperLiveWav.AddTranscription | static/js/audio-wav.js:366-386 | the text is appended and the count grows by its space-separated words |
| AudioWav.WhisperLiveWav.SaveTranscript | static/js/audio-wav.js:388-395 | one 'save_transcript' event with the entries joined by blank lines |
| AudioWav.WhisperLiveWav.ClearTranscript | static/js/audio-wav.js:397-402 | no entries and a zero count |
| AudioMinimal.BlobMessageContents | static/js/audio-minimal.js:193-226 | the blob carries the recorder's normalised type and duration 3, and decodes to all fragments' bytes in arrival order |
| AudioMinimal.DrainSendsIffFragments | static/js/audio-minimal.js:196-226 | a drain emits at most one event, one exactly when a fragment is waiting; for a comma-free recorder type its payload decodes to all fragments' bytes in order |
| AudioMinimal.CollectedBytes | static/js/audio-minimal.js:133-138 | collecting keeps only non-empty fragments and every byte, in order |
| AudioMinimal.WhisperLiveMinimal.constructor | static/js/audio-minimal.js:3-21 | not recording, no recorder, no fragments, nothing sent |
| AudioMinimal.WhisperLiveMinimal.OnDataAvailable | static/js/audio-minimal.js:133-138 | a fragment is kept only when non-empty |
| AudioMinimal.WhisperLiveMinimal.StartRecording | static/js/audio-minimal.js:115-169 | with access a recorder of the chosen type starts, the fragments are emptied, recording and the timer are on; a refusal changes nothing |
| AudioMinimal.WhisperLiveMinimal.ProcessRecording | static/js/audio-minimal.js:193-226 | the emitted events are the drain of the fragments and none are left |
| AudioMinimal.WhisperLiveMinimal.Tick | static/js/audio-minimal.js:228-236 | the timer drains only while recording with a fragment waiting |
| AudioMinimal.WhisperLiveMinimal.StopChunkStreaming | static/js/audio-minimal.js:238-249 | the timer goes and the waiting fragments are sent |
| AudioMinimal.WhisperLiveMinimal.StopRecording | static/js/audio-minimal.js:171-191 | recording and the timer are off, waiting fragments are sent, the recorder is stopped only when not inactive, the stream is released |
| AudioMinimal.WhisperLiveMinimal.OnRecorderStop | static/js/audio-minimal.js:140-143 | the recorder's stop event drains the same way |
| AudioMinimal.WhisperLiveMinimal.ToggleRecording | static/js/audio-minimal.js:107-113 | while recording: off, no timer, no stream, the fragments drained, the recorder stopped only when active, the type kept; otherwise with access a recorder of the chosen type, emptied fragments, timer and stream on, and after a refusal nothing changed |
| AudioMinimal.WhisperLiveMinimal.AddTranscription | static/js/audio-minimal.js:261-281 | the text is appended and the count grows by its space-separated words |
| AudioMinimal.WhisperLiveMinimal.SaveTranscript | static/js/audio-minimal.js:283-290 | one 'save_transcript' event with the entries joined by blank lines |
| AudioMinimal.WhisperLiveMinimal.ClearTranscript | static/js/audio-minimal.js:292-297 | no entries and a zero count |
| AudioSimple.FirstSupported | static/js/audio-simple.js:190-204 | the result is a supported entry of the list or the fallback |
| AudioSimple.FirstSupportedIsFirst | static/js/audio-simple.js:190-204 | the result is the entry at the first supported position, or the fallback when none is supported |
| AudioSimple.FirstSupportedFound | static/js/audio-simple.js:198-202 | when some listed type is supported, the type chosen is supported |
| AudioSimple.SupportedMimeTypeChoices | static/js/audio-simple.js:189-205 | a browser with Opus in WebM gets that; one that supports none of the five gets 'audio/webm' |
| AudioSimple.SupportedMimeTypeUsable | static/js/audio-simple.js:190-204 | the chosen type is supported exactly when some listed type is; otherwise it is the rejected fallback |
| AudioSimple.BlobMessageContents | static/js/audio-simple.js:226-259 | the blob carries the recorder's type (or 'audio/webm'), duration 10, and decodes to the take's bytes in order |
| AudioSimple.Remaining | static/js/audio-simple.js:346-348 | what is left of the ten seconds, never negative and never above ten once time runs forward |
| AudioSimple.CountdownTextShape | static/js/audio-simple.js:349-351 | with at most ten seconds left the display is "00:ss" with ss the seconds left |
| AudioSimple.WhisperLiveSimple.constructor | static/js/audio-simple.js:3-16 | not recording, no fragments, nothing sent |
| AudioSimple.WhisperLiveSimple.OnDataAvailable | static/js/audio-simple.js:140-145 | a fragment is kept only when non-empty |
| AudioSimple.WhisperLiveSimple.StartRecording | static/js/audio-simple.js:110-187 | with access and a supported type a recorder of the first supported type starts with no fragments and the start time noted; after a refusal, or when no listed type is supported so the recorder rejects the fallback, recording is off and nothing else changes |
| AudioSimple.WhisperLiveSimple.StopRecording | static/js/audio-simple.js:207-224 | recording goes off and the recorder is stopped only when not inactive |
| AudioSimple.WhisperLiveSimple.AutoStop | static/js/audio-simple.js:174-179 | the ten-second timeout stops only a take still running |
| AudioSimple.WhisperLiveSimple.ProcessRecording | static/js/audio-simple.js:226-259 | nothing without fragments, else one blob of them all, and none are left |
| AudioSimple.WhisperLiveSimple.UpdateDuration | static/js/audio-simple.js:342-358 | while recording the countdown text is shown and the timer re-arms only while time is left; otherwise nothing |
| AudioSimple.WhisperLiveSimple.ToggleRecording | static/js/audio-simple.js:102-108 | while recording: off, the recorder stopped only when active, fragments, type and start time kept; otherwise the start's recorder, type, fragments and start time for a successful start, and everything kept after a failed one |
| AudioSimple.WhisperLiveSimple.AddTranscription | static/js/audio-simple.js:271-291 | the text is appended and the count grows by its space-separated words |
| AudioSimple.WhisperLiveSimple.SaveTranscript | static/js/audio-simple.js:360-367 | one 'save_transcript' event with the entries joined by blank lines |
| AudioSimple.WhisperLiveSimple.ClearTranscript | static/js/audio-simple.js:369-375 | no entries and a zero count |
| App.BlobExtension | app.py:248-255 | one of the four extensions, each in both directions: "wav" exactly when the type contains "wav"; "ogg" exactly when it contains "ogg" but not "wav"; "mp4" exactly when it contains "mp4" but neither earlier one; "webm" exactly when it contains none of them |
| App.WavTypeExtension | app.py:249-251 | 'audio/wav' is stored as ".wav" |
| App.WebmTypeExtension | app.py:248-255 | the WebM recorder types, with or without a codec, are stored as ".webm" |
| App.WebmExtension | app.py:248-255 | a type with none of 'v', 'g', '4' is stored as ".webm" |
| App.OggTypeExtension | app.py:252-253 | an Ogg type is stored as ".ogg" |
| App.OggExtension | app.py:252-253 | a type without 'v' that holds "ogg" is stored as ".ogg" |
| App.Mp4TypeExtension | app.py:254-255 | an MP4 type is stored as ".mp4" |
| App.Mp4Extension | app.py:254-255 | a type with neither 'v' nor 'g' that holds "mp4" is stored as ".mp4" |
| App.MissingCharacter | app.py:250 | a string lacking one of the characters of sub does not contain sub |
| App.Filtered | app.py:355-369 | "" exactly when the stripped text's lower-case form is a listed hallucination; any other text is kept, stripped |
| App.HallucinationIgnoresCapitalisedEntries | app.py:359-364 | the capitalised list entries never match a lower-cased text |
| App.LowerIsNotCapitalised | app.py:366 | no character of a lower-cased text is a capital letter, so "[Music]" and "[MUSIC]" are never the lower-case form of a text |
| App.HallucinationIgnoresCase | app.py:366-369 | texts that differ only in ASCII case are filtered alike |
| App.BlobReply | app.py:371-378 | non-empty filtered text becomes a 'transcription' event with that text; empty text becomes the 'No speech detected in audio' error |
| App.Server.constructor | app.py:27-33 | no model, size "large-v3", no clients, empty queue, no files |
| App.Server.LoadModel | app.py:431-451 | loading ends; a success makes the model available and broadcasts 'model_loaded' with the size, a failure keeps the previous model and broadcasts the load error |
| App.Server.ChangeModel | app.py:111-131 | a size outside the seven is refused with 400 and changes nothing; a valid one (default 'small') becomes the size and is echoed |
| App.Server.Connect | app.py:173-188 | the client gets a fresh entry with no transcriptions and is told the model state |
| App.Server.Disconnect | app.py:190-196 | the entry is removed if present; an unknown client changes nothing |
| App.Server.HandleAudioData | app.py:198-233 | the decoded audio is written under a temp name with the format (default 'wav'), queued and acknowledged; undecodable audio is reported as an error |
| App.Server.ProcessQueued | app.py:43-89 | the oldest chunk leaves the queue; without a model it is dropped; non-empty stripped text goes to its client and the file is removed; an engine error reaches the client only if still connected |
| App.Server.HandleAudioBlob | app.py:235-398 | the decoded blob is stored under the extension of its type; without a model 'Model not loaded'; otherwise the filtered reply or 'Transcription failed', and the file is removed |
| App.WavClientBlobArrivesIntact | app.py:242-255 | a blob from the WAV client decodes on the server to exactly the client's WAV file and is stored as ".wav" |
| AudioHandler.FirstChannel | src/audio_handler.py:91 | one value per frame, channel 0 of each |
| AudioHandler.MonoIsFirstChannel | src/audio_handler.py:91 | both branches keep channel 0: multi-channel input by indexing, single-channel input by flattening |
| AudioHandler.FlattenSingles | src/audio_handler.py:91 | flattening one-value frames lists their values |
| AudioHandler.SpeechIffEnergyAbove | src/audio_handler.py:97-98 | for a non-negative energy whose square is the mean square, speech is `energy > 0.01` |
| AudioHandler.SpeechDecision | src/audio_handler.py:97-98 | the computed decision is the speech predicate |
| AudioHandler.DurationStep | src/audio_handler.py:158-159 | adding a block's duration keeps the running duration equal to samples held over 16000 |
| AudioHandler.DurationGate | src/audio_handler.py:161 | comparing the duration with one second is comparing the samples held with 16000 |
| AudioHandler.FlowStep | src/audio_handler.py:157-159 | taking a block keeps delivered + held equal to taken, in order |
| AudioHandler.FlowDeliver | src/audio_handler.py:162-170 | handing out the accumulator as one chunk and emptying it loses nothing |
| AudioHandler.AudioCapture.AudioCallback | src/audio_handler.py:86-103 | the mono block is queued; a decision different from the current one is adopted and reported if a listener exists; a repeated one reports nothing |
| AudioHandler.AudioCapture.Start | src/audio_handler.py:105-127 | a no-op while recording; otherwise recording begins exactly when the stream starts; a stream that is constructed but fails to start stays assigned, so it is open until `stop` closes it, and one that cannot be constructed leaves the stream as it was |
| AudioHandler.AudioCapture.Stop | src/audio_handler.py:129-145 | recording off, no stream, empty queue |
| AudioHandler.AudioCapture.SelectDevice | src/audio_handler.py:81-84 | capture is stopped first if running, then the device is set |
| AudioHandler.AudioCapture.ProcessStep | src/audio_handler.py:147-156 | only while recording the oldest block leaves the queue and is accumulated |
| AudioHandler.AudioCapture.Accumulate | src/audio_handler.py:157-170 | the block joins the accumulator; at one second or more the blocks go out concatenated and the accumulator restarts |
| AudioHandler.AudioCapture.Hold | src/audio_handler.py:157-161 | below a second the blocks stay held with their duration |
| AudioHandler.AudioCapture.Release | src/audio_handler.py:162-170 | at a second or more the concatenation goes to the listener and the accumulator is empty with duration 0 |
| AudioHandler.AudioCapture.GetLevel | src/audio_handler.py:177-184 | 0 on an empty queue; otherwise the oldest block moves to the back, keeping the queue's contents, and its mean square is returned |
| Display.Window | src/display.py:23 | the deque holds the newest min(n, 50) entries |
| Display.WindowAppend | src/display.py:198-202 | appending to the window is appending to the history; a full window drops the oldest entry, one below 50 keeps all |
| Display.EntryTime | src/display.py:201 | a missing or zero timestamp becomes the current time; any other is kept |
| Display.Rendered | src/display.py:246-253 | one exported line per entry, in order |
| Display.RenderLineShape | src/display.py:247-253 | with timestamps the line is "[" + 19-character time + "] " + text, otherwise the text |
| Display.RenderLineNoNewline | src/display.py:247-253 | a line holds a break only if its entry's text does |
| Display.ExportSplitsIntoEntries | src/display.py:243-255 | splitting the export on newlines gives back the rendered lines when no text holds a line break |
| Display.MeterCells20 | src/display.py:97-110 | for a level in [0, 1] there are int(level·20) full cells and the rest of 20 empty |
| Display.MeterColorBands | src/display.py:102-107 | green below 0.25, yellow below 0.75, red from 0.75 |
| Display.TerminalDisplay.constructor | src/display.py:21-31 | no lines, timestamps on, level 0, device "Default", never saved, 0 words |
| Display.TerminalDisplay.AddTranscription | src/display.py:193-207 | blank text changes nothing; otherwise the entry joins the history, the window keeps the newest 50 and the total grows by the text's words |
| Display.TerminalDisplay.SetRecordingStatus | src/display.py:209-212 | the status is set, nothing else changes |
| Display.TerminalDisplay.SetAudioLevel | src/display.py:214-216 | the level is clamped to [0, 1] |
| Display.TerminalDisplay.SetDeviceName | src/display.py:218-221 | the device name is set |
| Display.TerminalDisplay.MarkSaved | src/display.py:227-230 | the last save time is now |
| Display.TerminalDisplay.ClearTranscript | src/display.py:232-236 | no lines and 0 words |
| Display.TerminalDisplay.ToggleTimestamps | src/display.py:238-241 | the switch is negated, so two toggles restore it |
| Display.TerminalDisplay.GetFullTranscript | src/display.py:243-255 | the rendered lines joined by "\n" in insertion order |
| Utils.DurationFields | src/utils.py:137-140 | minutes and seconds lie in [0, 60); h·3600 + m·60 + s is the input rounded down |
| Utils.DurationOfWholeSeconds | src/utils.py:138-139 | for whole seconds the fields are the Euclidean quotients and h·3600 + m·60 + s is the input |
| Utils.FormatDurationShape | src/utils.py:140 | below 100 hours the text is "HH:MM:SS" with each field reading back as its value |
| Utils.Rule | src/utils.py:43 | fifty '=' characters |
| Utils.HeaderLinesHaveNoNewline | src/utils.py:42-48 | no header line holds a line break |
| Utils.HeaderSplitsIntoLines | src/utils.py:41-49 | the header splits back into its five lines, the first and last being the rule |
| Utils.FileFormat | src/utils.py:23 | a missing or empty format falls back to "txt" |
| Utils.TranscriptManager.constructor | src/utils.py:15-20 | no current file, the directory as found |
| Utils.TranscriptManager.SaveTranscript | src/utils.py:22-39 | a writable directory gets the header, a blank line and the content under transcript_YYYYmmdd_HHMMSS.fmt, which becomes the current file; a failed write changes nothing |
| Utils.TranscriptManager.AutoSave | src/utils.py:51-62 | the first call saves a new file, later ones append "\n" + content to the current file; the result is whether the write succeeded |
| Utils.AutoSavedFile | src/utils.py:53-58 | a file started by auto-save and extended later holds the header and every piece, one per line |
| Utils.Unavailable | src/utils.py:120-124 | exactly the modules that fail to import |
| Utils.CheckDependencies | src/utils.py:107-134 | the missing list is the failed modules in order, then the CUDA entry when torch imports but reports no GPU; ok exactly when it is empty |
| Utils.MissingEmptyIff | src/utils.py:134 | everything is ready exactly when all six modules import and a GPU is present |
| SpeechToText.DefaultDevice | speech_to_text.py:141 | a listed device, the default one if any device is default |
| SpeechToText.DefaultDeviceIsFirst | speech_to_text.py:141 | when position k holds the first default device, that device is chosen |
| SpeechToText.DefaultDeviceFallback | speech_to_text.py:141 | with no default device, `devices[0]` is chosen |
| SpeechToText.Position | speech_to_text.py:333 | the position is 0 or inside the list |
| SpeechToText.PositionIsFirst | speech_to_text.py:333 | the position is the first device with the index, or 0 when none has it |
| SpeechToText.NextPosition | speech_to_text.py:334 | the next position is inside the list and differs from the current one |
| SpeechToText.NextPositionCycles | speech_to_text.py:332-335 | from device k the cycle moves to k + 1, or back to 0 from the last |
| SpeechToText.PositionOfFirst | speech_to_text.py:333 | a device whose index no earlier device shares is found at its own position |
| SpeechToText.SpeechToTextApp.constructor | speech_to_text.py:66-83 | not running, not recording, no device, empty queue and text, auto-save clock at now |
| SpeechToText.SpeechToTextApp.SetupAudioDevice | speech_to_text.py:127-150 | fails exactly without devices; otherwise the default device is selected in capture and display |
| SpeechToText.SpeechToTextApp.StartRecording | speech_to_text.py:269-279 | a no-op while recording; otherwise recording is on exactly when the stream starts, and the capture stream is left open when it was at least constructed |
| SpeechToText.SpeechToTextApp.StopRecording | speech_to_text.py:281-290 | a no-op when not recording; otherwise capture stops and recording is off, so two stops act as one |
| SpeechToText.SpeechToTextApp.ToggleRecording | speech_to_text.py:263-267 | while recording: off, the capture stream closed and its queue drained; otherwise recording on exactly when the stream starts, the stream open when it was at least constructed; device, display lines, words and switches, pending text, running flag and auto-save clock unchanged |
| SpeechToText.SpeechToTextApp.ProcessAudioChunk | speech_to_text.py:198-207 | audio is discarded while not recording; otherwise the meter shows 10·RMS clamped and the chunk is queued |
| SpeechToText.SpeechToTextApp.TranscribeNext | speech_to_text.py:213-240 | the oldest chunk is transcribed; a result with text is displayed and kept for saving, in order |
| SpeechToText.SpeechToTextApp.AutoSave | speech_to_text.py:307-319 | nothing without text; otherwise the space-joined text goes to the manager, the list is emptied even on failure, and save time and clock move only on success; the current file becomes a new timestamped path only when text was saved with no current file, and stays otherwise |
| SpeechToText.SpeechToTextApp.MonitorTick | speech_to_text.py:253-256 | when more than 120 s have passed and text waits, the auto-save's effect: text emptied; a new file, which becomes the current file, or an appended line on success; save time and clock moved only on success; otherwise nothing changes, the current file included |
| SpeechToText.SpeechToTextApp.SaveTranscript | speech_to_text.py:292-305 | an empty export saves nothing; otherwise a new file holds the export, becomes the current file and the display is marked saved on success; when nothing is saved the current file and the last save time are unchanged |
| SpeechToText.SpeechToTextApp.ClearTranscript | speech_to_text.py:321-323 | the display and the pending text are empty |
| SpeechToText.SpeechToTextApp.ToggleTimestamps | speech_to_text.py:325-326 | the display's switch flips |
| SpeechToText.SpeechToTextApp.ChangeDevice | speech_to_text.py:328-346 | with more than one device the next one, wrapping, is selected in capture and display, and recording is on afterwards exactly when it was before and the stream restarts; with at most one device nothing changes; the running flag, auto-save clock, pending text and the display's lines, words and timestamp switch are kept |
| SpeechToText.SpeechToTextApp.Quit | speech_to_text.py:348-349 | the application stops running |
| Install.VersionAccepted | install_windows.py:34 | accepted exactly when major > 3, or major is 3 and minor ≥ 8 |
| Install.VenvPaths | install_windows.py:50-56 | pip and python sit in .venv/Scripts with .exe on Windows, in .venv/bin without it elsewhere |
| Install.TorchCommand | install_windows.py:76-83 | pip install torch torchvision torchaudio, plus the CUDA 11.8 index exactly when a GPU answered |
| Install.MentionsTorchIff | install_windows.py:102 | the three-package test is the single test for "torch" in the lower-cased line |
| Install.FilterRequirements | install_windows.py:98-107 | the loop keeps the filtered lines and the file text is them joined by "\n" |
| Install.FilterAppend | install_windows.py:99-103 | kept lines keep their relative order |
| Install.FilterSound | install_windows.py:100-103 | every kept line is stripped, non-empty, no comment or option, and never mentions torch in any case |
| Install.FilterComplete | install_windows.py:99-103 | every line that passes after stripping is kept |
| Install.FilteredFileLines | install_windows.py:105-107 | reading the written file back line by line gives exactly the kept lines |

## Left out

- Browser plumbing is not modelled except as the event log and parameters. This covers:
  - DOM lookups, innerHTML, toasts and canvas visualisation;
  - `getUserMedia`, AudioContext and ScriptProcessor, and the MediaRecorder internals;
  - Socket.IO transport and `fetch`.
- `FileReader` and the recorder's `onstop` are modelled as completing at once, so their asynchrony is not captured.
- Threads, queues' blocking, timers and locks are not modelled. Each worker loop is modelled as one pass, for example `transcription_worker` as `TranscribeNext` and `monitor_worker` as `MonitorTick`. The PCM and WAV clients' intervals are tick methods.
- Square roots are not computed. RMS comparisons are stated through the mean square, and the equivalence is proved (`SquareOrder`, `SilentIffLevelBelow`, `SpeechIffEnergyAbove`).
- AudioHandler.AudioCapture.GetLevel: returns the mean square rather than its square root. It returns 0 for an empty block, where numpy would give NaN.
- SpeechToText.SpeechToTextApp.ProcessAudioChunk: the chunk's RMS is a parameter, not computed from the samples.
- AudioHandler.AudioCapture.Release: the callback is assumed to return normally. In the source an exception from `on_audio_chunk` is caught by the loop's handler before the accumulator is reset, so the same audio is sent again with the next block; the model always empties the accumulator.
- AudioMinimal.WhisperLiveMinimal.StartRecording: a `new MediaRecorder(this.stream)` that throws after the stream is held is treated as a refusal, so the held stream that the source leaves behind is not modelled.
- Upload.FileUploadHandler.StartTranscription: a failed conversion is modelled as a failed decode, which leaves the percent at 0. A failure later in `convertAudioToWAV`, after the 50% or 75% mark, leaves that percent shown; the model does not distinguish it.
- Upload.FileUploadHandler.DisplayTranscription: a response without `processing_time` is not modelled. There `toFixed` throws after the word count is shown but before the text is stored for download.
- Utils.TranscriptManager.AutoSave: the current file is assumed to still exist. A current file deleted outside the program, which `open(..., "a")` would create again holding only the appended part, is not modelled.
- SpeechToText.SpeechToTextApp.ChangeDevice: requires a selected device. The source sets that device during start-up before the key handler exists.
- Samples are `real`, and Float32 and IEEE rounding are not modelled. This also leaves out:
  - `formatFileSize`;
  - the resampling in `convertAudioToWAV`;
  - app.py's int16-to-float normalisation and librosa resampling.
- Base64 decoding is strict section 4 of RFC 4648. Python's `b64decode` also skips characters outside the alphabet; that leniency is not modelled.
- Case mapping and whitespace cover ASCII and the listed whitespace code points. Unicode case folding is not modelled.
- Exception messages are not modelled: an error event carries only its fixed prefix.
- `load_model` runs on a background thread, which is not modelled. `App.Server.LoadModel` gives only its final state: the intermediate `model_loading = True` and the device choice are not observable, and the model's identity is a `modelLoaded` flag.
- Base64.DataUrlPayloadIsBase64, AudioMinimal.BlobMessageContents and AudioSimple.BlobMessageContents: all three require a MIME type without a comma. A recorder reporting a type with a comma in its parameters would make `split(',')[1]` return part of the type instead of the base64. That case is not modelled.
- Temporary paths are written as "temp/" + name. `os.path.join` gives `temp\` on Windows; the model keys its file map the same way everywhere, so this changes no property.
- The speech engine is not modelled. Whisper, torch and the GPU become an optional engine answer, and the load's outcome is a parameter of `LoadModel`.
- app.py's `/`, `/status` and `/test` routes and the `save_transcript` socket handler are not modelled. They are I/O around the engine and the filesystem.
- `AudioCapture.list_devices` and `check_microphone_permission` query sounddevice and are not modelled. The device list is a parameter of `SetupAudioDevice` and `ChangeDevice`.
- The following parts of speech_to_text.py are start-up and shutdown plumbing around the modelled steps, and are not modelled:
  - `initialize`, `load_model`, `setup_callbacks` and `run`;
  - `cleanup`, which stops recording and auto-saves, both of which are modelled;
  - `KeyboardHandler`.
- Rich layout and rendering are not modelled. This covers `start`, `stop`, `update` and `_create_header`, `_create_transcript_panel`, `_create_stats_panel` and `_create_footer`. The display's state and its meter string are modelled. `update_gpu_stats` only stores a dictionary, so it is not modelled either.
- `SystemMonitor` (pynvml/psutil) and `cleanup_old_transcripts` (file deletion by modification time) from src/utils.py are not modelled.
- The following parts of install_windows.py are not modelled:
  - `run_command` and the subprocess calls;
  - creating the virtual environment;
  - removing the temporary file.
  The GPU probe's outcome is a parameter.
- In upload.js the following are not modelled:
  - `downloadTranscript`, which uses a locale date;
  - `resetInterface`, which only touches DOM state;
  - `changeModel`, a fetch;
  - `formatFileSize`, which uses floating-point logarithms.
- In audio-wav.js, `enumerateDevices` and `changeModel` are device and fetch plumbing, and are not modelled.
- The WAV and minimal clients keep the word count in the DOM and read it back with `parseInt`. It is modelled as a field holding the number shown.
- The local time zone is a parameter. Python's `datetime.fromtimestamp` and `datetime.now` become the `localTime`, `now` and `utc` parameters.
- Calendar.FormatShape: fields are checked only for range; day-of-month is not checked against the month.
- Utils.FormatDurationShape: proved below 100 hours, where every field fits two digits.
- AudioPcm.FormatElapsedShape: proved under an hour of forward time.
- AudioSimple.CountdownTextShape: proved for at most ten seconds left, which is all the timer shows.
- AudioWav.LoudSampleNotSilent: proved for buffers of up to 10000 samples. A longer buffer of near-silence can outweigh one loud sample.
- Display.ExportSplitsIntoEntries: requires that no entry's text holds a line break. Otherwise the export cannot be split back into entries.
