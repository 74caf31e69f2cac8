/**
 * The terminal application that ties capture, display and transcript files together: the
 * recording guards, the audio-chunk gate, one pass of the transcription and monitor workers,
 * auto-save and device cycling. The speech engine's result, the device list, clocks and
 * how far opening a stream gets and whether a file write succeeds are parameters.
 */
module SpeechToText {
  import opened Common
  import Text
  import Calendar
  import AudioHandler
  import Display
  import Utils

  /** `UI_CONFIG["autosave_interval"]`, in seconds. */
  const AutosaveInterval: real := 120.0

  /** An input device as `list_devices` reports it. */
  datatype Device = Device(index: int, name: string, isDefault: bool)

  /** What the speech engine returns for one chunk. */
  datatype Transcription = Transcription(text: string, confidence: real, timestamp: real)

  /** `next((d for d in devices if d.is_default), devices[0])`: the first default device, else the first. */
  function DefaultDevice(devices: seq<Device>): (d: Device)
    requires devices != []
    ensures d in devices
    ensures d.isDefault || (forall i :: 0 <= i < |devices| ==> !devices[i].isDefault)
  {
    if devices[0].isDefault || |devices| == 1 then devices[0]
    else
      var rest := DefaultDevice(devices[1..]);
      if rest.isDefault then rest else devices[0]
  }

  /** When position k holds the first default device, that device is the choice. */
  lemma {:induction false} DefaultDeviceIsFirst(devices: seq<Device>, k: nat)
    requires k < |devices| && devices[k].isDefault
    requires forall j :: 0 <= j < k ==> !devices[j].isDefault
    ensures DefaultDevice(devices) == devices[k]
  {
    if k > 0 {
      var tail := devices[1..];
      assert forall j :: 0 <= j < k - 1 ==> tail[j] == devices[j + 1];
      DefaultDeviceIsFirst(tail, k - 1);
    }
  }

  /** Without any default device the choice falls back to `devices[0]`. */
  lemma {:induction false} DefaultDeviceFallback(devices: seq<Device>)
    requires devices != []
    requires forall i :: 0 <= i < |devices| ==> !devices[i].isDefault
    ensures DefaultDevice(devices) == devices[0]
  {
    if |devices| > 1 {
      var tail := devices[1..];
      assert forall i :: 0 <= i < |tail| ==> tail[i] == devices[i + 1];
      DefaultDeviceFallback(tail);
    }
  }

  /** `next((i for i, d in enumerate(devices) if d.index == index), 0)`. */
  function Position(devices: seq<Device>, index: int): (p: nat)
    ensures p == 0 || p < |devices|
  {
    if devices == [] || devices[0].index == index then 0
    else
      var rest := Position(devices[1..], index);
      if rest == 0 && (|devices| == 1 || devices[1].index != index) then 0 else rest + 1
  }

  /** The position is the first one holding the index, or 0 when no device holds it. */
  lemma {:induction false} PositionIsFirst(devices: seq<Device>, index: int)
    ensures var p := Position(devices, index);
      && (exists i :: 0 <= i < |devices| && devices[i].index == index) ==>
           (p < |devices| && devices[p].index == index && forall j :: 0 <= j < p ==> devices[j].index != index)
    ensures (forall i :: 0 <= i < |devices| ==> devices[i].index != index) ==> Position(devices, index) == 0
  {
    if devices != [] && devices[0].index != index {
      var tail := devices[1..];
      PositionIsFirst(tail, index);
      assert forall i :: 1 <= i < |devices| ==> devices[i] == tail[i - 1];
      if exists i :: 0 <= i < |devices| && devices[i].index == index {
        var i :| 0 <= i < |devices| && devices[i].index == index;
        assert tail[i - 1].index == index;
      }
    }
  }

  /** The device `change_device` moves to: the one after the current one, wrapping around. */
  function NextPosition(devices: seq<Device>, index: int): (p: nat)
    requires |devices| > 1
    ensures p < |devices|
    ensures p != Position(devices, index)
  {
    (Position(devices, index) + 1) % |devices|
  }

  /** Cycling from each device in turn visits every position: from position k it moves to k + 1, or back to 0 from the last. */
  lemma NextPositionCycles(devices: seq<Device>, k: nat)
    requires |devices| > 1 && k < |devices|
    requires forall j :: 0 <= j < k ==> devices[j].index != devices[k].index
    ensures NextPosition(devices, devices[k].index) == if k + 1 == |devices| then 0 else k + 1
  {
    PositionOfFirst(devices, k);
    WrapAround(k, |devices|);
  }

  /** A device whose index no earlier device shares is found at its own position. */
  lemma {:induction false} PositionOfFirst(devices: seq<Device>, k: nat)
    requires k < |devices|
    requires forall j :: 0 <= j < k ==> devices[j].index != devices[k].index
    ensures Position(devices, devices[k].index) == k
  {
    if k > 0 {
      var tail := devices[1..];
      assert tail[k - 1] == devices[k];
      assert forall j :: 0 <= j < k - 1 ==> tail[j] == devices[j + 1];
      PositionOfFirst(tail, k - 1);
      if k == 1 {
        assert devices[1].index == devices[k].index;
      }
    }
  }

  lemma WrapAround(k: nat, n: nat)
    requires k < n
    ensures (k + 1) % n == if k + 1 == n then 0 else k + 1
  {
  }

  class SpeechToTextApp {
    const capture: AudioHandler.AudioCapture
    const display: Display.TerminalDisplay
    const manager: Utils.TranscriptManager
    var isRunning: bool
    var isRecording: bool
    var selectedDevice: Option<Device>
    /** `transcription_queue`, oldest first. */
    var transcriptionQueue: seq<seq<real>>
    var accumulatedText: seq<string>
    var lastAutosave: real

    /** The parts are in a consistent state, and the application, the capture and the status line agree about recording. */
    ghost predicate Valid()
      reads this, capture, display, manager
    {
      && capture.Valid() && display.Valid() && manager.Valid()
      && capture.isRecording == isRecording && display.isRecording == isRecording
    }

    /** The application once `initialize` has built its parts, at time `now`. */
    constructor(capture: AudioHandler.AudioCapture, display: Display.TerminalDisplay,
                manager: Utils.TranscriptManager, now: real)
      requires capture.Valid() && !capture.isRecording
      requires display.Valid() && !display.isRecording
      requires manager.Valid()
      ensures Valid()
      ensures this.capture == capture && this.display == display && this.manager == manager
      ensures !isRunning && !isRecording && selectedDevice == None
      ensures transcriptionQueue == [] && accumulatedText == [] && lastAutosave == now
    {
      this.capture := capture;
      this.display := display;
      this.manager := manager;
      isRunning := false;
      isRecording := false;
      selectedDevice := None;
      transcriptionQueue := [];
      accumulatedText := [];
      lastAutosave := now;
    }

    /**
     * `setup_audio_device`, a start-up step taken before recording can begin: with no device it
     * fails; otherwise the default device is selected and shown.
     */
    method SetupAudioDevice(devices: seq<Device>) returns (ok: bool)
      requires Valid() && !isRecording
      modifies this, capture, display
      ensures Valid()
      ensures ok <==> devices != []
      ensures devices == [] ==> selectedDevice == old(selectedDevice)
      ensures devices != [] ==> (var d := DefaultDevice(devices);
        && selectedDevice == Some(d) && capture.deviceIndex == Some(d.index) && display.currentDevice == d.name)
      ensures isRecording == old(isRecording) && accumulatedText == old(accumulatedText)
    {
      if devices == [] {
        return false;
      }
      var d := DefaultDevice(devices);
      capture.SelectDevice(d.index);
      display.SetDeviceName(d.name);
      selectedDevice := Some(d);
      ok := true;
    }

    /**
     * `start_recording`: nothing happens while recording. Otherwise recording is on, and shown,
     * exactly when the capture stream starts; a failure is only reported, and a stream that was
     * constructed but did not start is left open.
     */
    method StartRecording(opening: AudioHandler.Opening)
      requires Valid()
      modifies this, capture, display
      ensures Valid()
      ensures old(isRecording) ==> isRecording
      ensures !old(isRecording) ==> isRecording == (opening == AudioHandler.Started)
      ensures !old(isRecording) ==> capture.streamOpen == (opening != AudioHandler.NotConstructed || old(capture.streamOpen))
      ensures capture.deviceIndex == old(capture.deviceIndex)
      ensures transcriptionQueue == old(transcriptionQueue) && accumulatedText == old(accumulatedText)
      ensures selectedDevice == old(selectedDevice) && isRunning == old(isRunning) && lastAutosave == old(lastAutosave)
      ensures display.lines == old(display.lines) && display.currentDevice == old(display.currentDevice)
      ensures display.showTimestamps == old(display.showTimestamps) && display.totalWords == old(display.totalWords)
    {
      if isRecording {
        return;
      }
      var failed := capture.Start(opening);
      if failed {
        return;
      }
      isRecording := true;
      display.SetRecordingStatus(true);
    }

    /** `stop_recording`: nothing happens unless recording; otherwise capture stops and the status shows it. */
    method StopRecording()
      requires Valid()
      modifies this, capture, display
      ensures Valid()
      ensures !isRecording
      ensures old(isRecording) ==> !capture.streamOpen && capture.queue == []
      ensures !old(isRecording) ==> capture.queue == old(capture.queue) && capture.streamOpen == old(capture.streamOpen)
      ensures capture.deviceIndex == old(capture.deviceIndex)
      ensures transcriptionQueue == old(transcriptionQueue) && accumulatedText == old(accumulatedText)
      ensures selectedDevice == old(selectedDevice) && isRunning == old(isRunning) && lastAutosave == old(lastAutosave)
      ensures display.lines == old(display.lines) && display.currentDevice == old(display.currentDevice)
      ensures display.showTimestamps == old(display.showTimestamps) && display.totalWords == old(display.totalWords)
    {
      if !isRecording {
        return;
      }
      capture.Stop();
      isRecording := false;
      display.SetRecordingStatus(false);
    }

    /** `toggle_recording`: a stop while recording, a start otherwise. */
    method ToggleRecording(opening: AudioHandler.Opening)
      requires Valid()
      modifies this, capture, display
      ensures Valid()
      ensures old(isRecording) ==> !isRecording && !capture.streamOpen && capture.queue == []
      ensures !old(isRecording) ==> isRecording == (opening == AudioHandler.Started)
      ensures !old(isRecording) ==> capture.streamOpen == (opening != AudioHandler.NotConstructed || old(capture.streamOpen))
      ensures capture.deviceIndex == old(capture.deviceIndex)
      ensures transcriptionQueue == old(transcriptionQueue) && accumulatedText == old(accumulatedText)
      ensures selectedDevice == old(selectedDevice) && isRunning == old(isRunning) && lastAutosave == old(lastAutosave)
      ensures display.lines == old(display.lines) && display.currentDevice == old(display.currentDevice)
      ensures display.showTimestamps == old(display.showTimestamps) && display.totalWords == old(display.totalWords)
    {
      if isRecording {
        StopRecording();
      } else {
        StartRecording(opening);
      }
    }

    /**
     * `process_audio_chunk`, with `rms` the chunk's root mean square: audio that arrives while
     * not recording is discarded; otherwise the meter shows ten times the RMS, clamped to
     * [0, 1], and the chunk waits for transcription.
     */
    method ProcessAudioChunk(audio: seq<real>, rms: real)
      requires Valid()
      modifies this, display
      ensures Valid()
      ensures !old(isRecording) ==> transcriptionQueue == old(transcriptionQueue) && display.audioLevel == old(display.audioLevel)
      ensures old(isRecording) ==> (transcriptionQueue == old(transcriptionQueue) + [audio]
        && display.audioLevel == (if rms * 10.0 < 0.0 then 0.0 else if rms * 10.0 > 1.0 then 1.0 else rms * 10.0))
      ensures isRecording == old(isRecording) && accumulatedText == old(accumulatedText)
      ensures display.lines == old(display.lines) && display.totalWords == old(display.totalWords)
    {
      if !isRecording {
        return;
      }
      display.SetAudioLevel(rms * 10.0);
      transcriptionQueue := transcriptionQueue + [audio];
    }

    /**
     * One pass of `transcription_worker` (an empty queue is a timeout): the oldest chunk is
     * transcribed; a result with text is shown and kept for saving, in arrival order.
     */
    method TranscribeNext(result: Option<Transcription>, now: real)
      requires Valid()
      modifies this, display
      ensures Valid()
      ensures old(transcriptionQueue) == [] ==> transcriptionQueue == [] && accumulatedText == old(accumulatedText)
      ensures old(transcriptionQueue) != [] ==> transcriptionQueue == old(transcriptionQueue)[1..]
      ensures old(transcriptionQueue) != [] && result.Some? && result.value.text != "" ==>
        (accumulatedText == old(accumulatedText) + [result.value.text]
         && display.history == old(display.history)
              + (if Text.AllBlank(Text.PyWhitespace, result.value.text) then []
                 else [Display.Entry(result.value.text, result.value.confidence,
                                     Display.EntryTime(Some(result.value.timestamp), now))]))
      ensures !(old(transcriptionQueue) != [] && result.Some? && result.value.text != "") ==>
        accumulatedText == old(accumulatedText) && display.history == old(display.history)
      ensures isRecording == old(isRecording)
    {
      if transcriptionQueue == [] {
        return;
      }
      transcriptionQueue := transcriptionQueue[1..];
      if result.Some? && result.value.text != "" {
        var r := result.value;
        display.AddTranscription(r.text, r.confidence, Some(r.timestamp), now);
        accumulatedText := accumulatedText + [r.text];
      }
    }

    /**
     * `auto_save`: nothing to do without accumulated text. Otherwise the texts, joined by
     * single spaces, go to the transcript manager and the list is emptied whether or not the
     * write succeeds; only a successful write marks the display saved and restarts the
     * auto-save clock.
     */
    method AutoSave(now: Calendar.DateTime, utc: Calendar.DateTime, clock: real, writable: bool)
      requires Valid()
      modifies this, display, manager
      ensures Valid()
      ensures old(accumulatedText) == [] ==> (manager.files == old(manager.files)
        && lastAutosave == old(lastAutosave) && display.lastSaveTime == old(display.lastSaveTime))
      ensures manager.currentFile == (if old(accumulatedText) != [] && writable && old(manager.currentFile) == None
        then Some(Utils.TranscriptPath(now, Utils.OutputFormat)) else old(manager.currentFile))
      ensures old(accumulatedText) != [] ==> (
        var text := Text.Join(old(accumulatedText), " ");
        && (writable && old(manager.currentFile) == None ==> (var p := Utils.TranscriptPath(now, Utils.OutputFormat);
              manager.files == old(manager.files)[p := Utils.SavedContents(now, utc, text)]))
        && (writable && old(manager.currentFile).Some? ==> (var p := old(manager.currentFile).value;
              manager.files == old(manager.files)[p := old(manager.files)[p] + "\n" + text]))
        && (!writable ==> manager.files == old(manager.files))
        && lastAutosave == (if writable then clock else old(lastAutosave))
        && display.lastSaveTime == (if writable then Some(clock) else old(display.lastSaveTime)))
      ensures accumulatedText == []
      ensures isRecording == old(isRecording) && transcriptionQueue == old(transcriptionQueue)
      ensures display.lines == old(display.lines) && display.totalWords == old(display.totalWords)
    {
      if accumulatedText == [] {
        return;
      }
      var text := Text.Join(accumulatedText, " ");
      accumulatedText := [];
      var success := manager.AutoSave(text, now, utc, writable);
      if success {
        display.MarkSaved(clock);
        lastAutosave := clock;
      }
    }

    /** The auto-save test of one pass of `monitor_worker`: more than the interval since the last save, and text waiting. */
    method MonitorTick(now: Calendar.DateTime, utc: Calendar.DateTime, clock: real, writable: bool)
      requires Valid()
      modifies this, display, manager
      ensures Valid()
      ensures clock - old(lastAutosave) > AutosaveInterval && old(accumulatedText) != [] ==> (
        var text := Text.Join(old(accumulatedText), " ");
        && accumulatedText == []
        && (writable && old(manager.currentFile) == None ==> (var p := Utils.TranscriptPath(now, Utils.OutputFormat);
              manager.files == old(manager.files)[p := Utils.SavedContents(now, utc, text)]))
        && (writable && old(manager.currentFile).Some? ==> (var p := old(manager.currentFile).value;
              manager.files == old(manager.files)[p := old(manager.files)[p] + "\n" + text]))
        && (!writable ==> manager.files == old(manager.files))
        && lastAutosave == (if writable then clock else old(lastAutosave))
        && display.lastSaveTime == (if writable then Some(clock) else old(display.lastSaveTime)))
      ensures !(clock - old(lastAutosave) > AutosaveInterval && old(accumulatedText) != []) ==>
        (accumulatedText == old(accumulatedText) && lastAutosave == old(lastAutosave)
         && manager.files == old(manager.files) && display.lastSaveTime == old(display.lastSaveTime))
      ensures manager.currentFile == (if clock - old(lastAutosave) > AutosaveInterval && old(accumulatedText) != []
          && writable && old(manager.currentFile) == None
        then Some(Utils.TranscriptPath(now, Utils.OutputFormat)) else old(manager.currentFile))
      ensures isRecording == old(isRecording) && transcriptionQueue == old(transcriptionQueue)
      ensures display.lines == old(display.lines) && display.totalWords == old(display.totalWords)
    {
      if clock - lastAutosave > AutosaveInterval {
        if accumulatedText != [] {
          AutoSave(now, utc, clock, writable);
        }
      }
    }

    /**
     * `save_transcript`: an empty export saves nothing; otherwise the manager writes it to a new
     * file and, if that succeeded, the display is marked saved.
     */
    method SaveTranscript(localTime: real -> Calendar.DateTime, now: Calendar.DateTime, utc: Calendar.DateTime,
                          clock: real, writable: bool) returns (path: Option<string>)
      requires Valid()
      modifies display, manager
      ensures Valid()
      ensures var t := Text.Join(Display.Rendered(display.lines, display.showTimestamps, localTime), "\n");
        && (t == "" ==> path == None && manager.files == old(manager.files))
        && (t != "" && writable ==> (path == Some(Utils.TranscriptPath(now, Utils.OutputFormat))
              && manager.files == old(manager.files)[path.value := Utils.SavedContents(now, utc, t)]
              && display.lastSaveTime == Some(clock)))
        && (t != "" && !writable ==> path == None && manager.files == old(manager.files))
      ensures manager.currentFile == (if path.Some? then path else old(manager.currentFile))
      ensures path.None? ==> display.lastSaveTime == old(display.lastSaveTime)
      ensures display.lines == old(display.lines) && display.showTimestamps == old(display.showTimestamps)
    {
      var transcript := display.GetFullTranscript(localTime);
      if transcript == "" {
        return None;
      }
      path := manager.SaveTranscript(transcript, None, now, utc, writable);
      assert Utils.FileFormat(None) == Utils.OutputFormat;
      if path.Some? {
        display.MarkSaved(clock);
      }
    }

    /** `clear_transcript`: the display is cleared and no text waits for saving. */
    method ClearTranscript()
      requires Valid()
      modifies this, display
      ensures Valid()
      ensures accumulatedText == [] && display.lines == [] && display.totalWords == 0
      ensures isRecording == old(isRecording) && transcriptionQueue == old(transcriptionQueue)
    {
      display.ClearTranscript();
      accumulatedText := [];
    }

    /** `toggle_timestamps`. */
    method ToggleTimestamps()
      requires Valid()
      modifies display
      ensures Valid()
      ensures display.showTimestamps == !old(display.showTimestamps)
      ensures display.lines == old(display.lines)
    {
      display.ToggleTimestamps();
    }

    /**
     * `change_device`: with at most one device nothing changes. Otherwise the device after the
     * selected one is chosen, wrapping around; recording is stopped around the switch and
     * resumed, so it is on afterwards when it was on before and the stream restarts.
     */
    method ChangeDevice(devices: seq<Device>, opening: AudioHandler.Opening)
      requires Valid() && selectedDevice.Some?
      modifies this, capture, display
      ensures Valid()
      ensures |devices| <= 1 ==> (selectedDevice == old(selectedDevice) && isRecording == old(isRecording)
        && capture.deviceIndex == old(capture.deviceIndex) && display.currentDevice == old(display.currentDevice))
      ensures |devices| > 1 ==> (var d := devices[NextPosition(devices, old(selectedDevice).value.index)];
        && selectedDevice == Some(d) && capture.deviceIndex == Some(d.index) && display.currentDevice == d.name
        && isRecording == (old(isRecording) && opening == AudioHandler.Started))
      ensures transcriptionQueue == old(transcriptionQueue) && accumulatedText == old(accumulatedText)
      ensures isRunning == old(isRunning) && lastAutosave == old(lastAutosave)
      ensures display.lines == old(display.lines) && display.totalWords == old(display.totalWords)
      ensures display.showTimestamps == old(display.showTimestamps)
    {
      if |devices| <= 1 {
        return;
      }
      var next := devices[NextPosition(devices, selectedDevice.value.index)];
      var wasRecording := isRecording;
      if wasRecording {
        StopRecording();
      }
      capture.SelectDevice(next.index);
      display.SetDeviceName(next.name);
      selectedDevice := Some(next);
      if wasRecording {
        StartRecording(opening);
      }
    }

    /** `quit`. */
    method Quit()
      modifies this
      ensures !isRunning
      ensures isRecording == old(isRecording) && accumulatedText == old(accumulatedText)
      ensures transcriptionQueue == old(transcriptionQueue) && selectedDevice == old(selectedDevice)
      ensures lastAutosave == old(lastAutosave)
    {
      isRunning := false;
    }
  }
}
