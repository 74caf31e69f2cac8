/**
 * The terminal display's state: a transcript window that keeps the newest 50 entries, a
 * running word total, the timestamp switch, the clamped audio level and its 20-cell meter,
 * and the plain-text export of the transcript.
 */
module Display {
  import opened Common
  import Text
  import Calendar

  /** `UI_CONFIG["max_display_lines"]`. */
  const MaxDisplayLines: nat := 50
  /** Cells in the audio meter. */
  const MeterCells: int := 20

  datatype Entry = Entry(text: string, confidence: real, timestamp: real)

  /** What a deque with maxlen 50 holds after the entries are appended in turn: the newest 50. */
  function Window(entries: seq<Entry>): (w: seq<Entry>)
    ensures |w| == if |entries| <= MaxDisplayLines then |entries| else MaxDisplayLines
    ensures w == entries[|entries| - |w|..]
  {
    if |entries| <= MaxDisplayLines then entries else entries[|entries| - MaxDisplayLines..]
  }

  /** Appending to the window is appending to the history: a full window drops its oldest entry. */
  lemma WindowAppend(entries: seq<Entry>, e: Entry)
    ensures Window(Window(entries) + [e]) == Window(entries + [e])
    ensures |Window(entries)| == MaxDisplayLines ==> Window(Window(entries) + [e]) == Window(entries)[1..] + [e]
    ensures |Window(entries)| < MaxDisplayLines ==> Window(Window(entries) + [e]) == Window(entries) + [e]
  {
    var w := Window(entries);
    if |entries| >= MaxDisplayLines {
      assert (w + [e])[|w + [e]| - MaxDisplayLines..] == (entries + [e])[|entries + [e]| - MaxDisplayLines..];
    }
  }

  /** `timestamp or time.time()`: a missing or zero timestamp is replaced by the current time. */
  function EntryTime(timestamp: Option<real>, now: real): (t: real)
    ensures t == now || (timestamp.Some? && t == timestamp.value && t != 0.0)
    ensures timestamp.Some? && timestamp.value != 0.0 ==> t == timestamp.value
  {
    if timestamp.None? || timestamp.value == 0.0 then now else timestamp.value
  }

  /** One exported line: "[YYYY-mm-dd HH:MM:SS] text" when timestamps are shown, else the text. */
  function RenderLine(e: Entry, showTimestamps: bool, localTime: real -> Calendar.DateTime): string
  {
    if showTimestamps then "[" + Calendar.Format(localTime(e.timestamp)) + "] " + e.text else e.text
  }

  /** The exported lines, in window order. */
  function Rendered(lines: seq<Entry>, showTimestamps: bool, localTime: real -> Calendar.DateTime): (r: seq<string>)
    ensures |r| == |lines|
    ensures forall i :: 0 <= i < |lines| ==> r[i] == RenderLine(lines[i], showTimestamps, localTime)
  {
    if lines == [] then []
    else Rendered(lines[..|lines| - 1], showTimestamps, localTime) + [RenderLine(lines[|lines| - 1], showTimestamps, localTime)]
  }

  /** With a valid time, a stamped line is the bracketed 19-character time, a space and the text. */
  lemma RenderLineShape(e: Entry, showTimestamps: bool, localTime: real -> Calendar.DateTime)
    requires showTimestamps ==> Calendar.Valid(localTime(e.timestamp))
    ensures var r := RenderLine(e, showTimestamps, localTime);
      && (!showTimestamps ==> r == e.text)
      && (showTimestamps ==> (|r| == 22 + |e.text| && r[0] == '[' && r[1..20] == Calendar.Format(localTime(e.timestamp))
        && r[20..22] == "] " && r[22..] == e.text))
  {
    if showTimestamps {
      var stamp := Calendar.Format(localTime(e.timestamp));
      Calendar.FormatLength(localTime(e.timestamp));
      Bracketed(stamp, e.text);
    }
  }

  lemma Bracketed(stamp: string, text: string)
    requires |stamp| == 19
    ensures var r := "[" + stamp + "] " + text;
      |r| == 22 + |text| && r[0] == '[' && r[1..20] == stamp && r[20..22] == "] " && r[22..] == text
  {
    var r := "[" + stamp + "] " + text;
    assert r[1..20] == stamp;
    assert r[22..] == text;
  }

  /** A line break in the export can only come from an entry's own text. */
  lemma RenderLineNoNewline(e: Entry, showTimestamps: bool, localTime: real -> Calendar.DateTime)
    requires '\n' !in e.text
    ensures '\n' !in RenderLine(e, showTimestamps, localTime)
  {
    if showTimestamps {
      Calendar.FormatHasNoNewline(localTime(e.timestamp));
    }
  }

  /**
   * The export splits back into one line per entry, in order, when no entry holds a line
   * break: splitting the joined text on newlines gives exactly the rendered lines.
   */
  lemma ExportSplitsIntoEntries(lines: seq<Entry>, showTimestamps: bool, localTime: real -> Calendar.DateTime)
    requires |lines| >= 1
    requires forall i :: 0 <= i < |lines| ==> '\n' !in lines[i].text
    ensures Text.Split(Text.Join(Rendered(lines, showTimestamps, localTime), "\n"), '\n') == Rendered(lines, showTimestamps, localTime)
  {
    var r := Rendered(lines, showTimestamps, localTime);
    forall i | 0 <= i < |r| ensures '\n' !in r[i] {
      RenderLineNoNewline(lines[i], showTimestamps, localTime);
    }
    Text.SplitJoin(r, '\n');
  }

  /** `int(level * 20)`: the number of full cells. */
  function MeterFilled(level: real): int
  {
    Trunc(level * 20.0)
  }

  function MeterColor(filled: int): string
  {
    if filled < 5 then "green" else if filled < 15 then "yellow" else "red"
  }

  /** `_create_audio_meter`: the coloured full cells, then the empty ones, as Rich markup. */
  function AudioMeter(level: real): string
  {
    var filled := MeterFilled(level);
    "[" + MeterColor(filled) + "]" + Text.Repeat('█', filled) + "[/]" + Text.Repeat('░', MeterCells - filled)
  }

  /** For a clamped level the meter has exactly 20 cells: `int(level * 20)` full and the rest empty. */
  lemma MeterCells20(level: real)
    requires 0.0 <= level <= 1.0
    ensures 0 <= MeterFilled(level) <= MeterCells
    ensures Text.Count(AudioMeter(level), '█') == MeterFilled(level)
    ensures Text.Count(AudioMeter(level), '░') == MeterCells - MeterFilled(level)
  {
    var filled := MeterFilled(level);
    var head := "[" + MeterColor(filled) + "]";
    var full, mid, empty := Text.Repeat('█', filled), "[/]", Text.Repeat('░', MeterCells - filled);
    assert AudioMeter(level) == head + full + mid + empty;
    assert '█' !in head && '░' !in head && '█' !in mid && '░' !in mid;
    Text.CountAbsent(head, '█');
    Text.CountAbsent(head, '░');
    Text.CountAbsent(mid, '█');
    Text.CountAbsent(mid, '░');
    Text.CountRepeat('█', filled, '█');
    Text.CountRepeat('█', filled, '░');
    Text.CountRepeat('░', MeterCells - filled, '█');
    Text.CountRepeat('░', MeterCells - filled, '░');
    Text.CountAppend(head, full, '█');
    Text.CountAppend(head + full, mid, '█');
    Text.CountAppend(head + full + mid, empty, '█');
    Text.CountAppend(head, full, '░');
    Text.CountAppend(head + full, mid, '░');
    Text.CountAppend(head + full + mid, empty, '░');
  }

  /** The colour bands in terms of the level: green below 0.25, yellow below 0.75, red from 0.75. */
  lemma MeterColorBands(level: real)
    requires 0.0 <= level <= 1.0
    ensures MeterColor(MeterFilled(level)) == "green" <==> level < 0.25
    ensures MeterColor(MeterFilled(level)) == "yellow" <==> 0.25 <= level < 0.75
    ensures MeterColor(MeterFilled(level)) == "red" <==> level >= 0.75
  {
    var filled := MeterFilled(level);
    assert filled as real <= level * 20.0 < filled as real + 1.0;
  }

  class TerminalDisplay {
    /** `transcription_lines`. */
    var lines: seq<Entry>
    /** Every entry added since the last clear, oldest first. */
    ghost var history: seq<Entry>
    var isRecording: bool
    var showTimestamps: bool
    var audioLevel: real
    var currentDevice: string
    var lastSaveTime: Option<real>
    var totalWords: int

    /** The window shows the newest 50 entries of the history. */
    ghost predicate Valid()
      reads this
    {
      lines == Window(history)
    }

    constructor()
      ensures Valid() && lines == [] && history == [] && !isRecording && showTimestamps
      ensures audioLevel == 0.0 && currentDevice == "Default" && lastSaveTime == None && totalWords == 0
    {
      lines := [];
      history := [];
      isRecording := false;
      showTimestamps := true;
      audioLevel := 0.0;
      currentDevice := "Default";
      lastSaveTime := None;
      totalWords := 0;
    }

    /**
     * `add_transcription`: empty or whitespace-only text changes nothing. Otherwise the entry
     * joins the history, the window drops its oldest entry when full, and the word total grows
     * by the text's whitespace-separated words, evictions notwithstanding.
     */
    method AddTranscription(text: string, confidence: real, timestamp: Option<real>, now: real)
      requires Valid()
      modifies this
      ensures Valid()
      ensures Text.AllBlank(Text.PyWhitespace, text) ==> (lines == old(lines) && history == old(history)
        && totalWords == old(totalWords))
      ensures !Text.AllBlank(Text.PyWhitespace, text) ==> (
        var e := Entry(text, confidence, EntryTime(timestamp, now));
        && history == old(history) + [e]
        && lines == Window(old(lines) + [e])
        && totalWords == old(totalWords) + |Text.Words(Text.PyWhitespace, text)|)
      ensures isRecording == old(isRecording) && showTimestamps == old(showTimestamps) && audioLevel == old(audioLevel)
      ensures currentDevice == old(currentDevice) && lastSaveTime == old(lastSaveTime)
    {
      Text.StripEmptyIffBlank(text);
      if Text.Strip(text) == "" {
        return;
      }
      var e := Entry(text, confidence, EntryTime(timestamp, now));
      var shown := if |lines| == MaxDisplayLines then lines[1..] + [e] else lines + [e];
      WindowAppend(history, e);
      assert shown == Window(history + [e]);
      var words := |Text.Words(Text.PyWhitespace, text)|;
      lines, history, totalWords := shown, history + [e], totalWords + words;
    }

    method SetRecordingStatus(recording: bool)
      modifies this
      ensures isRecording == recording
      ensures lines == old(lines) && history == old(history) && showTimestamps == old(showTimestamps)
      ensures audioLevel == old(audioLevel) && currentDevice == old(currentDevice)
      ensures lastSaveTime == old(lastSaveTime) && totalWords == old(totalWords)
    {
      isRecording := recording;
    }

    /** `set_audio_level`: the level is clamped to [0, 1]. */
    method SetAudioLevel(level: real)
      modifies this
      ensures 0.0 <= audioLevel <= 1.0
      ensures 0.0 <= level <= 1.0 ==> audioLevel == level
      ensures level < 0.0 ==> audioLevel == 0.0
      ensures level > 1.0 ==> audioLevel == 1.0
      ensures lines == old(lines) && history == old(history) && showTimestamps == old(showTimestamps)
      ensures isRecording == old(isRecording) && currentDevice == old(currentDevice)
      ensures lastSaveTime == old(lastSaveTime) && totalWords == old(totalWords)
    {
      var atLeastZero := if level > 0.0 then level else 0.0;
      audioLevel := if atLeastZero < 1.0 then atLeastZero else 1.0;
    }

    method SetDeviceName(name: string)
      modifies this
      ensures currentDevice == name
      ensures lines == old(lines) && history == old(history) && showTimestamps == old(showTimestamps)
      ensures isRecording == old(isRecording) && audioLevel == old(audioLevel)
      ensures lastSaveTime == old(lastSaveTime) && totalWords == old(totalWords)
    {
      currentDevice := name;
    }

    /** `mark_saved`, with the current time as a parameter. */
    method MarkSaved(now: real)
      modifies this
      ensures lastSaveTime == Some(now)
      ensures lines == old(lines) && history == old(history) && showTimestamps == old(showTimestamps)
      ensures isRecording == old(isRecording) && audioLevel == old(audioLevel)
      ensures currentDevice == old(currentDevice) && totalWords == old(totalWords)
    {
      lastSaveTime := Some(now);
    }

    /** `clear_transcript`: no lines and a word total of 0. */
    method ClearTranscript()
      modifies this
      ensures Valid() && lines == [] && totalWords == 0
      ensures showTimestamps == old(showTimestamps) && isRecording == old(isRecording) && audioLevel == old(audioLevel)
      ensures currentDevice == old(currentDevice) && lastSaveTime == old(lastSaveTime)
    {
      lines := [];
      history := [];
      totalWords := 0;
    }

    /** `toggle_timestamps`: the switch flips; doing it twice restores it. */
    method ToggleTimestamps()
      modifies this
      ensures showTimestamps == !old(showTimestamps)
      ensures lines == old(lines) && history == old(history) && isRecording == old(isRecording)
      ensures audioLevel == old(audioLevel) && currentDevice == old(currentDevice)
      ensures lastSaveTime == old(lastSaveTime) && totalWords == old(totalWords)
    {
      showTimestamps := !showTimestamps;
    }

    /** `get_full_transcript`, with `localTime` standing for `datetime.fromtimestamp`. */
    method GetFullTranscript(localTime: real -> Calendar.DateTime) returns (transcript: string)
      ensures transcript == Text.Join(Rendered(lines, showTimestamps, localTime), "\n")
    {
      var out: seq<string> := [];
      for i := 0 to |lines|
        invariant out == Rendered(lines[..i], showTimestamps, localTime)
      {
        assert lines[..i + 1][..i] == lines[..i];
        out := out + [RenderLine(lines[i], showTimestamps, localTime)];
      }
      assert lines[..|lines|] == lines;
      transcript := Text.Join(out, "\n");
    }
  }
}
