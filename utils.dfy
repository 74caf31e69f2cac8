/**
 * The Python side's helpers: `format_duration`, the transcript file manager with its header
 * and auto-save rule, and the dependency check. The transcript directory is modelled as a
 * map from path to file contents; clocks, the time zone and whether a write succeeds are
 * parameters.
 */
module Utils {
  import opened Common
  import opened Text
  import Calendar

  // ---------------------------------------------------------------------------
  // format_duration
  // ---------------------------------------------------------------------------

  datatype Clock = Clock(hours: int, minutes: int, seconds: int)

  /**
   * `divmod(seconds, 3600)` then `divmod(remainder, 60)` with floor division, as Python does
   * for a positive divisor, and `int(...)` of each part, which truncates the fractional
   * seconds. Minutes and seconds always lie in 0..59 and the fields never overshoot.
   */
  function DurationFields(seconds: real): (c: Clock)
    ensures 0 <= c.minutes < 60 && 0 <= c.seconds < 60
    ensures (c.hours * 3600 + c.minutes * 60 + c.seconds) as real <= seconds
    ensures seconds < (c.hours * 3600 + c.minutes * 60 + c.seconds + 1) as real
    ensures seconds >= 0.0 ==> c.hours >= 0
  {
    var hours := (seconds / 3600.0).Floor;
    var remainder := seconds - 3600.0 * hours as real;
    var minutes := (remainder / 60.0).Floor;
    var rest := remainder - 60.0 * minutes as real;
    Clock(hours, minutes, Trunc(rest))
  }

  /** For a whole number of seconds the fields are exact: h·3600 + m·60 + s is the input. */
  lemma DurationOfWholeSeconds(n: nat)
    ensures var c := DurationFields(n as real);
      && c.hours * 3600 + c.minutes * 60 + c.seconds == n
      && c.hours == n / 3600 && c.minutes == n % 3600 / 60 && c.seconds == n % 60
  {
    var h, r := n / 3600, n % 3600;
    FloorOfQuotient(n, 3600);
    assert (n as real / 3600.0).Floor == h;
    assert n as real - 3600.0 * h as real == r as real;
    FloorOfQuotient(r, 60);
    var m := r / 60;
    assert (r as real / 60.0).Floor == m;
    assert r as real - 60.0 * m as real == (r % 60) as real;
    assert Trunc((r % 60) as real) == r % 60;
    ModOfMod(n);
  }

  /** Floor division of reals agrees with Euclidean division for a positive divisor. */
  lemma FloorOfQuotient(n: int, d: int)
    requires d > 0
    ensures (n as real / d as real).Floor == n / d
  {
    var q, r := n / d, n % d;
    assert n == q * d + r;
    assert n as real == q as real * d as real + r as real;
    assert n as real / d as real == q as real + r as real / d as real;
  }

  lemma ModOfMod(n: nat)
    ensures n % 3600 % 60 == n % 60 && n / 3600 * 3600 + n % 3600 / 60 * 60 + n % 60 == n
  {
    var h, r := n / 3600, n % 3600;
    var m, s := r / 60, r % 60;
    assert n == h * 3600 + r;
    assert r == m * 60 + s;
    var k := h * 60 + m;
    assert n == k * 60 + s;
    ModSixty(n, k, s);
  }

  /** With the literal divisor the remainder is determined by any decomposition. */
  lemma ModSixty(n: int, k: int, s: int)
    requires 0 <= s < 60 && n == k * 60 + s
    ensures n % 60 == s
  {
  }

  /** f"{int(hours):02d}:{int(minutes):02d}:{int(seconds):02d}". */
  function FormatDuration(seconds: real): string
  {
    var c := DurationFields(seconds);
    TwoDigits(c.hours) + ":" + TwoDigits(c.minutes) + ":" + TwoDigits(c.seconds)
  }

  lemma ClockLayout(h: string, m: string, s: string)
    requires |h| == 2 && |m| == 2 && |s| == 2
    ensures var r := h + ":" + m + ":" + s;
      |r| == 8 && r[2] == ':' && r[5] == ':' && r[..2] == h && r[3..5] == m && r[6..] == s
  {
  }

  /**
   * Below 100 hours the text is "hh:mm:ss": eight characters, colons at 2 and 5, and each
   * field reads back as the hours, minutes and whole seconds.
   */
  lemma FormatDurationShape(seconds: real)
    requires 0.0 <= seconds < 360000.0
    ensures var r, c := FormatDuration(seconds), DurationFields(seconds);
      && |r| == 8 && r[2] == ':' && r[5] == ':'
      && ReadsAs(r[..2], c.hours) && ReadsAs(r[3..5], c.minutes) && ReadsAs(r[6..], c.seconds)
  {
    var c := DurationFields(seconds);
    assert c.hours < 100;
    TwoDigitsShape(c.hours);
    TwoDigitsShape(c.minutes);
    TwoDigitsShape(c.seconds);
    ClockLayout(TwoDigits(c.hours), TwoDigits(c.minutes), TwoDigits(c.seconds));
  }

  // ---------------------------------------------------------------------------
  // Transcript files
  // ---------------------------------------------------------------------------

  /** `FILE_CONFIG["output_format"]`. */
  const OutputFormat: string := "txt"
  /** `TRANSCRIPT_DIR`, relative to the program's directory. */
  const TranscriptDir: string := "transcripts/"

  /** Fifty '=' characters. */
  function Rule(): (r: string)
    ensures |r| == 50 && forall i :: 0 <= i < 50 ==> r[i] == '='
  {
    Repeat('=', 50)
  }

  /** `time.strftime('%H:%M:%S', ...)`. */
  function ClockTime(t: Calendar.DateTime): string
  {
    TwoDigits(t.hour) + ":" + TwoDigits(t.minute) + ":" + TwoDigits(t.second)
  }

  /** The lines of `_create_header`, for the local time `now` and the UTC time `utc`. */
  function HeaderLines(now: Calendar.DateTime, utc: Calendar.DateTime): seq<string>
  {
    HeaderLayout(Calendar.Format(now), ClockTime(utc))
  }

  /** The header's five lines around a rendered date and clock time. */
  function HeaderLayout(date: string, clock: string): seq<string>
  {
    [Rule(), "SPEECH TRANSCRIPTION", "Date: " + date, "Duration: " + clock, Rule()]
  }

  /** `_create_header`: the five lines joined by "\n". */
  function Header(now: Calendar.DateTime, utc: Calendar.DateTime): string
  {
    Join(HeaderLines(now, utc), "\n")
  }

  /** No header line holds a newline. */
  lemma HeaderLinesHaveNoNewline(now: Calendar.DateTime, utc: Calendar.DateTime)
    ensures forall i :: 0 <= i < 5 ==> '\n' !in HeaderLines(now, utc)[i]
  {
    Calendar.FormatHasNoNewline(now);
    ClockTimeHasNoNewline(utc);
    HeaderLayoutHasNoNewline(Calendar.Format(now), ClockTime(utc));
  }

  lemma HeaderLayoutHasNoNewline(date: string, clock: string)
    requires '\n' !in date && '\n' !in clock
    ensures forall i :: 0 <= i < 5 ==> '\n' !in HeaderLayout(date, clock)[i]
  {
    var lines := HeaderLayout(date, clock);
    assert '\n' !in lines[0] && '\n' !in lines[4] by { RuleHasNoNewline(); }
    assert '\n' !in lines[1];
    Avoids("Date: ", date, '\n');
    Avoids("Duration: ", clock, '\n');
    forall i | 0 <= i < 5 ensures '\n' !in lines[i] {
      if i == 0 {} else if i == 1 {} else if i == 2 {} else if i == 3 {} else {}
    }
  }

  lemma Avoids(a: string, b: string, c: char)
    requires c !in a && c !in b
    ensures c !in a + b
  {
  }

  lemma RuleHasNoNewline()
    ensures '\n' !in Rule()
  {
    assert forall i :: 0 <= i < |Rule()| ==> Rule()[i] != '\n';
  }

  lemma ClockTimeHasNoNewline(t: Calendar.DateTime)
    ensures '\n' !in ClockTime(t)
  {
    DecimalNoNewline(t.hour);
    DecimalNoNewline(t.minute);
    DecimalNoNewline(t.second);
  }

  /**
   * The header splits into exactly five lines: a rule of 50 '=', the title, the date line,
   * the clock line and the rule again.
   */
  lemma HeaderSplitsIntoLines(now: Calendar.DateTime, utc: Calendar.DateTime)
    ensures var lines := Split(Header(now, utc), '\n');
      && |lines| == 5 && lines == HeaderLines(now, utc)
      && lines[0] == Rule() && lines[4] == Rule() && lines[1] == "SPEECH TRANSCRIPTION"
  {
    HeaderLinesHaveNoNewline(now, utc);
    SplitJoin(HeaderLines(now, utc), '\n');
  }

  /** What `save_transcript` writes: the header, a blank line, and the content. */
  function SavedContents(now: Calendar.DateTime, utc: Calendar.DateTime, content: string): string
  {
    Header(now, utc) + "\n\n" + content
  }

  /** `format or FILE_CONFIG["output_format"]`: a missing or empty format falls back to txt. */
  function FileFormat(format: Option<string>): (f: string)
    ensures f != ""
    ensures format.Some? && format.value != "" ==> f == format.value
  {
    if format.Some? && format.value != "" then format.value else OutputFormat
  }

  /** TRANSCRIPT_DIR / f"transcript_{%Y%m%d_%H%M%S}.{format}". */
  function TranscriptPath(now: Calendar.DateTime, format: string): string
  {
    TranscriptDir + "transcript_" + Calendar.Compact(now) + "." + format
  }

  class TranscriptManager {
    var currentFile: Option<string>
    /** The transcript directory: path to contents. */
    var files: map<string, string>
    /** The header and the pieces written to the current file since it was created. */
    ghost var currentHeader: string
    ghost var pieces: seq<string>

    /**
     * The current file, when there is one, holds its header, a blank line, and the pieces
     * written to it separated by single newlines.
     */
    ghost predicate Valid()
      reads this
    {
      currentFile.Some? ==> (currentFile.value in files && pieces != []
        && files[currentFile.value] == currentHeader + "\n\n" + Join(pieces, "\n"))
    }

    constructor(existing: map<string, string>)
      ensures Valid() && currentFile == None && files == existing
    {
      currentFile := None;
      files := existing;
      currentHeader := "";
      pieces := [];
    }

    /**
     * `save_transcript`: a new file at the time-stamped path gets the header, a blank line and
     * the content, and becomes the current file. When the write fails the exception leaves
     * everything as it was; the result is then None.
     */
    method SaveTranscript(content: string, format: Option<string>, now: Calendar.DateTime,
                          utc: Calendar.DateTime, writable: bool) returns (path: Option<string>)
      requires Valid()
      modifies this
      ensures Valid()
      ensures writable ==> (path == Some(TranscriptPath(now, FileFormat(format))) && currentFile == path
        && files == old(files)[path.value := SavedContents(now, utc, content)])
      ensures !writable ==> path == None && currentFile == old(currentFile) && files == old(files)
    {
      if !writable {
        return None;
      }
      var p := TranscriptPath(now, FileFormat(format));
      files := files[p := Header(now, utc) + "\n\n" + content];
      currentFile := Some(p);
      currentHeader := Header(now, utc);
      pieces := [content];
      path := currentFile;
    }

    /**
     * `auto_save`: with no current file the content starts a new one through
     * `save_transcript`; otherwise "\n" and the content are appended to the current file.
     * A failed write returns false.
     */
    method AutoSave(content: string, now: Calendar.DateTime, utc: Calendar.DateTime, writable: bool)
      returns (ok: bool)
      requires Valid()
      modifies this
      ensures Valid()
      ensures ok == writable
      ensures !writable ==> currentFile == old(currentFile) && files == old(files)
      ensures writable && old(currentFile) == None ==> (var p := TranscriptPath(now, OutputFormat);
        currentFile == Some(p) && files == old(files)[p := SavedContents(now, utc, content)])
      ensures writable && old(currentFile).Some? ==> (var p := old(currentFile).value;
        currentFile == old(currentFile) && files == old(files)[p := old(files)[p] + "\n" + content])
    {
      if !writable {
        return false;
      }
      if currentFile == None {
        var p := SaveTranscript(content, None, now, utc, true);
        return true;
      }
      var p := currentFile.value;
      JoinSnoc(pieces, content, "\n");
      files := files[p := files[p] + "\n" + content];
      pieces := pieces + [content];
      ok := true;
    }
  }

  /** A file started by an auto-save and extended by later ones holds the header and every piece, one per line. */
  lemma AutoSavedFile(header: string, pieces: seq<string>, next: string)
    requires pieces != []
    ensures header + "\n\n" + Join(pieces, "\n") + "\n" + next == header + "\n\n" + Join(pieces + [next], "\n")
  {
    JoinSnoc(pieces, next, "\n");
  }

  // ---------------------------------------------------------------------------
  // check_dependencies
  // ---------------------------------------------------------------------------

  const RequiredModules: seq<string> := ["whisper", "torch", "sounddevice", "numpy", "rich", "keyboard"]
  const CudaEntry: string := "CUDA (GPU support)"

  /** The modules that fail to import, in the order given. */
  function Unavailable(modules: seq<string>, importable: string -> bool): (r: seq<string>)
    ensures forall x :: x in r <==> x in modules && !importable(x)
  {
    if modules == [] then []
    else
      var init, last := modules[..|modules| - 1], modules[|modules| - 1];
      assert forall x :: x in modules <==> x in init || x == last;
      Unavailable(init, importable) + (if importable(last) then [] else [last])
  }

  /**
   * The `missing` list: the failed imports in declaration order, then the CUDA entry when
   * torch imports but reports no GPU (a failing torch import skips the GPU test).
   */
  function Missing(importable: string -> bool, cuda: bool): seq<string>
  {
    Unavailable(RequiredModules, importable) + (if importable("torch") && !cuda then [CudaEntry] else [])
  }

  /**
   * `check_dependencies`: every required module is tried in order, then the GPU. The verdict
   * is true exactly when nothing is missing.
   */
  method CheckDependencies(importable: string -> bool, cuda: bool) returns (ok: bool, missing: seq<string>)
    ensures missing == Missing(importable, cuda)
    ensures ok <==> missing == []
  {
    missing := [];
    var i := 0;
    while i < |RequiredModules|
      invariant 0 <= i <= |RequiredModules|
      invariant missing == Unavailable(RequiredModules[..i], importable)
    {
      var name := RequiredModules[i];
      assert RequiredModules[..i + 1][..i] == RequiredModules[..i];
      if !importable(name) {
        missing := missing + [name];
      }
      i := i + 1;
    }
    assert RequiredModules[..i] == RequiredModules;
    if importable("torch") && !cuda {
      missing := missing + [CudaEntry];
    }
    ok := |missing| == 0;
  }

  /** Everything is reported ready exactly when all six modules import and a GPU is present. */
  lemma MissingEmptyIff(importable: string -> bool, cuda: bool)
    ensures Missing(importable, cuda) == [] <==> (forall x :: x in RequiredModules ==> importable(x)) && cuda
  {
    var u := Unavailable(RequiredModules, importable);
    if Missing(importable, cuda) == [] {
      assert u == [];
      assert "torch" in RequiredModules && "torch" !in u;
    } else if (forall x :: x in RequiredModules ==> importable(x)) && cuda {
      if u != [] {
        assert u[0] in u;
      }
    }
  }
}
