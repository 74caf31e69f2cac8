/**
 * The Windows installer's decisions: the interpreter version it accepts, where the virtual
 * environment's pip and python live, the PyTorch install command, and the filter that drops
 * comments, pip options and every torch package from requirements.txt before the remaining
 * lines are written, one per line, to the filtered requirements file.
 */
module Install {
  import Text

  // ---------------------------------------------------------------------------
  // Version and paths
  // ---------------------------------------------------------------------------

  /** The installer exits unless the interpreter is 3.8 or newer. */
  function VersionAccepted(major: int, minor: int): (ok: bool)
    ensures ok <==> major > 3 || (major == 3 && minor >= 8)
  {
    !(major < 3 || (major == 3 && minor < 8))
  }

  const VenvDir: string := ".venv"

  /** A program inside the environment, as path components: Scripts\name.exe on Windows, bin/name elsewhere. */
  function VenvProgram(windows: bool, name: string): seq<string>
  {
    if windows then [VenvDir, "Scripts", name + ".exe"] else [VenvDir, "bin", name]
  }

  function PipPath(windows: bool): seq<string>
  {
    VenvProgram(windows, "pip")
  }

  function PythonPath(windows: bool): seq<string>
  {
    VenvProgram(windows, "python")
  }

  /**
   * pip and python sit side by side inside .venv: in Scripts with the .exe suffix exactly on
   * Windows, in bin without a suffix elsewhere.
   */
  lemma VenvPaths(windows: bool)
    ensures |PipPath(windows)| == 3 && |PythonPath(windows)| == 3
    ensures PipPath(windows)[..2] == PythonPath(windows)[..2]
    ensures PipPath(windows)[0] == VenvDir
    ensures (PipPath(windows)[1] == "Scripts") == windows && (PipPath(windows)[1] == "bin") == !windows
    ensures PipPath(windows)[2] == (if windows then "pip.exe" else "pip")
    ensures PythonPath(windows)[2] == (if windows then "python.exe" else "python")
  {
  }

  const TorchPackages: seq<string> := ["torch", "torchvision", "torchaudio"]
  const CudaIndex: string := "https://download.pytorch.org/whl/cu118"

  /** The PyTorch install command: the CUDA 11.8 wheel index is added only when a GPU answered. */
  function TorchCommand(pip: string, hasGpu: bool): (cmd: seq<string>)
    ensures |cmd| >= 5 && cmd[..5] == [pip, "install"] + TorchPackages
    ensures hasGpu ==> cmd[5..] == ["--index-url", CudaIndex]
    ensures !hasGpu ==> |cmd| == 5
  {
    [pip, "install"] + TorchPackages + (if hasGpu then ["--index-url", CudaIndex] else [])
  }

  // ---------------------------------------------------------------------------
  // The requirements filter
  // ---------------------------------------------------------------------------

  /** `any(pkg in req.lower() for pkg in ["torch", "torchvision", "torchaudio"])`. */
  predicate MentionsTorch(req: string)
  {
    var l := Text.Lower(req);
    Text.Contains(l, TorchPackages[0]) || Text.Contains(l, TorchPackages[1]) || Text.Contains(l, TorchPackages[2])
  }

  /** Containing a string means containing each of its prefixes. */
  lemma ContainsPrefix(s: string, a: string, b: string)
    requires Text.Contains(s, a + b)
    ensures Text.Contains(s, a)
  {
    var i := Text.ContainsIndex(s, a + b);
    assert s[i..i + |a|] == (a + b)[..|a|];
    Text.ContainsAt(s, a, i);
  }

  /** The three package names share the prefix "torch", so the test is one substring test. */
  lemma MentionsTorchIff(req: string)
    ensures MentionsTorch(req) <==> Text.Contains(Text.Lower(req), "torch")
  {
    var l := Text.Lower(req);
    if Text.Contains(l, "torchvision") {
      assert "torchvision" == "torch" + "vision";
      ContainsPrefix(l, "torch", "vision");
    }
    if Text.Contains(l, "torchaudio") {
      assert "torchaudio" == "torch" + "audio";
      ContainsPrefix(l, "torch", "audio");
    }
  }

  /** The test a stripped line must pass to be kept. */
  predicate Kept(req: string)
  {
    req != "" && !Text.StartsWith(req, "#") && !Text.StartsWith(req, "--") && !MentionsTorch(req)
  }

  /** The stripped lines that pass, in their original order. */
  function Filter(lines: seq<string>): seq<string>
  {
    if lines == [] then []
    else
      var req := Text.Strip(lines[|lines| - 1]);
      Filter(lines[..|lines| - 1]) + (if Kept(req) then [req] else [])
  }

  /** The loop that builds `filtered_reqs`, and the text written to requirements_filtered.txt. */
  method FilterRequirements(requirements: seq<string>) returns (filtered: seq<string>, contents: string)
    ensures filtered == Filter(requirements)
    ensures contents == Text.Join(filtered, "\n")
  {
    filtered := [];
    var i := 0;
    while i < |requirements|
      invariant 0 <= i <= |requirements|
      invariant filtered == Filter(requirements[..i])
    {
      var req := Text.Strip(requirements[i]);
      if req != "" && !Text.StartsWith(req, "#") && !Text.StartsWith(req, "--") {
        var lowered := Text.Lower(req);
        if !(Text.Contains(lowered, "torch") || Text.Contains(lowered, "torchvision") || Text.Contains(lowered, "torchaudio")) {
          filtered := filtered + [req];
        }
      }
      assert requirements[..i + 1][..i] == requirements[..i];
      i := i + 1;
    }
    assert requirements[..i] == requirements;
    contents := Text.Join(filtered, "\n");
  }

  /** Filtering a concatenation filters each part in turn: the kept lines keep their relative order. */
  lemma {:induction false} FilterAppend(a: seq<string>, b: seq<string>)
    ensures Filter(a + b) == Filter(a) + Filter(b)
    decreases |b|
  {
    if b == [] {
      assert a + b == a;
    } else {
      var b' := b[..|b| - 1];
      assert (a + b)[..|a + b| - 1] == a + b';
      assert (a + b)[|a + b| - 1] == b[|b| - 1];
      FilterAppend(a, b');
    }
  }

  /**
   * Every kept line is stripped (stripping it again changes nothing, and it neither starts nor
   * ends with whitespace), is not empty, is neither a comment nor an option, and does not
   * mention torch in any case.
   */
  lemma {:induction false} FilterSound(lines: seq<string>)
    ensures forall r :: r in Filter(lines) ==> (Kept(r) && Text.Strip(r) == r
      && !Text.IsBlank(Text.PyWhitespace, r[0]) && !Text.IsBlank(Text.PyWhitespace, r[|r| - 1])
      && !Text.Contains(Text.Lower(r), "torch"))
    decreases |lines|
  {
    if lines != [] {
      var line := lines[|lines| - 1];
      FilterSound(lines[..|lines| - 1]);
      StrippedLine(line);
    }
  }

  lemma StrippedLine(line: string)
    ensures var r := Text.Strip(line); Kept(r) ==> (Text.Strip(r) == r
      && !Text.IsBlank(Text.PyWhitespace, r[0]) && !Text.IsBlank(Text.PyWhitespace, r[|r| - 1])
      && !Text.Contains(Text.Lower(r), "torch"))
  {
    Text.StripIdempotent(line);
    Text.StripShape(line);
    MentionsTorchIff(Text.Strip(line));
  }

  /** Every line that passes after stripping is written. */
  lemma {:induction false} FilterComplete(lines: seq<string>, i: nat)
    requires i < |lines| && Kept(Text.Strip(lines[i]))
    ensures Text.Strip(lines[i]) in Filter(lines)
    decreases |lines|
  {
    if i < |lines| - 1 {
      FilterComplete(lines[..|lines| - 1], i);
    }
  }

  /** A character absent from every line is absent from every kept line. */
  lemma {:induction false} FilterAvoids(lines: seq<string>, c: char)
    requires forall i :: 0 <= i < |lines| ==> c !in lines[i]
    ensures forall k :: 0 <= k < |Filter(lines)| ==> c !in Filter(lines)[k]
    decreases |lines|
  {
    if lines != [] {
      FilterAvoids(lines[..|lines| - 1], c);
      Text.StripAvoids(lines[|lines| - 1], c);
    }
  }

  /**
   * Reading requirements_filtered.txt back line by line gives exactly the kept requirements,
   * given that the input lines (the result of `splitlines()`) hold no newline.
   */
  lemma FilteredFileLines(requirements: seq<string>)
    requires forall i :: 0 <= i < |requirements| ==> '\n' !in requirements[i]
    requires Filter(requirements) != []
    ensures Text.Split(Text.Join(Filter(requirements), "\n"), '\n') == Filter(requirements)
  {
    FilterAvoids(requirements, '\n');
    Text.SplitJoin(Filter(requirements), '\n');
  }
}
