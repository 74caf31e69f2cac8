/**
 * String helpers shared by the JavaScript clients and the Python side: splitting on a
 * one-character separator, joining, whitespace-delimited words, trimming, ASCII case
 * mapping, prefix and substring tests, and decimal rendering of integers.
 */
module Text {

  // ---------------------------------------------------------------------------
  // Splitting on one character and joining
  // ---------------------------------------------------------------------------

  /** `s.split(sep)` for a one-character separator (JavaScript and Python agree here). */
  function Split(s: string, sep: char): (pieces: seq<string>)
    ensures |pieces| >= 1
    decreases |s|
  {
    if |s| == 0 then [""]
    else
      var rest := Split(s[1..], sep);
      if s[0] == sep then [""] + rest
      else [[s[0]] + rest[0]] + rest[1..]
  }

  /** `sep.join(parts)` in Python, `parts.join(sep)` in JavaScript. */
  function Join(parts: seq<string>, sep: string): string
  {
    if |parts| == 0 then ""
    else if |parts| == 1 then parts[0]
    else parts[0] + sep + Join(parts[1..], sep)
  }

  /** Number of occurrences of `c` in `s`. */
  function Count(s: string, c: char): nat
  {
    if |s| == 0 then 0 else (if s[0] == c then 1 else 0) + Count(s[1..], c)
  }

  lemma {:induction false} CountAppend(a: string, b: string, c: char)
    ensures Count(a + b, c) == Count(a, c) + Count(b, c)
    decreases |a|
  {
    if |a| > 0 {
      assert (a + b)[1..] == a[1..] + b;
      CountAppend(a[1..], b, c);
    } else {
      assert a + b == b;
    }
  }

  lemma {:induction false} CountAbsent(s: string, c: char)
    requires c !in s
    ensures Count(s, c) == 0
    decreases |s|
  {
    if |s| > 0 {
      CountAbsent(s[1..], c);
    }
  }

  lemma {:induction false} SplitCount(s: string, sep: char)
    ensures |Split(s, sep)| == Count(s, sep) + 1
    decreases |s|
  {
    if |s| > 0 {
      SplitCount(s[1..], sep);
    }
  }

  lemma {:induction false} SplitPiecesAvoidSeparator(s: string, sep: char)
    ensures forall i :: 0 <= i < |Split(s, sep)| ==> sep !in Split(s, sep)[i]
    decreases |s|
  {
    if |s| > 0 {
      SplitPiecesAvoidSeparator(s[1..], sep);
    }
  }

  lemma JoinCons(a: string, t: seq<string>, sep: string)
    ensures Join([a] + t, sep) == if t == [] then a else a + sep + Join(t, sep)
  {
    assert ([a] + t)[1..] == t;
  }

  /** Joining one more part puts it after the others, behind one separator. */
  lemma {:induction false} JoinSnoc(parts: seq<string>, x: string, sep: string)
    ensures Join(parts + [x], sep) == if parts == [] then x else Join(parts, sep) + sep + x
    decreases |parts|
  {
    if |parts| == 1 {
      assert (parts + [x])[1..] == [x];
    } else if |parts| > 1 {
      assert (parts + [x])[1..] == parts[1..] + [x];
      JoinSnoc(parts[1..], x, sep);
    }
  }

  /** The last piece is the text after the last separator: a suffix, preceded by `sep` unless it is all of `s`. */
  lemma LastPieceIsSuffix(s: string, sep: char)
    ensures var p := Split(s, sep); var t := p[|p| - 1];
      |t| <= |s| && s[|s| - |t|..] == t && (|t| < |s| ==> s[|s| - |t| - 1] == sep)
  {
    var p := Split(s, sep);
    JoinSplit(s, sep);
    assert p == p[..|p| - 1] + [p[|p| - 1]];
    JoinSnoc(p[..|p| - 1], p[|p| - 1], [sep]);
  }

  /** Joining the pieces back with the separator restores the string. */
  lemma {:induction false} JoinSplit(s: string, sep: char)
    ensures Join(Split(s, sep), [sep]) == s
    decreases |s|
  {
    if |s| > 0 {
      var rest := Split(s[1..], sep);
      JoinSplit(s[1..], sep);
      if s[0] == sep {
        JoinCons("", rest, [sep]);
        assert s == [sep] + s[1..];
      } else {
        JoinCons([s[0]] + rest[0], rest[1..], [sep]);
        JoinCons(rest[0], rest[1..], [sep]);
        assert [rest[0]] + rest[1..] == rest;
        assert s == [s[0]] + s[1..];
      }
    }
  }

  lemma {:induction false} SplitNoSeparator(a: string, sep: char)
    requires sep !in a
    ensures Split(a, sep) == [a]
    decreases |a|
  {
    if |a| > 0 {
      SplitNoSeparator(a[1..], sep);
      assert [a[0]] + a[1..] == a;
    }
  }

  lemma {:induction false} SplitAfterPiece(a: string, t: string, sep: char)
    requires sep !in a
    ensures Split(a + [sep] + t, sep) == [a] + Split(t, sep)
    decreases |a|
  {
    if |a| == 0 {
      assert a + [sep] + t == [sep] + t;
      assert ([sep] + t)[1..] == t;
    } else {
      var s := a + [sep] + t;
      assert s[0] == a[0];
      assert s[1..] == a[1..] + [sep] + t;
      SplitAfterPiece(a[1..], t, sep);
      assert [a[0]] + a[1..] == a;
    }
  }

  /** Splitting a join of separator-free parts gives the parts back. */
  lemma {:induction false} SplitJoin(parts: seq<string>, sep: char)
    requires |parts| >= 1
    requires forall i :: 0 <= i < |parts| ==> sep !in parts[i]
    ensures Split(Join(parts, [sep]), sep) == parts
    decreases |parts|
  {
    if |parts| == 1 {
      SplitNoSeparator(parts[0], sep);
    } else {
      SplitJoin(parts[1..], sep);
      SplitAfterPiece(parts[0], Join(parts[1..], [sep]), sep);
      assert [parts[0]] + parts[1..] == parts;
    }
  }

  /**
   * Splitting a concatenation: the complete pieces of the first part, then the split of its
   * unfinished last piece continued by the second part (how a line buffer carries over).
   */
  lemma {:induction false} SplitAppend(x: string, y: string, sep: char)
    ensures var p := Split(x, sep);
      Split(x + y, sep) == p[..|p| - 1] + Split(p[|p| - 1] + y, sep)
    decreases |x|
  {
    var p := Split(x, sep);
    if |x| == 0 {
      assert x + y == y;
      assert p[|p| - 1] + y == y;
    } else {
      var t := x[1..];
      var q := Split(t, sep);
      assert (x + y)[1..] == t + y;
      assert (x + y)[0] == x[0];
      SplitAppend(t, y, sep);
      var r := Split(t + y, sep);
      var rest := Split(q[|q| - 1] + y, sep);
      if x[0] == sep {
        PiecesAfterSeparator(p, q, r, rest);
      } else if |q| == 1 {
        var z := [x[0]] + q[0] + y;
        assert z[0] == x[0] && z[1..] == q[0] + y;
        assert p[|p| - 1] + y == z;
      } else {
        PiecesAfterCharacter(x[0], p, q, r, rest);
      }
    }
  }

  lemma PiecesAfterSeparator(p: seq<string>, q: seq<string>, r: seq<string>, rest: seq<string>)
    requires |q| >= 1 && p == [""] + q && r == q[..|q| - 1] + rest
    ensures [""] + r == p[..|p| - 1] + rest
  {
    assert p[..|p| - 1] == [""] + q[..|q| - 1];
  }

  lemma PiecesAfterCharacter(c: char, p: seq<string>, q: seq<string>, r: seq<string>, rest: seq<string>)
    requires |q| >= 2 && p == [[c] + q[0]] + q[1..] && r == q[..|q| - 1] + rest
    ensures [[c] + r[0]] + r[1..] == p[..|p| - 1] + rest
  {
    assert r[0] == q[0] && r[1..] == q[1..|q| - 1] + rest;
    assert p[..|p| - 1] == [[c] + q[0]] + q[1..|q| - 1];
  }

  /** The last piece is whatever follows the last separator. */
  lemma {:induction false} SplitLastPiece(a: string, t: string, sep: char)
    requires sep !in t
    ensures var p := Split(a + [sep] + t, sep);
      |p| >= 2 && p[|p| - 1] == t && p[..|p| - 1] == Split(a, sep)
  {
    SplitAppend(a, [sep] + t, sep);
    var p := Split(a, sep);
    var r := p[|p| - 1];
    assert p[|p| - 1] + ([sep] + t) == r + [sep] + t;
    SplitAfterPiece(r, t, sep) by {
      SplitPiecesAvoidSeparator(a, sep);
    }
    SplitNoSeparator(t, sep);
    assert a + [sep] + t == a + ([sep] + t);
    LastPieceShape(p, Split(a + [sep] + t, sep), t);
  }

  lemma LastPieceShape(p: seq<string>, whole: seq<string>, t: string)
    requires |p| >= 1 && whole == p[..|p| - 1] + ([p[|p| - 1]] + [t])
    ensures |whole| >= 2 && whole[|whole| - 1] == t && whole[..|whole| - 1] == p
  {
    assert whole[..|whole| - 1] == p[..|p| - 1] + [p[|p| - 1]];
  }

  /** The non-empty pieces, in order (JavaScript `.filter(w => w.length > 0)`). */
  function NonEmpty(pieces: seq<string>): (r: seq<string>)
    ensures |r| <= |pieces|
    ensures forall i :: 0 <= i < |r| ==> r[i] != ""
  {
    if |pieces| == 0 then []
    else if pieces[0] == "" then NonEmpty(pieces[1..])
    else [pieces[0]] + NonEmpty(pieces[1..])
  }

  lemma {:induction false} NonEmptyIdentity(pieces: seq<string>)
    requires forall i :: 0 <= i < |pieces| ==> pieces[i] != ""
    ensures NonEmpty(pieces) == pieces
    decreases |pieces|
  {
    if |pieces| > 0 {
      NonEmptyIdentity(pieces[1..]);
      assert [pieces[0]] + pieces[1..] == pieces;
    }
  }

  // ---------------------------------------------------------------------------
  // Whitespace, words and trimming
  // ---------------------------------------------------------------------------

  /** Which notion of blank a word split uses. */
  datatype Blank =
    | SpaceOnly   // the literal ' ' only
    | PyWhitespace // Python str.isspace(), as used by str.split() and str.strip()
    | JsWhitespace // the JavaScript regular-expression class \s

  predicate IsBlank(b: Blank, c: char)
  {
    match b
    case SpaceOnly => c == ' '
    case PyWhitespace =>
      ('\t' <= c <= '\r') || ('\U{1C}' <= c <= ' ') || c == '\U{85}' || c == '\U{A0}'
      || c == '\U{1680}' || ('\U{2000}' <= c <= '\U{200A}') || c == '\U{2028}' || c == '\U{2029}'
      || c == '\U{202F}' || c == '\U{205F}' || c == '\U{3000}'
    case JsWhitespace =>
      ('\t' <= c <= '\r') || c == ' ' || c == '\U{A0}'
      || c == '\U{1680}' || ('\U{2000}' <= c <= '\U{200A}') || c == '\U{2028}' || c == '\U{2029}'
      || c == '\U{202F}' || c == '\U{205F}' || c == '\U{3000}' || c == '\U{FEFF}'
  }

  predicate AllBlank(b: Blank, s: string)
  {
    forall i :: 0 <= i < |s| ==> IsBlank(b, s[i])
  }

  /** Length of the run of non-blank characters that starts `s`. */
  function RunLength(b: Blank, s: string): (k: nat)
    ensures k <= |s|
    ensures forall i :: 0 <= i < k ==> !IsBlank(b, s[i])
    ensures k < |s| ==> IsBlank(b, s[k])
    decreases |s|
  {
    if |s| == 0 || IsBlank(b, s[0]) then 0 else 1 + RunLength(b, s[1..])
  }

  /**
   * The maximal runs of non-blank characters, in order: Python `s.split()` for
   * PyWhitespace, JavaScript `s.split(/\s+/).filter(w => w.length > 0)` for JsWhitespace.
   */
  function Words(b: Blank, s: string): (ws: seq<string>)
    ensures forall i :: 0 <= i < |ws| ==> ws[i] != "" && !HasBlank(b, ws[i])
    decreases |s|
  {
    if |s| == 0 then []
    else if IsBlank(b, s[0]) then Words(b, s[1..])
    else
      var k := RunLength(b, s);
      [s[..k]] + Words(b, s[k..])
  }

  predicate HasBlank(b: Blank, s: string)
  {
    exists i :: 0 <= i < |s| && IsBlank(b, s[i])
  }

  lemma {:induction false} RunLengthOfWord(b: Blank, w: string, t: string)
    requires !HasBlank(b, w)
    requires t == [] || IsBlank(b, t[0])
    ensures RunLength(b, w + t) == |w|
    decreases |w|
  {
    if |w| > 0 {
      assert !IsBlank(b, w[0]);
      assert !HasBlank(b, w[1..]) by {
        forall i | 0 <= i < |w[1..]| ensures !IsBlank(b, w[1..][i]) {
          assert w[1..][i] == w[i + 1];
        }
      }
      assert (w + t)[1..] == w[1..] + t;
      RunLengthOfWord(b, w[1..], t);
    } else {
      assert w + t == t;
    }
  }

  /** Words of a blank-free non-empty word followed by a space and more text. */
  lemma {:induction false} WordsAfterWord(b: Blank, w: string, t: string)
    requires w != [] && !HasBlank(b, w) && IsBlank(b, ' ')
    ensures Words(b, w + " " + t) == [w] + Words(b, t)
  {
    var s := w + " " + t;
    RunLengthOfWord(b, w, " " + t);
    assert s == w + (" " + t);
    assert s[..|w|] == w;
    assert s[|w|..] == " " + t;
    assert (" " + t)[1..] == t;
    assert !IsBlank(b, s[0]) by { assert s[0] == w[0]; }
  }

  /** Python `len(" ".join(ws).split()) == len(ws)` and its JavaScript counterpart. */
  lemma {:induction false} WordsJoin(b: Blank, ws: seq<string>)
    requires IsBlank(b, ' ')
    requires forall i :: 0 <= i < |ws| ==> ws[i] != "" && !HasBlank(b, ws[i])
    ensures Words(b, Join(ws, " ")) == ws
    decreases |ws|
  {
    if |ws| == 1 {
      RunLengthOfWord(b, ws[0], "");
      assert ws[0] + "" == ws[0];
      assert ws[0][..|ws[0]|] == ws[0];
      assert ws[0][|ws[0]|..] == "";
      assert !IsBlank(b, ws[0][0]);
    } else if |ws| > 1 {
      WordsJoin(b, ws[1..]);
      WordsAfterWord(b, ws[0], Join(ws[1..], " "));
      assert [ws[0]] + ws[1..] == ws;
    }
  }

  /**
   * JavaScript `s.split(' ').filter(w => w.length > 0)` gives exactly the maximal runs of
   * non-space characters.
   */
  lemma {:induction false} NonEmptySplitWords(s: string)
    ensures NonEmpty(Split(s, ' ')) == Words(SpaceOnly, s)
    decreases |s|
  {
    if |s| == 0 {
    } else if s[0] == ' ' {
      NonEmptySplitWords(s[1..]);
    } else {
      var k := RunLength(SpaceOnly, s);
      var w := s[..k];
      assert ' ' !in w by {
        forall i | 0 <= i < |w| ensures w[i] != ' ' { assert w[i] == s[i]; }
      }
      if k == |s| {
        assert w == s;
        SplitNoSeparator(s, ' ');
        assert s[k..] == "";
        assert NonEmpty([s]) == [s] + NonEmpty([]) by { assert [s][1..] == []; }
      } else {
        var t := s[k + 1..];
        assert s == w + [' '] + t;
        SplitAfterPiece(w, t, ' ');
        NonEmptySplitWords(t);
        assert s[k..][1..] == t;
        assert ([w] + Split(t, ' '))[1..] == Split(t, ' ');
      }
    }
  }

  /** A string has no words exactly when every character in it is blank. */
  lemma {:induction false} WordsEmptyIffAllBlank(b: Blank, s: string)
    ensures Words(b, s) == [] <==> AllBlank(b, s)
    decreases |s|
  {
    if |s| > 0 {
      WordsEmptyIffAllBlank(b, s[1..]);
      if IsBlank(b, s[0]) {
        assert AllBlank(b, s) <==> AllBlank(b, s[1..]) by {
          if AllBlank(b, s[1..]) {
            forall i | 0 <= i < |s| ensures IsBlank(b, s[i]) {
              if i > 0 { assert s[i] == s[1..][i - 1]; }
            }
          }
        }
      }
    }
  }

  /** Drop leading blanks. */
  function TrimStart(b: Blank, s: string): (r: string)
    ensures |r| <= |s|
    decreases |s|
  {
    if |s| > 0 && IsBlank(b, s[0]) then TrimStart(b, s[1..]) else s
  }

  /** Drop trailing blanks. */
  function TrimEnd(b: Blank, s: string): (r: string)
    ensures |r| <= |s|
    decreases |s|
  {
    if |s| > 0 && IsBlank(b, s[|s| - 1]) then TrimEnd(b, s[..|s| - 1]) else s
  }

  /** Python `s.strip()`. */
  function Strip(s: string): string
  {
    TrimEnd(PyWhitespace, TrimStart(PyWhitespace, s))
  }

  lemma {:induction false} TrimStartEmpty(b: Blank, s: string)
    ensures TrimStart(b, s) == "" <==> AllBlank(b, s)
    decreases |s|
  {
    if |s| > 0 && IsBlank(b, s[0]) {
      TrimStartEmpty(b, s[1..]);
      if AllBlank(b, s[1..]) {
        forall i | 0 <= i < |s| ensures IsBlank(b, s[i]) {
          if i > 0 { assert s[i] == s[1..][i - 1]; }
        }
      }
    }
  }

  lemma {:induction false} TrimEndOfNonBlankStart(b: Blank, s: string)
    requires |s| > 0 && !IsBlank(b, s[0])
    ensures TrimEnd(b, s) != ""
    decreases |s|
  {
    if IsBlank(b, s[|s| - 1]) {
      TrimEndOfNonBlankStart(b, s[..|s| - 1]);
    }
  }

  /** `not s.strip()` holds exactly for the empty and the all-whitespace strings. */
  lemma StripEmptyIffBlank(s: string)
    ensures Strip(s) == "" <==> AllBlank(PyWhitespace, s)
  {
    var t := TrimStart(PyWhitespace, s);
    TrimStartEmpty(PyWhitespace, s);
    if t != "" {
      assert !IsBlank(PyWhitespace, t[0]) by { TrimStartShape(PyWhitespace, s); }
      TrimEndOfNonBlankStart(PyWhitespace, t);
    }
  }

  lemma {:induction false} TrimStartShape(b: Blank, s: string)
    ensures TrimStart(b, s) != "" ==> !IsBlank(b, TrimStart(b, s)[0])
    decreases |s|
  {
    if |s| > 0 && IsBlank(b, s[0]) {
      TrimStartShape(b, s[1..]);
    }
  }

  /** Trimming the front leaves a suffix. */
  lemma {:induction false} TrimStartSuffix(b: Blank, s: string) returns (k: nat)
    ensures k <= |s| && TrimStart(b, s) == s[k..]
    decreases |s|
  {
    if |s| > 0 && IsBlank(b, s[0]) {
      var j := TrimStartSuffix(b, s[1..]);
      assert s[1..][j..] == s[j + 1..];
      k := j + 1;
    } else {
      k := 0;
    }
  }

  /** Trimming the end leaves a prefix whose last character is not blank. */
  lemma {:induction false} TrimEndPrefix(b: Blank, s: string) returns (k: nat)
    ensures k <= |s| && TrimEnd(b, s) == s[..k]
    ensures k > 0 ==> !IsBlank(b, s[k - 1])
    decreases |s|
  {
    if |s| > 0 && IsBlank(b, s[|s| - 1]) {
      k := TrimEndPrefix(b, s[..|s| - 1]);
      assert s[..|s| - 1][..k] == s[..k];
    } else {
      k := |s|;
    }
  }

  /** A stripped string that is not empty starts and ends with a non-blank character. */
  lemma StripShape(s: string)
    ensures var t := Strip(s); t != "" ==> !IsBlank(PyWhitespace, t[0]) && !IsBlank(PyWhitespace, t[|t| - 1])
  {
    var u := TrimStart(PyWhitespace, s);
    TrimStartShape(PyWhitespace, s);
    var k := TrimEndPrefix(PyWhitespace, u);
  }

  /** Stripping takes out a slice, so it brings in no character that was not there. */
  lemma StripAvoids(s: string, c: char)
    requires c !in s
    ensures c !in Strip(s)
  {
    var i := TrimStartSuffix(PyWhitespace, s);
    var u := TrimStart(PyWhitespace, s);
    var j := TrimEndPrefix(PyWhitespace, u);
    assert forall m :: 0 <= m < j ==> u[..j][m] == s[i + m];
  }

  /** Stripping again changes nothing. */
  lemma StripIdempotent(s: string)
    ensures Strip(Strip(s)) == Strip(s)
  {
    var t := Strip(s);
    StripShape(s);
    if t != "" {
      assert TrimStart(PyWhitespace, t) == t;
      var k := TrimEndPrefix(PyWhitespace, t);
      assert t[..|t|] == t;
    }
  }

  // ---------------------------------------------------------------------------
  // Case, prefixes and substrings
  // ---------------------------------------------------------------------------

  function LowerChar(c: char): char
  {
    if 'A' <= c <= 'Z' then (c as int + 32) as char else c
  }

  /** `toLowerCase()` / `lower()` restricted to the ASCII letters. */
  function Lower(s: string): (r: string)
    ensures |r| == |s|
    ensures forall i :: 0 <= i < |s| ==> r[i] == LowerChar(s[i])
  {
    seq(|s|, i requires 0 <= i < |s| => LowerChar(s[i]))
  }

  /** `s.startsWith(p)` / `s.startswith(p)`. */
  predicate StartsWith(s: string, p: string)
  {
    |p| <= |s| && s[..|p|] == p
  }

  /** `sub in s` (Python) / `s.includes(sub)` (JavaScript). */
  predicate Contains(s: string, sub: string)
    decreases |s|
  {
    StartsWith(s, sub) || (|s| > 0 && Contains(s[1..], sub))
  }

  lemma {:induction false} ContainsAt(s: string, sub: string, i: nat)
    requires i + |sub| <= |s| && s[i..i + |sub|] == sub
    ensures Contains(s, sub)
    decreases i
  {
    if i > 0 {
      assert s[1..][i - 1..i - 1 + |sub|] == s[i..i + |sub|];
      ContainsAt(s[1..], sub, i - 1);
    }
  }

  lemma {:induction false} ContainsIndex(s: string, sub: string) returns (i: nat)
    requires Contains(s, sub)
    ensures i + |sub| <= |s| && s[i..i + |sub|] == sub
    decreases |s|
  {
    if StartsWith(s, sub) {
      i := 0;
    } else {
      var j := ContainsIndex(s[1..], sub);
      assert s[1..][j..j + |sub|] == s[j + 1..j + 1 + |sub|];
      i := j + 1;
    }
  }

  /** Python `c * n`: `n` copies, none when `n` is zero or negative. */
  function Repeat(c: char, n: int): (r: string)
    ensures |r| == if n <= 0 then 0 else n
    ensures forall i :: 0 <= i < |r| ==> r[i] == c
  {
    if n <= 0 then "" else seq(n, _ => c)
  }

  lemma CountRepeat(c: char, n: int, d: char)
    ensures Count(Repeat(c, n), d) == if c == d && n > 0 then n else 0
  {
    if n > 0 {
      CountOfRun(Repeat(c, n), c, d);
    }
  }

  lemma {:induction false} CountOfRun(s: string, c: char, d: char)
    requires forall i :: 0 <= i < |s| ==> s[i] == c
    ensures Count(s, d) == if c == d then |s| else 0
    decreases |s|
  {
    if |s| > 0 {
      CountOfRun(s[1..], c, d);
    }
  }

  // ---------------------------------------------------------------------------
  // Decimal rendering
  // ---------------------------------------------------------------------------

  function DigitChar(d: nat): char
    requires d < 10
  {
    ('0' as int + d) as char
  }

  predicate IsDigit(c: char)
  {
    '0' <= c <= '9'
  }

  /** The decimal digits of a natural number, most significant first, no leading zeros. */
  function Digits(n: nat): (s: string)
    ensures |s| >= 1
    ensures forall i :: 0 <= i < |s| ==> IsDigit(s[i])
    decreases n
  {
    if n < 10 then [DigitChar(n)] else Digits(n / 10) + [DigitChar(n % 10)]
  }

  /** Reads a string of decimal digits back into its value. */
  function DigitsValue(s: string): nat
    requires forall i :: 0 <= i < |s| ==> IsDigit(s[i])
  {
    if |s| == 0 then 0
    else
      assert IsDigit(s[|s| - 1]);
      DigitsValue(s[..|s| - 1]) * 10 + (s[|s| - 1] as int - '0' as int)
  }

  /** `s` is a string of decimal digits whose value is `v`. */
  predicate ReadsAs(s: string, v: int)
  {
    (forall i :: 0 <= i < |s| ==> IsDigit(s[i])) && DigitsValue(s) == v
  }

  lemma {:induction false} DigitsRoundTrip(n: nat)
    ensures DigitsValue(Digits(n)) == n
    decreases n
  {
    if n >= 10 {
      DigitsRoundTrip(n / 10);
      var s := Digits(n);
      assert s[..|s| - 1] == Digits(n / 10);
    }
  }

  lemma {:induction false} DigitsLength(n: nat)
    ensures |Digits(n)| == 1 <==> n < 10
    ensures n < 100 ==> |Digits(n)| <= 2
  {
    if n >= 10 {
      assert |Digits(n / 10)| >= 1;
      if n < 100 {
        assert n / 10 < 10;
      }
    }
  }

  /** JavaScript `String(n)` and Python `str(n)` for an integer. */
  function IntToString(n: int): string
  {
    if n < 0 then "-" + Digits(-n) else Digits(n)
  }

  /** JavaScript `s.padStart(width, fill)`; at width 2 with fill '0' also Python's `:02d`. */
  function PadStart(s: string, width: nat, fill: char): (r: string)
    ensures |r| == if |s| >= width then |s| else width
  {
    if |s| >= width then s else Repeat(fill, width - |s|) + s
  }

  /** A rendered integer holds only digits and possibly a leading minus sign, padded or not. */
  lemma DecimalCharacters(n: int, width: nat)
    ensures forall i :: 0 <= i < |PadStart(IntToString(n), width, '0')| ==>
      IsDigit(PadStart(IntToString(n), width, '0')[i]) || PadStart(IntToString(n), width, '0')[i] == '-'
  {
    var s := IntToString(n);
    assert forall i :: 0 <= i < |s| ==> IsDigit(s[i]) || s[i] == '-' by {
      if n < 0 {
        assert forall i :: 1 <= i < |s| ==> s[i] == Digits(-n)[i - 1];
      }
    }
  }

  /** Neither an integer's rendering nor its two-digit form holds a line break. */
  lemma DecimalNoNewline(n: int)
    ensures '\n' !in IntToString(n) && '\n' !in TwoDigits(n)
  {
    DecimalCharacters(n, 0);
    DecimalCharacters(n, 2);
    assert PadStart(IntToString(n), 0, '0') == IntToString(n);
  }

  /** Padding only adds fill characters in front: the original string is the suffix. */
  lemma PadStartSuffix(s: string, width: nat, fill: char)
    ensures var r := PadStart(s, width, fill);
      r[|r| - |s|..] == s && forall i :: 0 <= i < |r| - |s| ==> r[i] == fill
  {
  }

  /** `n.toString().padStart(2, '0')` in JavaScript, f"{n:02d}" in Python. */
  function TwoDigits(n: int): string
  {
    PadStart(IntToString(n), 2, '0')
  }

  lemma TwoDigitsShape(n: nat)
    requires n < 100
    ensures |TwoDigits(n)| == 2
    ensures IsDigit(TwoDigits(n)[0]) && IsDigit(TwoDigits(n)[1])
    ensures DigitsValue(TwoDigits(n)) == n
  {
    DigitsLength(n);
    DigitsRoundTrip(n);
    var d := Digits(n);
    if n < 10 {
      var t := TwoDigits(n);
      assert t == "0" + d;
      assert t[..1] == "0";
      assert DigitsValue(t[..1]) == 0 by {
        assert t[..1][..0] == [];
      }
      assert t[..|t| - 1] == "0";
    }
  }
}
