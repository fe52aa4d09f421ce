/**
 * String operations shared by the list-maintenance scripts: Python's
 * `str.isspace`, `str.lower`, `str.strip`/`rstrip`, `str.readlines` and
 * string ordering, and JavaScript's `String.prototype.split` and
 * `Array.prototype.join`, all on ASCII text.
 */
module Strings {

  /** Python's `str.isspace()` on ASCII: space, \t \n \v \f \r and the separators 0x1C to 0x1F. */
  predicate IsSpace(c: char) {
    c as int == 32 || 9 <= c as int <= 13 || 28 <= c as int <= 31
  }

  predicate IsUpper(c: char) {
    'A' <= c <= 'Z'
  }

  /** Python's `str.lower()` on one ASCII character. */
  function LowerChar(c: char): (d: char)
    ensures !IsUpper(d)
    ensures IsSpace(d) <==> IsSpace(c)
    ensures IsUpper(c) || d == c
  {
    if IsUpper(c) then (c as int + 32) as char else c
  }

  /** Python's `str.lower()`. */
  function Lower(s: string): (r: string)
    ensures |r| == |s|
    ensures forall i :: 0 <= i < |r| ==> !IsUpper(r[i])
    ensures forall i :: 0 <= i < |s| && !IsUpper(s[i]) ==> r[i] == s[i]
    ensures forall i :: 0 <= i < |s| && IsUpper(s[i]) ==> r[i] as int == s[i] as int + 32
    ensures forall i :: 0 <= i < |s| ==> (IsSpace(r[i]) <==> IsSpace(s[i]))
  {
    seq(|s|, i requires 0 <= i < |s| => LowerChar(s[i]))
  }

  /** Lower-casing twice is lower-casing once. */
  lemma LowerIdempotent(s: string)
    ensures Lower(Lower(s)) == Lower(s)
  {
    var r := Lower(s);
    assert forall i :: 0 <= i < |r| ==> Lower(r)[i] == r[i];
  }

  /** Python's `str.lstrip()`: drop the leading whitespace. */
  function LStrip(s: string): string {
    if s != [] && IsSpace(s[0]) then LStrip(s[1..]) else s
  }

  /** `lstrip()` removes exactly the leading run of whitespace. */
  lemma {:induction false} LStripSpec(s: string)
    ensures |LStrip(s)| <= |s| && LStrip(s) == s[|s| - |LStrip(s)|..]
    ensures forall i :: 0 <= i < |s| - |LStrip(s)| ==> IsSpace(s[i])
    ensures LStrip(s) == [] || !IsSpace(LStrip(s)[0])
    decreases |s|
  {
    if s != [] && IsSpace(s[0]) {
      LStripSpec(s[1..]);
    }
  }

  /** Python's `str.rstrip()`: drop the trailing whitespace. */
  function RStrip(s: string): string {
    if s != [] && IsSpace(s[|s| - 1]) then RStrip(s[..|s| - 1]) else s
  }

  /** `rstrip()` removes exactly the trailing run of whitespace. */
  lemma {:induction false} RStripSpec(s: string)
    ensures |RStrip(s)| <= |s| && RStrip(s) == s[..|RStrip(s)|]
    ensures forall i :: |RStrip(s)| <= i < |s| ==> IsSpace(s[i])
    ensures RStrip(s) == [] || !IsSpace(RStrip(s)[|RStrip(s)| - 1])
    decreases |s|
  {
    if s != [] && IsSpace(s[|s| - 1]) {
      RStripSpec(s[..|s| - 1]);
    }
  }

  /** Python's `str.strip()`. */
  function Strip(s: string): string {
    RStrip(LStrip(s))
  }

  /** A string that `strip()` leaves alone: it neither starts nor ends with whitespace. */
  predicate Trimmed(s: string) {
    |s| == 0 || (!IsSpace(s[0]) && !IsSpace(s[|s| - 1]))
  }

  lemma StripResult(s: string)
    ensures Trimmed(Strip(s))
    ensures forall k :: 0 <= k < |Strip(s)| ==> Strip(s)[k] in s
  {
    var l := LStrip(s);
    var r := RStrip(l);
    LStripSpec(s);
    RStripSpec(l);
    if r != [] {
      assert r[0] == l[0];
    }
    forall k | 0 <= k < |r| ensures r[k] in s {
      assert r[k] == l[k] == s[|s| - |l| + k];
    }
  }

  lemma StripTrimmed(s: string)
    requires Trimmed(s)
    ensures Strip(s) == s
  {
  }

  /** Stripping a string that is whitespace followed by a trimmed string leaves the trimmed string. */
  lemma {:induction false} StripLeadingSpace(w: string, s: string)
    requires forall i :: 0 <= i < |w| ==> IsSpace(w[i])
    requires Trimmed(s)
    ensures Strip(w + s) == s
  {
    if w == [] {
      assert w + s == s;
    } else {
      assert (w + s)[1..] == w[1..] + s;
      StripLeadingSpace(w[1..], s);
    }
  }

  /** Stripping a trimmed string followed by whitespace leaves the trimmed string. */
  lemma {:induction false} RStripTrailingSpace(s: string, w: string)
    requires forall i :: 0 <= i < |w| ==> IsSpace(w[i])
    requires s == [] || !IsSpace(s[|s| - 1])
    ensures RStrip(s + w) == s
  {
    if w == [] {
      assert s + w == s;
    } else {
      assert (s + w)[..|s + w| - 1] == s + w[..|w| - 1];
      RStripTrailingSpace(s, w[..|w| - 1]);
    }
  }

  // ---------------------------------------------------------------------
  // Ordering of strings by code point, as Python's `<` on `str`
  // ---------------------------------------------------------------------

  /** `a < b` on Python strings: lexicographic on code points, a proper prefix first. */
  predicate Less(a: string, b: string) {
    if a == [] then b != []
    else if b == [] then false
    else if a[0] == b[0] then Less(a[1..], b[1..])
    else a[0] < b[0]
  }

  lemma {:induction false} LessIrreflexive(a: string)
    ensures !Less(a, a)
  {
    if a != [] {
      LessIrreflexive(a[1..]);
    }
  }

  lemma {:induction false} LessAsymmetric(a: string, b: string)
    requires Less(a, b)
    ensures !Less(b, a)
  {
    if a != [] && b != [] && a[0] == b[0] {
      LessAsymmetric(a[1..], b[1..]);
    }
  }

  lemma {:induction false} LessTransitive(a: string, b: string, c: string)
    requires Less(a, b) && Less(b, c)
    ensures Less(a, c)
  {
    if a != [] && a[0] == b[0] && b[0] == c[0] {
      LessTransitive(a[1..], b[1..], c[1..]);
    }
  }

  lemma {:induction false} LessTotal(a: string, b: string)
    requires a != b
    ensures Less(a, b) || Less(b, a)
  {
    if a != [] && b != [] && a[0] == b[0] {
      assert a == [a[0]] + a[1..] && b == [b[0]] + b[1..];
      LessTotal(a[1..], b[1..]);
    }
  }

  /** The empty string sorts before every other string. */
  lemma EmptyLeast(a: string)
    requires a != []
    ensures Less([], a)
  {
  }

  // ---------------------------------------------------------------------
  // JavaScript `split` and `join` on a one-character separator
  // ---------------------------------------------------------------------

  /** `s.split(sep)`: the pieces between separators; always at least one piece. */
  function Split(s: string, sep: char): (pieces: seq<string>)
    ensures |pieces| >= 1
    ensures forall i :: 0 <= i < |pieces| ==> sep !in pieces[i]
    decreases |s|
  {
    if s == [] then [[]]
    else
      var rest := Split(s[1..], sep);
      if s[0] == sep then [[]] + rest
      else [[s[0]] + rest[0]] + rest[1..]
  }

  /** `pieces.join(sep)`. */
  function Join(pieces: seq<string>, sep: char): (s: string)
    decreases |pieces|
  {
    if |pieces| == 0 then []
    else if |pieces| == 1 then pieces[0]
    else pieces[0] + [sep] + Join(pieces[1..], sep)
  }

  /** Joining the pieces of a split gives back the original text. */
  lemma {:induction false} JoinSplit(s: string, sep: char)
    ensures Join(Split(s, sep), sep) == s
    decreases |s|
  {
    if s != [] {
      var rest := Split(s[1..], sep);
      JoinSplit(s[1..], sep);
      if s[0] == sep {
        assert Split(s, sep) == [[]] + rest;
        assert ([[]] + rest)[1..] == rest;
        assert s == [sep] + s[1..];
      } else {
        var p := Split(s, sep);
        assert p == [[s[0]] + rest[0]] + rest[1..];
        if |rest| == 1 {
          assert Join(p, sep) == [s[0]] + rest[0];
          assert s == [s[0]] + s[1..];
        } else {
          assert p[1..] == rest[1..];
          assert Join(rest, sep) == rest[0] + [sep] + Join(rest[1..], sep);
          assert Join(p, sep) == [s[0]] + rest[0] + [sep] + Join(rest[1..], sep);
          assert s == [s[0]] + s[1..];
        }
      }
    }
  }

  /** Splitting a join of separator-free pieces gives back the pieces. */
  lemma {:induction false} SplitJoin(pieces: seq<string>, sep: char)
    requires |pieces| >= 1
    requires forall i :: 0 <= i < |pieces| ==> sep !in pieces[i]
    ensures Split(Join(pieces, sep), sep) == pieces
    decreases |pieces|
  {
    if |pieces| == 1 {
      SplitFree(pieces[0], sep);
    } else {
      SplitJoin(pieces[1..], sep);
      SplitPrefix(pieces[0], Join(pieces[1..], sep), sep);
      assert Join(pieces, sep) == pieces[0] + ([sep] + Join(pieces[1..], sep));
      assert pieces == [pieces[0]] + pieces[1..];
    }
  }

  /** A separator-free text splits into itself. */
  lemma {:induction false} SplitFree(s: string, sep: char)
    requires sep !in s
    ensures Split(s, sep) == [s]
    decreases |s|
  {
    if s != [] {
      SplitFree(s[1..], sep);
      assert s == [s[0]] + s[1..];
    }
  }

  /** A separator-free prefix becomes the first piece. */
  lemma {:induction false} SplitPrefix(p: string, t: string, sep: char)
    requires sep !in p
    ensures Split(p + ([sep] + t), sep) == [p] + Split(t, sep)
    decreases |p|
  {
    if p == [] {
      assert p + ([sep] + t) == [sep] + t;
      assert ([sep] + t)[1..] == t;
    } else {
      var s := p + ([sep] + t);
      assert s[1..] == p[1..] + ([sep] + t);
      SplitPrefix(p[1..], t, sep);
      assert p == [p[0]] + p[1..];
    }
  }

  // ---------------------------------------------------------------------
  // Python `readlines()`
  // ---------------------------------------------------------------------

  function Concat(lines: seq<string>): string
    decreases |lines|
  {
    if lines == [] then [] else lines[0] + Concat(lines[1..])
  }

  /** Length of the first line of `s`, its newline included when there is one. */
  function LineEnd(s: string): (n: nat)
    requires s != []
    ensures 0 < n <= |s|
    ensures '\n' !in s[..n - 1]
    ensures n < |s| ==> s[n - 1] == '\n'
    decreases |s|
  {
    if s[0] == '\n' || |s| == 1 then 1
    else
      var m := LineEnd(s[1..]);
      assert s[..m] == [s[0]] + s[1..][..m - 1];
      1 + m
  }

  /** A line as `readlines()` yields it: non-empty, with a newline only as its last character. */
  predicate IsLine(line: string) {
    line != [] && '\n' !in line[..|line| - 1]
  }

  predicate EndsWithNewline(line: string) {
    line != [] && line[|line| - 1] == '\n'
  }

  /** Python's `readlines()`: every line keeps its newline, the last line may lack one. */
  function ReadLines(s: string): seq<string>
    decreases |s|
  {
    if s == [] then []
    else
      var n := LineEnd(s);
      [s[..n]] + ReadLines(s[n..])
  }

  /** The lines put back together give the text; each is a line, and all but the last end in a newline. */
  lemma {:induction false} ReadLinesSpec(s: string)
    ensures Concat(ReadLines(s)) == s
    ensures forall i :: 0 <= i < |ReadLines(s)| ==> IsLine(ReadLines(s)[i])
    ensures forall i :: 0 <= i < |ReadLines(s)| - 1 ==> EndsWithNewline(ReadLines(s)[i])
    decreases |s|
  {
    if s != [] {
      var n := LineEnd(s);
      var rest := ReadLines(s[n..]);
      var first := s[..n];
      ReadLinesSpec(s[n..]);
      assert first[..n - 1] == s[..n - 1];
      assert IsLine(first);
      assert n < |s| ==> EndsWithNewline(first);
      assert s == first + s[n..];
      assert ReadLines(s) == [first] + rest;
      assert Concat(ReadLines(s)) == first + Concat(rest);
    }
  }

  /** Each piece followed by a newline, except the last. */
  function Terminated(pieces: seq<string>): (lines: seq<string>)
    decreases |pieces|
  {
    if |pieces| <= 1 then pieces else [pieces[0] + "\n"] + Terminated(pieces[1..])
  }

  lemma TerminatedShape(pieces: seq<string>)
    ensures |Terminated(pieces)| == |pieces|
    ensures forall i :: 0 <= i < |pieces| - 1 ==> Terminated(pieces)[i] == pieces[i] + "\n"
    ensures |pieces| > 0 ==> Terminated(pieces)[|pieces| - 1] == pieces[|pieces| - 1]
    decreases |pieces|
  {
    if |pieces| > 1 {
      TerminatedShape(pieces[1..]);
    }
  }

  /** Reading back a newline-joined list of non-empty, newline-free lines. */
  lemma {:induction false} ReadLinesJoin(pieces: seq<string>)
    requires forall i :: 0 <= i < |pieces| ==> |pieces[i]| > 0 && '\n' !in pieces[i]
    ensures ReadLines(Join(pieces, '\n')) == Terminated(pieces)
    decreases |pieces|
  {
    if |pieces| == 1 {
      var s := pieces[0];
      assert LineEnd(s) == |s|;
      assert s[|s|..] == [];
      assert s[..|s|] == s;
    } else if |pieces| > 1 {
      ReadLinesJoin(pieces[1..]);
      var p := pieces[0];
      var t := Join(pieces[1..], '\n');
      var s := Join(pieces, '\n');
      assert s == (p + "\n") + t;
      assert s[|p|] == '\n';
      assert LineEnd(s) == |p| + 1;
      assert s[..|p| + 1] == p + "\n";
      assert s[|p| + 1..] == t;
    }
  }
}
