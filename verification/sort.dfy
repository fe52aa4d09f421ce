/**
 * The list normaliser: lower-cases and strips every line of the provider
 * list, drops repeated entries, sorts what is left and writes it back
 * joined by newlines, with no trailing newline.
 */
module Sort {
  import opened Strings
  import Checks

  /** One line as the normaliser rewrites it: lower-cased, then stripped of surrounding whitespace. */
  function Normalise(line: string): string {
    Strip(Lower(line))
  }

  function Normalised(lines: seq<string>): (r: seq<string>)
    ensures |r| == |lines|
  {
    seq(|lines|, i requires 0 <= i < |lines| => Normalise(lines[i]))
  }

  /** Each entry sorts strictly before the next one. */
  predicate Increasing(xs: seq<string>) {
    forall i :: 0 < i < |xs| ==> Less(xs[i - 1], xs[i])
  }

  /** A text with no surrounding whitespace, no line break and no upper-case letter. */
  predicate Clean(s: string) {
    Trimmed(s) && '\n' !in s && forall k :: 0 <= k < |s| ==> !IsUpper(s[k])
  }

  /** Adds `x` to an increasing list unless it is already there. */
  function Insert(x: string, xs: seq<string>): seq<string>
    decreases |xs|
  {
    if xs == [] then [x]
    else if x == xs[0] then xs
    else if Less(x, xs[0]) then [x] + xs
    else [xs[0]] + Insert(x, xs[1..])
  }

  /** `sorted(set(xs))`: the distinct entries of `xs` in increasing order. */
  function SortedSet(xs: seq<string>): seq<string>
    decreases |xs|
  {
    if xs == [] then [] else Insert(xs[|xs| - 1], SortedSet(xs[..|xs| - 1]))
  }

  /** The text the normaliser writes back for a list file holding `content`. */
  function SortedList(content: string): string {
    Strip(Join(SortedSet(Normalised(ReadLines(content))), '\n'))
  }

  /**
   * The normaliser as a program: reads the lines into an array, rewrites
   * each line in place, then sorts the distinct lines and joins them.
   * The written text is the newline-joined list of distinct non-empty
   * entries described by `Entries`.
   */
  method SortFile(content: string) returns (written: string)
    ensures written == SortedList(content)
    ensures written == Join(Entries(content), '\n')
  {
    var read := ReadLines(content);
    var lines := new string[|read|](i requires 0 <= i < |read| => read[i]);
    for i := 0 to lines.Length
      invariant forall k :: 0 <= k < i ==> lines[k] == Normalise(read[k])
      invariant forall k :: i <= k < lines.Length ==> lines[k] == read[k]
    {
      lines[i] := Normalise(lines[i]);
    }
    assert lines[..] == Normalised(read);
    var unique := SortedSet(lines[..]);
    written := Strip(Join(unique, '\n'));
    WrittenIsJoinOfEntries(content);
  }

  // ---------------------------------------------------------------------
  // Increasing lists and the distinct-and-sorted step
  // ---------------------------------------------------------------------

  /** In an increasing list every entry sorts before every later one. */
  lemma {:induction false} IncreasingPairs(xs: seq<string>)
    requires Increasing(xs)
    ensures forall i, j :: 0 <= i < j < |xs| ==> Less(xs[i], xs[j])
    decreases |xs|
  {
    if |xs| > 1 {
      var p := xs[..|xs| - 1];
      IncreasingPairs(p);
      forall i, j | 0 <= i < j < |xs| ensures Less(xs[i], xs[j]) {
        if j < |xs| - 1 {
          assert xs[i] == p[i] && xs[j] == p[j];
        } else if i < j - 1 {
          assert Less(p[i], p[j - 1]);
          LessTransitive(xs[i], xs[j - 1], xs[j]);
        }
      }
    }
  }

  /** Inserting keeps the list increasing, adds exactly `x`, and puts either `x` or the old head first. */
  lemma {:induction false} InsertSpec(x: string, xs: seq<string>)
    requires Increasing(xs)
    ensures Increasing(Insert(x, xs))
    ensures forall y :: y in Insert(x, xs) <==> y == x || y in xs
    ensures Insert(x, xs)[0] == x || (xs != [] && Insert(x, xs)[0] == xs[0])
    decreases |xs|
  {
    if xs != [] && x != xs[0] && !Less(x, xs[0]) {
      var t := xs[1..];
      assert Increasing(t);
      InsertSpec(x, t);
      LessTotal(x, xs[0]);
      var r := Insert(x, xs);
      assert r == [xs[0]] + Insert(x, t);
      if t != [] {
        assert Less(xs[0], t[0]);
      }
      assert Less(xs[0], r[1]);
      forall i | 0 < i < |r| ensures Less(r[i - 1], r[i]) {
        if i > 1 {
          assert r[i - 1] == Insert(x, t)[i - 2] && r[i] == Insert(x, t)[i - 1];
        }
      }
      assert xs == [xs[0]] + t;
    }
  }

  /** `SortedSet` is increasing and holds exactly the entries of its input. */
  lemma {:induction false} SortedSetSpec(xs: seq<string>)
    ensures Increasing(SortedSet(xs))
    ensures forall y :: y in SortedSet(xs) <==> y in xs
    decreases |xs|
  {
    if xs != [] {
      var p := xs[..|xs| - 1];
      SortedSetSpec(p);
      InsertSpec(xs[|xs| - 1], SortedSet(p));
      assert xs == p + [xs[|xs| - 1]];
    }
  }

  /** Two increasing lists with the same entries are the same list, so `SortedSet` is the only answer. */
  lemma {:induction false} IncreasingUnique(a: seq<string>, b: seq<string>)
    requires Increasing(a) && Increasing(b)
    requires forall y :: y in a <==> y in b
    ensures a == b
    decreases |a|
  {
    if a != [] {
      assert a[0] in b;
    }
    if b != [] {
      assert b[0] in a;
    }
    if a != [] && b != [] {
      IncreasingPairs(a);
      IncreasingPairs(b);
      if a[0] != b[0] {
        var k :| 0 <= k < |b| && b[k] == a[0];
        var m :| 0 <= m < |a| && a[m] == b[0];
        assert Less(b[0], a[0]);
        assert Less(a[0], b[0]);
        LessAsymmetric(a[0], b[0]);
      }
      forall y ensures y in a[1..] <==> y in b[1..] {
        if y in a[1..] {
          var k :| 0 <= k < |a[1..]| && a[1..][k] == y;
          assert Less(a[0], a[k + 1]);
          LessIrreflexive(y);
          assert y in b;
        }
        if y in b[1..] {
          var k :| 0 <= k < |b[1..]| && b[1..][k] == y;
          assert Less(b[0], b[k + 1]);
          LessIrreflexive(y);
          assert y in a;
        }
      }
      assert Increasing(a[1..]) && Increasing(b[1..]);
      IncreasingUnique(a[1..], b[1..]);
      assert a == [a[0]] + a[1..] && b == [b[0]] + b[1..];
    }
  }

  /** A list that is already increasing is left as it is. */
  lemma SortedSetOfIncreasing(xs: seq<string>)
    requires Increasing(xs)
    ensures SortedSet(xs) == xs
  {
    SortedSetSpec(xs);
    IncreasingUnique(SortedSet(xs), xs);
  }

  // ---------------------------------------------------------------------
  // What the normaliser writes
  // ---------------------------------------------------------------------

  /** The empty entry, if the input had one, sorts first; the trailing `strip()` removes it. */
  function DropEmpty(u: seq<string>): (r: seq<string>)
    ensures r == u || (u != [] && u[0] == [] && r == u[1..])
  {
    if u != [] && u[0] == [] then u[1..] else u
  }

  /** The distinct non-empty entries the normaliser keeps, in increasing order. */
  function Entries(content: string): seq<string> {
    DropEmpty(SortedSet(Normalised(ReadLines(content))))
  }

  /** `strip()` keeps a contiguous slice of its input. */
  lemma StripSlice(s: string) returns (a: nat)
    ensures a + |Strip(s)| <= |s|
    ensures Strip(s) == s[a..a + |Strip(s)|]
  {
    var t := LStrip(s);
    LStripSpec(s);
    RStripSpec(t);
    a := |s| - |t|;
    assert Strip(s) == t[..|Strip(s)|];
  }

  /** Lower-casing turns no character into a line break. */
  lemma LowerNoNewline(s: string, k: nat)
    requires k < |s| && s[k] != '\n'
    ensures Lower(s)[k] != '\n'
  {
  }

  /** A line of the list file comes out of the rewrite clean: no outer whitespace, no line break, no capital. */
  lemma NormaliseClean(line: string)
    requires IsLine(line)
    ensures Clean(Normalise(line))
  {
    var l := Lower(line);
    var r := Normalise(line);
    StripResult(l);
    var a := StripSlice(l);
    forall k | 0 <= k < |r| ensures r[k] != '\n' && !IsUpper(r[k]) {
      assert r[k] == l[a + k];
      if a + k < |line| - 1 {
        assert line[a + k] == line[..|line| - 1][a + k];
        LowerNoNewline(line, a + k);
      } else {
        assert k == |r| - 1;
      }
    }
  }

  /** Joining non-empty trimmed pieces gives a trimmed, non-empty text. */
  lemma {:induction false} JoinTrimmed(pieces: seq<string>, sep: char)
    requires pieces != []
    requires forall i :: 0 <= i < |pieces| ==> |pieces[i]| > 0 && Trimmed(pieces[i])
    ensures Join(pieces, sep) != []
    ensures Trimmed(Join(pieces, sep))
    decreases |pieces|
  {
    if |pieces| > 1 {
      JoinTrimmed(pieces[1..], sep);
      var t := Join(pieces[1..], sep);
      var s := Join(pieces, sep);
      assert s == pieces[0] + [sep] + t;
      assert s[0] == pieces[0][0];
      assert s[|s| - 1] == t[|t| - 1];
    }
  }

  /** Dropping the leading empty entry leaves an increasing list of exactly the non-empty entries. */
  lemma DropEmptySpec(u: seq<string>)
    requires Increasing(u)
    ensures forall i :: 0 < i < |u| ==> |u[i]| > 0
    ensures Increasing(DropEmpty(u))
    ensures forall i :: 0 <= i < |DropEmpty(u)| ==> |DropEmpty(u)[i]| > 0
    ensures forall y :: y in DropEmpty(u) <==> y != [] && y in u
  {
    IncreasingPairs(u);
    var e := DropEmpty(u);
    forall i | 0 < i < |u| ensures |u[i]| > 0 {
      assert Less(u[0], u[i]);
    }
    assert Increasing(e) by {
      forall i | 0 < i < |e| ensures Less(e[i - 1], e[i]) {
        if e != u {
          assert e[i - 1] == u[i] && e[i] == u[i + 1];
        }
      }
    }
    forall y | y != [] && y in u && e != u ensures y in e {
      var k :| 0 <= k < |u| && u[k] == y;
      assert y == e[k - 1];
    }
  }

  /** Stripping a join of non-empty trimmed pieces changes nothing. */
  lemma StripJoinTrimmed(e: seq<string>)
    requires e != []
    requires forall i :: 0 <= i < |e| ==> |e[i]| > 0 && Trimmed(e[i])
    ensures Strip(Join(e, '\n')) == Join(e, '\n')
  {
    JoinTrimmed(e, '\n');
    StripTrimmed(Join(e, '\n'));
  }

  /** An empty first piece contributes only its separator. */
  lemma JoinAfterEmpty(e: seq<string>, sep: char)
    requires e != []
    ensures Join([[]] + e, sep) == [sep] + Join(e, sep)
  {
    var u := [[]] + e;
    assert u[0] == [] && u[1..] == e;
    assert Join(u, sep) == u[0] + [sep] + Join(u[1..], sep);
  }

  /** Stripping a join that starts with the empty entry drops its leading newline. */
  lemma StripJoinAfterEmpty(e: seq<string>)
    requires e != []
    requires forall i :: 0 <= i < |e| ==> |e[i]| > 0 && Trimmed(e[i])
    ensures Strip(Join([[]] + e, '\n')) == Join(e, '\n')
  {
    JoinAfterEmpty(e, '\n');
    JoinTrimmed(e, '\n');
    StripLeadingSpace("\n", Join(e, '\n'));
  }

  /** Stripping the joined, sorted, distinct entries only removes the empty entry, which can only come first. */
  lemma StripJoin(u: seq<string>)
    requires forall i :: 0 <= i < |u| ==> Trimmed(u[i])
    requires forall i :: 0 < i < |u| ==> |u[i]| > 0
    ensures Strip(Join(u, '\n')) == Join(DropEmpty(u), '\n')
  {
    if u != [] {
      if |u[0]| > 0 {
        StripJoinTrimmed(u);
      } else if |u| > 1 {
        assert u == [[]] + u[1..];
        StripJoinAfterEmpty(u[1..]);
      }
    }
  }

  /** The normaliser writes the newline-joined entries; the entries are distinct, clean and hold exactly the non-empty rewritten lines. */
  lemma WrittenIsJoinOfEntries(content: string)
    ensures SortedList(content) == Join(Entries(content), '\n')
    ensures Increasing(Entries(content))
    ensures forall i :: 0 <= i < |Entries(content)| ==> |Entries(content)[i]| > 0 && Clean(Entries(content)[i])
    ensures forall y :: y in Entries(content) <==> y != [] && y in Normalised(ReadLines(content))
  {
    var lines := ReadLines(content);
    ReadLinesSpec(content);
    var n := Normalised(lines);
    var u := SortedSet(n);
    SortedSetSpec(n);
    forall i | 0 <= i < |u| ensures Clean(u[i]) {
      assert u[i] in n;
      var k :| 0 <= k < |n| && n[k] == u[i];
      NormaliseClean(lines[k]);
    }
    DropEmptySpec(u);
    StripJoin(u);
  }

  // ---------------------------------------------------------------------
  // Normalising twice, and the linter on normalised output
  // ---------------------------------------------------------------------

  /** A clean entry, with or without its newline, normalises and right-strips back to itself. */
  lemma EntryFixed(x: string, w: string)
    requires x != [] && Clean(x)
    requires w == "\n" || w == []
    ensures Normalise(x + w) == x
    ensures RStrip(x + w) == x
  {
    assert Lower(x + w) == x + w;
    RStripTrailingSpace(x, w);
    assert LStrip(x + w) == x + w;
  }

  /** Each entry with its newline, the last without, normalises and right-strips back to the entries. */
  lemma TerminatedFixed(e: seq<string>)
    requires forall i :: 0 <= i < |e| ==> |e[i]| > 0 && Clean(e[i])
    ensures Normalised(Terminated(e)) == e
    ensures forall i :: 0 <= i < |e| ==> RStrip(Terminated(e)[i]) == e[i]
  {
    TerminatedShape(e);
    var t := Terminated(e);
    forall i | 0 <= i < |e| ensures Normalise(t[i]) == e[i] && RStrip(t[i]) == e[i] {
      if i < |e| - 1 {
        EntryFixed(e[i], "\n");
      } else {
        EntryFixed(e[i], []);
        assert t[i] == e[i] + [];
      }
    }
  }

  /** Reading back the written text gives each entry with its newline, the last without. */
  lemma ReadBack(e: seq<string>)
    requires forall i :: 0 <= i < |e| ==> |e[i]| > 0 && Clean(e[i])
    ensures ReadLines(Join(e, '\n')) == Terminated(e)
  {
    if e == [] {
      assert Join(e, '\n') == [];
    } else {
      ReadLinesJoin(e);
    }
  }

  /** Normalising an already normalised list changes nothing. */
  lemma Idempotent(content: string)
    ensures SortedList(SortedList(content)) == SortedList(content)
  {
    var out := SortedList(content);
    WrittenIsJoinOfEntries(content);
    var e := Entries(content);
    ReadBack(e);
    TerminatedFixed(e);
    SortedSetOfIncreasing(e);
    if e != [] {
      assert e[0] != [];
    }
    assert Entries(out) == e;
    WrittenIsJoinOfEntries(out);
  }

  /** A normalised list passes the linter's duplicate and ordering checks. */
  lemma OutputPassesLinter(content: string, extract: string -> Checks.DomainParts)
    ensures Checks.NoDuplicateReport(Checks.Reports(Checks.Domains(SortedList(content)), extract))
    ensures Checks.NoWrongSortingReport(Checks.Reports(Checks.Domains(SortedList(content)), extract))
  {
    var out := SortedList(content);
    WrittenIsJoinOfEntries(content);
    var e := Entries(content);
    ReadBack(e);
    TerminatedFixed(e);
    var ds := Checks.Domains(out);
    assert ds == e;
    IncreasingPairs(e);
    LessIrreflexive([]);
    forall i, j | 0 <= i < j < |e| ensures e[i] != e[j] && !Less(e[j], e[i]) {
      LessAsymmetric(e[i], e[j]);
      LessIrreflexive(e[i]);
    }
    Checks.NoDuplicateIff(ds, extract);
    Checks.NoWrongSortingIff(ds, extract);
  }
}
