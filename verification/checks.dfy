/**
 * The provider-list linter: reads the list line by line and reports
 * entries that repeat an earlier one, entries that sort before the line
 * above them, and entries that are not a registrable domain. The process
 * exits with status 1 when it reported anything.
 */
module Checks {
  import opened Strings

  /** One complaint printed by the linter. */
  datatype Report =
    | Duplicate(domain: string)
    | WrongSorting(domain: string, previous: string)
    | InvalidDomain(domain: string)

  /** The registrable part and the public suffix that the suffix-list lookup splits a name into. */
  datatype DomainParts = DomainParts(domain: string, suffix: string)

  /** A name is accepted when the lookup finds both a registrable part and a suffix. */
  predicate Registrable(parts: DomainParts) {
    parts.domain != [] && parts.suffix != []
  }

  /** Python's `sorted` on a two-element list: the pair swapped exactly when the second sorts first. */
  function SortedPair(a: string, b: string): (r: seq<string>)
    ensures |r| == 2 && multiset(r) == multiset([a, b])
    ensures !Less(r[1], r[0])
  {
    if Less(b, a) then
      LessAsymmetric(b, a);
      [b, a]
    else [a, b]
  }

  /** The entries of the list file: every line with its trailing whitespace removed. */
  function Domains(content: string): (ds: seq<string>)
    ensures |ds| == |ReadLines(content)|
  {
    var lines := ReadLines(content);
    seq(|lines|, i requires 0 <= i < |lines| => RStrip(lines[i]))
  }

  /** No entry holds a line break or ends in whitespace. */
  lemma DomainsShape(content: string)
    ensures forall i :: 0 <= i < |Domains(content)| ==> '\n' !in Domains(content)[i]
    ensures forall i :: 0 <= i < |Domains(content)| ==>
      Domains(content)[i] == [] || !IsSpace(Domains(content)[i][|Domains(content)[i]| - 1])
  {
    var lines := ReadLines(content);
    ReadLinesSpec(content);
    forall i | 0 <= i < |lines|
      ensures '\n' !in Domains(content)[i]
      ensures Domains(content)[i] == [] || !IsSpace(Domains(content)[i][|Domains(content)[i]| - 1])
    {
      var d := RStrip(lines[i]);
      RStripSpec(lines[i]);
      assert Domains(content)[i] == d;
      if |d| < |lines[i]| {
        assert d == lines[i][..|lines[i]| - 1][..|d|];
      }
    }
  }

  /** What the linter reports for entry `d`, given the entries `seen` above it. */
  function LineReports(seen: seq<string>, d: string, extract: string -> DomainParts): seq<Report> {
    (if d in seen then [Duplicate(d)] else [])
    + (if seen == [] then []
       else
         (if Less(d, seen[|seen| - 1]) then [WrongSorting(d, seen[|seen| - 1])] else [])
         + (if Registrable(extract(d)) then [] else [InvalidDomain(d)]))
  }

  /** Everything the linter reports for a list of entries, in line order. */
  function Reports(ds: seq<string>, extract: string -> DomainParts): seq<Report>
    decreases |ds|
  {
    if ds == [] then []
    else Reports(ds[..|ds| - 1], extract) + LineReports(ds[..|ds| - 1], ds[|ds| - 1], extract)
  }

  /**
   * The linter's main loop over the lines of the list file. The suffix-list
   * lookup is the parameter `extract`; the printed messages are the returned
   * reports.
   */
  method Check(content: string, extract: string -> DomainParts) returns (reports: seq<Report>, exitCode: int)
    ensures reports == Reports(Domains(content), extract)
    ensures exitCode == (if reports == [] then 0 else 1)
  {
    var lines := ReadLines(content);
    var providerDomains: seq<string> := [];
    var allGood := true;
    reports := [];
    for i := 0 to |lines|
      invariant providerDomains == Domains(content)[..i]
      invariant reports == Reports(providerDomains, extract)
      invariant allGood <==> reports == []
    {
      var providerDomain := RStrip(lines[i]);
      var found := CheckEntry(providerDomains, providerDomain, extract);
      if found != [] {
        allGood := false;
      }
      reports := reports + found;
      assert (providerDomains + [providerDomain])[..|providerDomains|] == providerDomains;
      assert Domains(content)[..i + 1] == providerDomains + [providerDomain];
      providerDomains := providerDomains + [providerDomain];
    }
    assert Domains(content)[..|lines|] == Domains(content);
    exitCode := if allGood then 0 else 1;
  }

  /** The body of the linter's loop: the checks on one entry, given the entries above it. */
  method CheckEntry(providerDomains: seq<string>, providerDomain: string, extract: string -> DomainParts)
    returns (found: seq<Report>)
    ensures found == LineReports(providerDomains, providerDomain, extract)
  {
    found := [];
    if providerDomain in providerDomains {
      found := found + [Duplicate(providerDomain)];
    }
    if providerDomains != [] {
      var previousDomain := providerDomains[|providerDomains| - 1];
      var currentOrder := [previousDomain, providerDomain];
      assert SortedPair(previousDomain, providerDomain) != currentOrder <==> Less(providerDomain, previousDomain) by {
        LessIrreflexive(providerDomain);
      }
      if SortedPair(previousDomain, providerDomain) != currentOrder {
        found := found + [WrongSorting(providerDomain, previousDomain)];
      }
      var domainParts := extract(providerDomain);
      if !Registrable(domainParts) {
        found := found + [InvalidDomain(providerDomain)];
      }
    }
  }

  // ---------------------------------------------------------------------
  // What a clean run means
  // ---------------------------------------------------------------------

  predicate NoDuplicateReport(rs: seq<Report>) {
    forall r :: r in rs ==> !r.Duplicate?
  }

  predicate NoWrongSortingReport(rs: seq<Report>) {
    forall r :: r in rs ==> !r.WrongSorting?
  }

  predicate NoInvalidReport(rs: seq<Report>) {
    forall r :: r in rs ==> !r.InvalidDomain?
  }

  /** No entry sorts before an entry above it. */
  predicate NonDecreasing(ds: seq<string>) {
    forall i, j :: 0 <= i < j < |ds| ==> !Less(ds[j], ds[i])
  }

  predicate Distinct(ds: seq<string>) {
    forall i, j :: 0 <= i < j < |ds| ==> ds[i] != ds[j]
  }

  /** Every entry but the first is registrable. */
  predicate RegistrableAfterFirst(ds: seq<string>, extract: string -> DomainParts) {
    forall i :: 0 < i < |ds| ==> Registrable(extract(ds[i]))
  }

  /** "Not before" is transitive, because the order is total. */
  lemma NotLessTransitive(a: string, b: string, c: string)
    requires !Less(b, a) && !Less(c, b)
    ensures !Less(c, a)
  {
    if a != b && b != c {
      LessTotal(a, b);
      LessTotal(b, c);
      LessTransitive(a, b, c);
      LessAsymmetric(a, c);
    } else if a != b {
      LessTotal(a, b);
      LessAsymmetric(a, b);
    } else if b != c {
      LessTotal(b, c);
      LessAsymmetric(b, c);
    } else {
      LessIrreflexive(a);
    }
  }

  /** The reports of the entries above, then the reports of the last entry. */
  lemma ReportsLast(ds: seq<string>, extract: string -> DomainParts)
    requires ds != []
    ensures forall r :: r in Reports(ds, extract) <==>
      r in Reports(ds[..|ds| - 1], extract) || r in LineReports(ds[..|ds| - 1], ds[|ds| - 1], extract)
  {
  }

  /** The linter reports no ordering problem exactly when the whole list is in order, not merely each pair of neighbours. */
  lemma {:induction false} NoWrongSortingIff(ds: seq<string>, extract: string -> DomainParts)
    ensures NoWrongSortingReport(Reports(ds, extract)) <==> NonDecreasing(ds)
    decreases |ds|
  {
    if ds != [] {
      var p := ds[..|ds| - 1];
      var d := ds[|ds| - 1];
      NoWrongSortingIff(p, extract);
      ReportsLast(ds, extract);
      var inOrder := p == [] || !Less(d, p[|p| - 1]);
      assert NoWrongSortingReport(LineReports(p, d, extract)) <==> inOrder by {
        if !inOrder {
          assert WrongSorting(d, p[|p| - 1]) in LineReports(p, d, extract);
        }
      }
      assert NonDecreasing(ds) <==> NonDecreasing(p) && inOrder by {
        if NonDecreasing(ds) {
          forall i, j | 0 <= i < j < |p| ensures !Less(p[j], p[i]) {
            assert p[i] == ds[i] && p[j] == ds[j];
          }
          if p != [] {
            assert !Less(ds[|ds| - 1], ds[|ds| - 2]);
          }
        }
        if NonDecreasing(p) && inOrder {
          forall i, j | 0 <= i < j < |ds| ensures !Less(ds[j], ds[i]) {
            if j == |ds| - 1 && i < |ds| - 2 {
              assert !Less(ds[|ds| - 2], ds[i]) by { assert p[i] == ds[i]; }
              NotLessTransitive(ds[i], ds[|ds| - 2], d);
            } else if j < |ds| - 1 {
              assert p[i] == ds[i] && p[j] == ds[j];
            }
          }
        }
      }
    }
  }

  /** The linter reports no duplicate exactly when all entries are different. */
  lemma {:induction false} NoDuplicateIff(ds: seq<string>, extract: string -> DomainParts)
    ensures NoDuplicateReport(Reports(ds, extract)) <==> Distinct(ds)
    decreases |ds|
  {
    if ds != [] {
      var p := ds[..|ds| - 1];
      var d := ds[|ds| - 1];
      NoDuplicateIff(p, extract);
      ReportsLast(ds, extract);
      assert NoDuplicateReport(LineReports(p, d, extract)) <==> d !in p by {
        if d in p {
          assert Duplicate(d) in LineReports(p, d, extract);
        }
      }
      assert Distinct(ds) <==> Distinct(p) && d !in p by {
        if Distinct(ds) {
          forall i, j | 0 <= i < j < |p| ensures p[i] != p[j] {
            assert p[i] == ds[i] && p[j] == ds[j];
          }
        }
        if Distinct(p) && d !in p {
          forall i, j | 0 <= i < j < |ds| ensures ds[i] != ds[j] {
            assert ds[i] == p[i];
            if j < |ds| - 1 {
              assert ds[j] == p[j];
            }
          }
        }
      }
    }
  }

  /** The linter reports no invalid name exactly when every entry after the first is registrable. */
  lemma {:induction false} NoInvalidIff(ds: seq<string>, extract: string -> DomainParts)
    ensures NoInvalidReport(Reports(ds, extract)) <==> RegistrableAfterFirst(ds, extract)
    decreases |ds|
  {
    if ds != [] {
      var p := ds[..|ds| - 1];
      var d := ds[|ds| - 1];
      NoInvalidIff(p, extract);
      ReportsLast(ds, extract);
      var fine := p == [] || Registrable(extract(d));
      assert NoInvalidReport(LineReports(p, d, extract)) <==> fine by {
        if !fine {
          assert InvalidDomain(d) in LineReports(p, d, extract);
        }
      }
      assert RegistrableAfterFirst(ds, extract) <==> RegistrableAfterFirst(p, extract) && fine by {
        if RegistrableAfterFirst(ds, extract) {
          forall i | 0 < i < |p| ensures Registrable(extract(p[i])) {
            assert p[i] == ds[i];
          }
        }
        if RegistrableAfterFirst(p, extract) && fine {
          forall i | 0 < i < |ds| ensures Registrable(extract(ds[i])) {
            if i < |ds| - 1 {
              assert ds[i] == p[i];
            }
          }
        }
      }
    }
  }

  /**
   * The linter exits with status 0 exactly when the list is in order,
   * has no repeated entry, and every entry after the first is registrable.
   */
  lemma CleanIff(ds: seq<string>, extract: string -> DomainParts)
    ensures Reports(ds, extract) == []
        <==> NonDecreasing(ds) && Distinct(ds) && RegistrableAfterFirst(ds, extract)
  {
    var rs := Reports(ds, extract);
    NoWrongSortingIff(ds, extract);
    NoDuplicateIff(ds, extract);
    NoInvalidIff(ds, extract);
    if rs != [] {
      assert rs[0] in rs;
    }
  }

  /** The first entry is never looked up: a list holding one unregistrable name passes. */
  lemma FirstLineNeverValidated(d: string, extract: string -> DomainParts)
    ensures Reports([d], extract) == []
  {
    assert [d][..0] == [];
  }

  /** An entry equal to the line above is reported as a duplicate and never as out of order. */
  lemma RepeatedNeighbour(seen: seq<string>, extract: string -> DomainParts)
    requires seen != []
    ensures Duplicate(seen[|seen| - 1]) in LineReports(seen, seen[|seen| - 1], extract)
    ensures NoWrongSortingReport(LineReports(seen, seen[|seen| - 1], extract))
  {
    LessIrreflexive(seen[|seen| - 1]);
  }
}
