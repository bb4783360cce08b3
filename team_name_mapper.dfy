/**
 * The team-name step of the historical import: the distinct team names of the flat
 * tips CSV are collected, then each is mapped to a standard name from the database by
 * a fixed chain: exact match, match ignoring case, a list of hard-coded spellings,
 * then containment either way; a name nothing matches maps to null with an issue.
 * Reading the CSV and the database query are left out: the file's text and the list
 * of standard names are parameters.
 */
module TeamNameMapper {
  import opened Wrappers
  import opened Text
  import opened Sorting

  // ---------------------------------------------------------------------------
  // Collecting the CSV team names
  // ---------------------------------------------------------------------------

  /** `columns[4..7]`, trimmed, of a non-blank line with at least eight columns; else none. */
  function LineTeams(line: string): seq<string>
  {
    var columns := Split(line, ',');
    if Trim(line) == "" || |columns| < 8 then []
    else [Trim(columns[4]), Trim(columns[5]), Trim(columns[6]), Trim(columns[7])]
  }

  function AddAll(s: seq<string>, xs: seq<string>): seq<string>
    decreases |xs|
  {
    if xs == [] then s else AddAll(Add(s, xs[0]), xs[1..])
  }

  /** The team columns of each line. */
  function LinesTeams(lines: seq<string>): (gs: seq<seq<string>>)
    ensures |gs| == |lines|
  {
    seq(|lines|, i requires 0 <= i < |lines| => LineTeams(lines[i]))
  }

  lemma LinesTeamsAt(lines: seq<string>, i: nat)
    requires i < |lines|
    ensures LinesTeams(lines)[i] == LineTeams(lines[i])
  {
  }

  /** The set after the first `k` lines, given each line's team columns. */
  function SeenUpTo(gs: seq<seq<string>>, k: nat): seq<string>
    requires k <= |gs|
  {
    if k == 0 then [] else AddAll(SeenUpTo(gs, k - 1), gs[k - 1])
  }

  /** `set.delete(x)`. */
  function Delete(s: seq<string>, x: string): (r: seq<string>)
    decreases |s|
  {
    if s == [] then []
    else if s[0] == x then Delete(s[1..], x)
    else [s[0]] + Delete(s[1..], x)
  }

  /** `Array.from(csvTeamNames).sort()` after the loop and the deletions of ''. */
  function CsvTeams(content: string): seq<string>
  {
    TeamsOf(LinesTeams(Split(content, '\n')[1..]))
  }

  function TeamsOf(gs: seq<seq<string>>): seq<string>
  {
    SortStrings(Delete(SeenUpTo(gs, |gs|), ""))
  }

  lemma {:induction false} AddAllMembers(s: seq<string>, xs: seq<string>)
    requires Distinct(s)
    ensures Distinct(AddAll(s, xs))
    ensures forall x :: x in AddAll(s, xs) <==> x in s || x in xs
    decreases |xs|
  {
    if xs != [] {
      var s' := Add(s, xs[0]);
      assert Distinct(s');
      AddAllMembers(s', xs[1..]);
      assert forall x :: x in xs <==> x == xs[0] || x in xs[1..];
    }
  }

  lemma {:induction false} SeenMembers(gs: seq<seq<string>>, k: nat)
    requires k <= |gs|
    ensures Distinct(SeenUpTo(gs, k))
    ensures forall x :: x in SeenUpTo(gs, k) <==> exists i :: 0 <= i < k && x in gs[i]
  {
    if k > 0 {
      SeenMembers(gs, k - 1);
      AddAllMembers(SeenUpTo(gs, k - 1), gs[k - 1]);
      forall x | x in SeenUpTo(gs, k)
        ensures exists i :: 0 <= i < k && x in gs[i]
      {
        if x !in gs[k - 1] {
          var i :| 0 <= i < k - 1 && x in gs[i];
        }
      }
    }
  }

  lemma {:induction false} DeleteMembers(s: seq<string>, y: string)
    requires Distinct(s)
    ensures Distinct(Delete(s, y))
    ensures forall x :: x in Delete(s, y) <==> x in s && x != y
    decreases |s|
  {
    if s != [] {
      DeleteMembers(s[1..], y);
      assert forall x :: x in s <==> x == s[0] || x in s[1..];
      if s[0] != y {
        var d := Delete(s[1..], y);
        assert s[0] !in s[1..];
        assert forall i :: 1 <= i < |[s[0]] + d| ==> ([s[0]] + d)[i] == d[i - 1];
      }
    }
  }

  /**
   * The CSV team names are, each once and in code-point order, the team columns of the
   * lines after the header (LinesTeamsAt: the trimmed columns 4-7 of a non-blank line
   * with at least eight columns), with '' left out.
   */
  lemma {:induction false} CsvTeamsMeaning(gs: seq<seq<string>>)
    ensures forall x :: x in TeamsOf(gs) <==> x != "" && exists i :: 0 <= i < |gs| && x in gs[i]
    ensures Distinct(TeamsOf(gs))
    ensures forall i, j :: 0 <= i < j < |TeamsOf(gs)| ==> StrLess(TeamsOf(gs)[i], TeamsOf(gs)[j])
  {
    var seen := SeenUpTo(gs, |gs|);
    SeenMembers(gs, |gs|);
    DeleteMembers(seen, "");
    var r := SortStrings(Delete(seen, ""));
    PermutationDistinct(Delete(seen, ""), r);
    forall x ensures x in r <==> x in Delete(seen, "") {
      assert x in r <==> x in multiset(r);
      assert x in Delete(seen, "") <==> x in multiset(Delete(seen, ""));
    }
  }

  /** `createTeamNameMapping`'s first loop, from the file's text. */
  method CollectCsvTeams(csvContent: string) returns (uniqueCsvTeams: seq<string>)
    ensures uniqueCsvTeams == CsvTeams(csvContent)
  {
    var csvLines := Split(csvContent, '\n')[1..];
    var csvTeamNames: seq<string> := [];
    var k := 0;
    while k < |csvLines|
      invariant 0 <= k <= |csvLines|
      invariant csvTeamNames == SeenUpTo(LinesTeams(csvLines), k)
    {
      csvTeamNames := AddLine(csvTeamNames, csvLines, k);
      k := k + 1;
    }
    csvTeamNames := Delete(csvTeamNames, "");
    uniqueCsvTeams := SortStrings(csvTeamNames);
  }

  lemma AddFour(s: seq<string>, xs: seq<string>)
    requires |xs| == 4
    ensures AddAll(s, xs) == Add(Add(Add(Add(s, xs[0]), xs[1]), xs[2]), xs[3])
  {
    var s1 := Add(s, xs[0]);
    var s2 := Add(s1, xs[1]);
    var s3 := Add(s2, xs[2]);
    var s4 := Add(s3, xs[3]);
    assert xs[1..][1..][1..][1..] == [];
    assert AddAll(s4, []) == s4;
    assert AddAll(s3, xs[3..]) == s4 by { assert xs[3..][0] == xs[3] && xs[3..][1..] == []; }
    assert AddAll(s2, xs[2..]) == s4 by { assert xs[2..][0] == xs[2] && xs[2..][1..] == xs[3..]; }
    assert AddAll(s1, xs[1..]) == s4 by { assert xs[1..][0] == xs[1] && xs[1..][1..] == xs[2..]; }
  }

  /** One pass of the loop, on line `k`. */
  method AddLine(csvTeamNames: seq<string>, csvLines: seq<string>, k: nat) returns (names: seq<string>)
    requires k < |csvLines| && csvTeamNames == SeenUpTo(LinesTeams(csvLines), k)
    ensures names == SeenUpTo(LinesTeams(csvLines), k + 1)
  {
    LinesTeamsAt(csvLines, k);
    names := AddLineTeams(csvTeamNames, csvLines[k]);
  }

  /** One pass of the loop: a blank line is skipped, else its four team columns are added. */
  method AddLineTeams(csvTeamNames: seq<string>, line: string) returns (names: seq<string>)
    ensures names == AddAll(csvTeamNames, LineTeams(line))
  {
    names := csvTeamNames;
    if Trim(line) == "" {
      return;
    }
    var columns := Split(line, ',');
    if |columns| >= 8 {
      var teams := [Trim(columns[4]), Trim(columns[5]), Trim(columns[6]), Trim(columns[7])];
      names := Add(names, teams[0]);
      names := Add(names, teams[1]);
      names := Add(names, teams[2]);
      names := Add(names, teams[3]);
      AddFour(csvTeamNames, teams);
    }
  }

  // ---------------------------------------------------------------------------
  // The mapping chain
  // ---------------------------------------------------------------------------

  /** How a CSV name was mapped. */
  datatype Decision =
    | Perfect
    | CaseMatch(name: string)
    | FuzzyMatch(name: string)
    | NoMatch(suggestions: seq<string>)

  /** `standardTeamNames.find(dbTeam => dbTeam.toLowerCase() === csvLower)`. */
  function FindCaseMatch(std: seq<string>, csvLower: string): (r: Option<string>)
    ensures r.Some? <==> exists j :: 0 <= j < |std| && Lower(std[j]) == csvLower
    ensures r.Some? ==> exists j :: 0 <= j < |std| && std[j] == r.value && Lower(std[j]) == csvLower
                          && forall i :: 0 <= i < j ==> Lower(std[i]) != csvLower
    decreases |std|
  {
    if std == [] then None
    else if Lower(std[0]) == csvLower then Some(std[0])
    else
      var r := FindCaseMatch(std[1..], csvLower);
      assert forall j :: 1 <= j < |std| ==> std[j] == std[1..][j - 1];
      r
  }

  predicate Overlaps(dbTeam: string, csvLower: string)
  {
    Includes(Lower(dbTeam), csvLower) || Includes(csvLower, Lower(dbTeam))
  }

  /** `standardTeamNames.find(...)` for a name contained in the CSV name or containing it. */
  function FindPartial(std: seq<string>, csvLower: string): (r: Option<string>)
    ensures r.Some? <==> exists j :: 0 <= j < |std| && Overlaps(std[j], csvLower)
    ensures r.Some? ==> exists j :: 0 <= j < |std| && std[j] == r.value && Overlaps(std[j], csvLower)
                          && forall i :: 0 <= i < j ==> !Overlaps(std[i], csvLower)
    decreases |std|
  {
    if std == [] then None
    else if Overlaps(std[0], csvLower) then Some(std[0])
    else
      var r := FindPartial(std[1..], csvLower);
      assert forall j :: 1 <= j < |std| ==> std[j] == std[1..][j - 1];
      r
  }

  /** The hard-coded spellings, in the order the script tries them. */
  function HardCoded(csvLower: string): Option<string>
  {
    if csvLower == "cartlon" then Some("Carlton")
    else if Includes(csvLower, "brisbane") && Includes(csvLower, "lion") then Some("Brisbane Lions")
    else if Includes(csvLower, "greater western") then Some("Greater Western Sydney")
    else if Includes(csvLower, "western bulldogs") || Includes(csvLower, "bulldogs") then Some("Western Bulldogs")
    else if csvLower == "gws" then Some("Greater Western Sydney")
    else if Includes(csvLower, "st kilda") || Includes(csvLower, "saints") then Some("St Kilda")
    else if Includes(csvLower, "west coast") || Includes(csvLower, "eagles") then Some("West Coast")
    else None
  }

  /** `s.substring(0, 3)`. */
  function Take3(s: string): string
  {
    if |s| <= 3 then s else s[..3]
  }

  /** The standard names whose lower case contains the first three letters of the CSV name's. */
  function Suggestions(std: seq<string>, csvTeam: string): (r: seq<string>)
    ensures forall i :: 0 <= i < |r| ==> r[i] in std && Includes(Lower(r[i]), Take3(Lower(csvTeam)))
    ensures forall x :: x in std && Includes(Lower(x), Take3(Lower(csvTeam))) ==> x in r
    decreases |std|
  {
    if std == [] then []
    else if Includes(Lower(std[0]), Take3(Lower(csvTeam))) then [std[0]] + Suggestions(std[1..], csvTeam)
    else Suggestions(std[1..], csvTeam)
  }

  /** The test of the suggestion `filter`. */
  function Suggests(csvTeam: string): string -> bool
  {
    (x: string) => Includes(Lower(x), Take3(Lower(csvTeam)))
  }

  /** The suggestions are `std.filter(...)`: every standard name passing the test, in the order of `std`. */
  lemma {:induction false} SuggestionsAreFilter(std: seq<string>, csvTeam: string)
    ensures Suggestions(std, csvTeam) == Filter(std, Suggests(csvTeam))
    decreases |std|
  {
    if std != [] {
      SuggestionsAreFilter(std[1..], csvTeam);
      FilterFront(std, Suggests(csvTeam));
      assert Suggests(csvTeam)(std[0]) == Includes(Lower(std[0]), Take3(Lower(csvTeam)));
    }
  }

  /** A JavaScript string is truthy when it is not empty. */
  predicate Truthy(s: Option<string>)
  {
    s.Some? && s.value != ""
  }

  /** The chain the loop runs for one CSV name. */
  function Decide(csvTeam: string, std: seq<string>): Decision
  {
    if csvTeam in std then Perfect
    else
      var caseMatch := FindCaseMatch(std, Lower(csvTeam));
      if Truthy(caseMatch) then CaseMatch(caseMatch.value)
      else
        var csvLower := Lower(csvTeam);
        var fuzzy := if HardCoded(csvLower).Some? then HardCoded(csvLower) else FindPartial(std, csvLower);
        if Truthy(fuzzy) then FuzzyMatch(fuzzy.value) else NoMatch(Suggestions(std, csvTeam))
  }

  /** What `mapping[csvTeam]` is set to. */
  function Target(csvTeam: string, d: Decision): Option<string>
  {
    match d
    case Perfect => Some(csvTeam)
    case CaseMatch(name) => Some(name)
    case FuzzyMatch(name) => Some(name)
    case NoMatch(_) => None
  }

  /**
   * The chain in order: an exact match maps a name to itself; failing that, the first
   * standard name equal to it ignoring case; failing those, a hard-coded spelling,
   * then the first standard name contained in it or containing it; failing all, no
   * mapping, with the suggestions.
   */
  lemma {:induction false} DecisionChain(csvTeam: string, std: seq<string>)
    ensures csvTeam in std ==> Decide(csvTeam, std) == Perfect && Target(csvTeam, Perfect) == Some(csvTeam)
    ensures csvTeam !in std && (exists j :: 0 <= j < |std| && Lower(std[j]) == Lower(csvTeam) && std[j] != "")
            && (forall j :: 0 <= j < |std| && Lower(std[j]) == Lower(csvTeam) ==> std[j] != "") ==>
              exists j :: 0 <= j < |std| && Decide(csvTeam, std) == CaseMatch(std[j])
                && Lower(std[j]) == Lower(csvTeam)
                && forall i :: 0 <= i < j ==> Lower(std[i]) != Lower(csvTeam)
    ensures csvTeam !in std && (forall j :: 0 <= j < |std| ==> Lower(std[j]) != Lower(csvTeam))
            && HardCoded(Lower(csvTeam)).Some? ==>
              Decide(csvTeam, std) == FuzzyMatch(HardCoded(Lower(csvTeam)).value)
    ensures csvTeam !in std && !Truthy(FindCaseMatch(std, Lower(csvTeam))) && HardCoded(Lower(csvTeam)).None?
            && Truthy(FindPartial(std, Lower(csvTeam))) ==>
              Decide(csvTeam, std) == FuzzyMatch(FindPartial(std, Lower(csvTeam)).value)
    ensures csvTeam !in std && !Truthy(FindCaseMatch(std, Lower(csvTeam))) && HardCoded(Lower(csvTeam)).None?
            && !Truthy(FindPartial(std, Lower(csvTeam))) ==>
              Decide(csvTeam, std) == NoMatch(Suggestions(std, csvTeam))
  {
    if csvTeam !in std && (exists j :: 0 <= j < |std| && Lower(std[j]) == Lower(csvTeam) && std[j] != "")
       && (forall j :: 0 <= j < |std| && Lower(std[j]) == Lower(csvTeam) ==> std[j] != "") {
      CaseMatchSecond(csvTeam, std);
    }
    if csvTeam !in std && (forall j :: 0 <= j < |std| ==> Lower(std[j]) != Lower(csvTeam))
       && HardCoded(Lower(csvTeam)).Some? {
      HardCodedThird(csvTeam, std);
    }
  }

  lemma CaseMatchSecond(csvTeam: string, std: seq<string>)
    requires csvTeam !in std && exists j :: 0 <= j < |std| && Lower(std[j]) == Lower(csvTeam) && std[j] != ""
    requires forall j :: 0 <= j < |std| && Lower(std[j]) == Lower(csvTeam) ==> std[j] != ""
    ensures exists j :: 0 <= j < |std| && Decide(csvTeam, std) == CaseMatch(std[j])
              && Lower(std[j]) == Lower(csvTeam)
              && forall i :: 0 <= i < j ==> Lower(std[i]) != Lower(csvTeam)
  {
    var r := FindCaseMatch(std, Lower(csvTeam));
    var j :| 0 <= j < |std| && std[j] == r.value && Lower(std[j]) == Lower(csvTeam)
             && forall i :: 0 <= i < j ==> Lower(std[i]) != Lower(csvTeam);
    assert Decide(csvTeam, std) == CaseMatch(std[j]);
  }

  lemma HardCodedThird(csvTeam: string, std: seq<string>)
    requires csvTeam !in std && forall j :: 0 <= j < |std| ==> Lower(std[j]) != Lower(csvTeam)
    requires HardCoded(Lower(csvTeam)).Some?
    ensures Decide(csvTeam, std) == FuzzyMatch(HardCoded(Lower(csvTeam)).value)
  {
    assert FindCaseMatch(std, Lower(csvTeam)).None?;
  }

  /** A hard-coded target need not be a standard name: "Cartlon" maps to "Carlton" even when no team is called that. */
  lemma HardCodedTargetNotStandard()
    ensures Decide("Cartlon", ["Richmond"]) == FuzzyMatch("Carlton")
    ensures "Carlton" !in ["Richmond"]
  {
    var std := ["Richmond"];
    assert "Cartlon" !in std;
    assert Lower("Cartlon") == "cartlon";
    assert Lower("Richmond") != "cartlon" by {
      assert Lower("Richmond")[0] == 'r';
    }
    assert FindCaseMatch(std, "cartlon") == None by {
      assert std[1..] == [];
    }
  }

  /**
   * One pass of the mapping loop: the chain's outcome, found as the script finds it.
   */
  method MapOne(csvTeam: string, standardTeamNames: seq<string>) returns (d: Decision)
    ensures d == Decide(csvTeam, standardTeamNames)
  {
    if csvTeam in standardTeamNames {
      return Perfect;
    }
    var caseMatch := FindCaseMatch(standardTeamNames, Lower(csvTeam));
    if Truthy(caseMatch) {
      return CaseMatch(caseMatch.value);
    }
    var fuzzyMatch: Option<string> := None;
    var csvLower := Lower(csvTeam);
    if csvLower == "cartlon" {
      fuzzyMatch := Some("Carlton");
    } else if Includes(csvLower, "brisbane") && Includes(csvLower, "lion") {
      fuzzyMatch := Some("Brisbane Lions");
    } else if Includes(csvLower, "greater western") {
      fuzzyMatch := Some("Greater Western Sydney");
    } else if Includes(csvLower, "western bulldogs") || Includes(csvLower, "bulldogs") {
      fuzzyMatch := Some("Western Bulldogs");
    } else if csvLower == "gws" {
      fuzzyMatch := Some("Greater Western Sydney");
    } else if Includes(csvLower, "st kilda") || Includes(csvLower, "saints") {
      fuzzyMatch := Some("St Kilda");
    } else if Includes(csvLower, "west coast") || Includes(csvLower, "eagles") {
      fuzzyMatch := Some("West Coast");
    } else {
      fuzzyMatch := FindPartial(standardTeamNames, csvLower);
    }
    if Truthy(fuzzyMatch) {
      d := FuzzyMatch(fuzzyMatch.value);
    } else {
      d := NoMatch(Suggestions(standardTeamNames, csvTeam));
    }
  }

  // ---------------------------------------------------------------------------
  // The mapping loop and the report
  // ---------------------------------------------------------------------------

  datatype Issue = Issue(csvName: string, suggestions: seq<string>)

  datatype Mapped = Mapped(mapping: map<string, Option<string>>, issues: seq<Issue>, perfectMatches: seq<string>)

  /** What the loop records for one name. */
  function Record(m: Mapped, csvTeam: string, d: Decision): Mapped
  {
    match d
    case Perfect => Mapped(m.mapping[csvTeam := Some(csvTeam)], m.issues, m.perfectMatches + [csvTeam])
    case CaseMatch(name) => m.(mapping := m.mapping[csvTeam := Some(name)])
    case FuzzyMatch(name) => m.(mapping := m.mapping[csvTeam := Some(name)])
    case NoMatch(s) => Mapped(m.mapping[csvTeam := None], m.issues + [Issue(csvTeam, s)], m.perfectMatches)
  }

  lemma RecordFacts(m: Mapped, t: string, d: Decision)
    ensures Record(m, t, d).mapping == m.mapping[t := Target(t, d)]
    ensures Record(m, t, d).issues == if d.NoMatch? then m.issues + [Issue(t, d.suggestions)] else m.issues
    ensures Record(m, t, d).perfectMatches == if d.Perfect? then m.perfectMatches + [t] else m.perfectMatches
  {
  }

  /** The chain's decision for each name. */
  function Decisions(teams: seq<string>, std: seq<string>): (ds: seq<Decision>)
    ensures |ds| == |teams|
  {
    seq(|teams|, j requires 0 <= j < |teams| => Decide(teams[j], std))
  }

  lemma DecisionsAt(teams: seq<string>, std: seq<string>, j: nat)
    requires j < |teams|
    ensures Decisions(teams, std)[j] == Decide(teams[j], std)
  {
  }

  /** The state after the first `k` names, given each name's decision. */
  function MappedUpTo(teams: seq<string>, ds: seq<Decision>, k: nat): Mapped
    requires k <= |teams| && |ds| == |teams|
  {
    if k == 0 then Mapped(map[], [], [])
    else Record(MappedUpTo(teams, ds, k - 1), teams[k - 1], ds[k - 1])
  }

  /** `createTeamNameMapping`'s second loop over the sorted CSV names. */
  method CreateMapping(uniqueCsvTeams: seq<string>, standardTeamNames: seq<string>)
    returns (mapping: map<string, Option<string>>, issues: seq<Issue>, perfectMatches: seq<string>)
    ensures Mapped(mapping, issues, perfectMatches)
            == MappedUpTo(uniqueCsvTeams, Decisions(uniqueCsvTeams, standardTeamNames), |uniqueCsvTeams|)
  {
    mapping, issues, perfectMatches := map[], [], [];
    var k := 0;
    while k < |uniqueCsvTeams|
      invariant 0 <= k <= |uniqueCsvTeams|
      invariant Mapped(mapping, issues, perfectMatches)
                == MappedUpTo(uniqueCsvTeams, Decisions(uniqueCsvTeams, standardTeamNames), k)
    {
      mapping, issues, perfectMatches := MapStep(uniqueCsvTeams, standardTeamNames, k, mapping, issues, perfectMatches);
      k := k + 1;
    }
  }

  /** One pass of the mapping loop: the name's decision is recorded. */
  method MapStep(uniqueCsvTeams: seq<string>, standardTeamNames: seq<string>, k: nat,
                 mapping: map<string, Option<string>>, issues: seq<Issue>, perfectMatches: seq<string>)
    returns (mapping': map<string, Option<string>>, issues': seq<Issue>, perfectMatches': seq<string>)
    requires k < |uniqueCsvTeams|
    requires Mapped(mapping, issues, perfectMatches)
             == MappedUpTo(uniqueCsvTeams, Decisions(uniqueCsvTeams, standardTeamNames), k)
    ensures Mapped(mapping', issues', perfectMatches')
            == MappedUpTo(uniqueCsvTeams, Decisions(uniqueCsvTeams, standardTeamNames), k + 1)
  {
    mapping', issues', perfectMatches' := mapping, issues, perfectMatches;
    var csvTeam := uniqueCsvTeams[k];
    var d := MapOne(csvTeam, standardTeamNames);
    DecisionsAt(uniqueCsvTeams, standardTeamNames, k);
    match d {
      case Perfect =>
        mapping' := mapping'[csvTeam := Some(csvTeam)];
        perfectMatches' := perfectMatches' + [csvTeam];
      case CaseMatch(name) =>
        mapping' := mapping'[csvTeam := Some(name)];
      case FuzzyMatch(name) =>
        mapping' := mapping'[csvTeam := Some(name)];
      case NoMatch(suggestions) =>
        mapping' := mapping'[csvTeam := None];
        issues' := issues' + [Issue(csvTeam, suggestions)];
    }
  }

  /** The kinds the report counts: perfect, mapped another way, and unmatched. */
  datatype Kind = PerfectKind | OtherKind | IssueKind

  function KindOf(d: Decision): Kind
  {
    match d
    case Perfect => PerfectKind
    case NoMatch(_) => IssueKind
    case _ => OtherKind
  }

  /** How many of the first `k` names got a decision of kind `kind`. */
  function CountKind(ds: seq<Decision>, k: nat, kind: Kind): nat
    requires k <= |ds|
  {
    if k == 0 then 0
    else CountKind(ds, k - 1, kind) + (if KindOf(ds[k - 1]) == kind then 1 else 0)
  }

  /** The issues recorded for `name`. */
  function IssuesFor(issues: seq<Issue>, name: string): nat
  {
    if issues == [] then 0
    else IssuesFor(issues[..|issues| - 1], name) + (if issues[|issues| - 1].csvName == name then 1 else 0)
  }

  /** The names with an entry are exactly the names seen so far. */
  lemma {:induction false} MappedKeys(teams: seq<string>, ds: seq<Decision>, k: nat)
    requires k <= |teams| && |ds| == |teams|
    ensures forall x :: x in MappedUpTo(teams, ds, k).mapping <==> exists j :: 0 <= j < k && teams[j] == x
  {
    if k > 0 {
      MappedKeys(teams, ds, k - 1);
      var prev := MappedUpTo(teams, ds, k - 1);
      var t := teams[k - 1];
      RecordFacts(prev, t, ds[k - 1]);
      var cur := prev.mapping[t := Target(t, ds[k - 1])];
      forall x ensures x in cur <==> exists j :: 0 <= j < k && teams[j] == x {
        if x == t {
          assert teams[k - 1] == x;
        } else if x in prev.mapping {
          var j :| 0 <= j < k - 1 && teams[j] == x;
          assert 0 <= j < k && teams[j] == x;
        }
      }
    }
  }

  /** Over distinct names, there are as many entries as names seen so far. */
  lemma {:induction false} MappedKeyCount(teams: seq<string>, ds: seq<Decision>, k: nat)
    requires k <= |teams| && |ds| == |teams| && Distinct(teams)
    ensures |MappedUpTo(teams, ds, k).mapping.Keys| == k
  {
    if k > 0 {
      MappedKeyCount(teams, ds, k - 1);
      MappedKeys(teams, ds, k - 1);
      var prev := MappedUpTo(teams, ds, k - 1);
      var t := teams[k - 1];
      RecordFacts(prev, t, ds[k - 1]);
      assert forall j :: 0 <= j < k - 1 ==> teams[j] != t;
      assert t !in prev.mapping;
      var cur := prev.mapping[t := Target(t, ds[k - 1])];
      assert cur.Keys == prev.mapping.Keys + {t};
      assert |cur.Keys| == |prev.mapping.Keys| + 1;
    }
  }

  /** Over distinct names, every name seen so far has an entry: its decision's target. */
  lemma {:induction false} MappedTargets(teams: seq<string>, ds: seq<Decision>, k: nat)
    requires k <= |teams| && |ds| == |teams| && Distinct(teams)
    ensures var m := MappedUpTo(teams, ds, k);
            forall j :: 0 <= j < k ==> teams[j] in m.mapping && m.mapping[teams[j]] == Target(teams[j], ds[j])
  {
    if k > 0 {
      MappedTargets(teams, ds, k - 1);
      var prev := MappedUpTo(teams, ds, k - 1);
      var t := teams[k - 1];
      RecordFacts(prev, t, ds[k - 1]);
      var cur := prev.mapping[t := Target(t, ds[k - 1])];
      forall j | 0 <= j < k ensures teams[j] in cur && cur[teams[j]] == Target(teams[j], ds[j]) {
        if j < k - 1 {
          assert teams[j] != t;
        }
      }
    }
  }

  lemma IssuesForAppend(issues: seq<Issue>, i: Issue, x: string)
    ensures IssuesFor(issues + [i], x) == IssuesFor(issues, x) + (if i.csvName == x then 1 else 0)
  {
    assert (issues + [i])[..|issues|] == issues;
  }

  /** How many of the first `k` names are `x` and unmatched. */
  function CountIssues(teams: seq<string>, ds: seq<Decision>, k: nat, x: string): nat
    requires k <= |teams| && |ds| == |teams|
  {
    if k == 0 then 0
    else CountIssues(teams, ds, k - 1, x) + (if teams[k - 1] == x && ds[k - 1].NoMatch? then 1 else 0)
  }

  /** The issues recorded for a name are one per time it came up unmatched. */
  lemma {:induction false} MappedIssues(teams: seq<string>, ds: seq<Decision>, k: nat, x: string)
    requires k <= |teams| && |ds| == |teams|
    ensures IssuesFor(MappedUpTo(teams, ds, k).issues, x) == CountIssues(teams, ds, k, x)
  {
    if k > 0 {
      MappedIssues(teams, ds, k - 1, x);
      var prev := MappedUpTo(teams, ds, k - 1);
      var d := ds[k - 1];
      RecordFacts(prev, teams[k - 1], d);
      if d.NoMatch? {
        IssuesForAppend(prev.issues, Issue(teams[k - 1], d.suggestions), x);
      }
    }
  }

  lemma {:induction false} CountIssuesAbsent(teams: seq<string>, ds: seq<Decision>, k: nat, x: string)
    requires k <= |teams| && |ds| == |teams|
    requires forall j :: 0 <= j < k ==> teams[j] != x
    ensures CountIssues(teams, ds, k, x) == 0
  {
    if k > 0 {
      CountIssuesAbsent(teams, ds, k - 1, x);
    }
  }

  /** Over distinct names, a name seen so far counts once if it is unmatched and else not at all. */
  lemma {:induction false} CountIssuesDistinct(teams: seq<string>, ds: seq<Decision>, k: nat, j: nat)
    requires j < k <= |teams| && |ds| == |teams| && Distinct(teams)
    ensures CountIssues(teams, ds, k, teams[j]) == if ds[j].NoMatch? then 1 else 0
  {
    if j < k - 1 {
      CountIssuesDistinct(teams, ds, k - 1, j);
      assert teams[k - 1] != teams[j];
    } else {
      CountIssuesAbsent(teams, ds, k - 1, teams[j]);
    }
  }

  lemma {:induction false} CountIssuesWitness(teams: seq<string>, ds: seq<Decision>, k: nat, x: string)
    requires k <= |teams| && |ds| == |teams| && CountIssues(teams, ds, k, x) > 0
    ensures exists j :: 0 <= j < k && teams[j] == x && ds[j].NoMatch?
  {
    if CountIssues(teams, ds, k - 1, x) > 0 {
      CountIssuesWitness(teams, ds, k - 1, x);
    }
  }

  /** The perfect and issue lists hold one entry per decision of their kind. */
  lemma {:induction false} MappedCounts(teams: seq<string>, ds: seq<Decision>, k: nat)
    requires k <= |teams| && |ds| == |teams|
    ensures var m := MappedUpTo(teams, ds, k);
            |m.perfectMatches| == CountKind(ds, k, PerfectKind) && |m.issues| == CountKind(ds, k, IssueKind)
  {
    if k > 0 {
      MappedCounts(teams, ds, k - 1);
    }
  }

  /**
   * Over distinct names, each name has one entry, the chain's target, and it maps to
   * null exactly when one issue is recorded for it; otherwise none is.
   */
  lemma {:induction false} NullIffOneIssue(teams: seq<string>, std: seq<string>, j: nat)
    requires j < |teams| && Distinct(teams)
    ensures var m := MappedUpTo(teams, Decisions(teams, std), |teams|);
            teams[j] in m.mapping && m.mapping[teams[j]] == Target(teams[j], Decide(teams[j], std))
            && (m.mapping[teams[j]].None? <==> IssuesFor(m.issues, teams[j]) == 1)
            && (m.mapping[teams[j]].Some? <==> IssuesFor(m.issues, teams[j]) == 0)
  {
    var ds := Decisions(teams, std);
    MappedTargets(teams, ds, |teams|);
    MappedIssues(teams, ds, |teams|, teams[j]);
    CountIssuesDistinct(teams, ds, |teams|, j);
    DecisionsAt(teams, std, j);
  }

  datatype Summary = Summary(
    totalCsvTeams: nat, totalDbTeams: nat, perfectMatches: nat, fuzzyMatches: int, issues: nat,
    mappingComplete: bool)

  /** `report.summary`. */
  function SummaryOf(uniqueCsvTeams: seq<string>, std: seq<string>, m: Mapped): Summary
  {
    Summary(|uniqueCsvTeams|, |std|, |m.perfectMatches|,
            |m.mapping.Keys| - |m.perfectMatches| - |m.issues|, |m.issues|, |m.issues| == 0)
  }

  /** Each decision is of exactly one kind, so the kinds' counts add up to the names counted. */
  lemma {:induction false} KindsAddUp(ds: seq<Decision>, k: nat)
    requires k <= |ds|
    ensures CountKind(ds, k, PerfectKind) + CountKind(ds, k, OtherKind) + CountKind(ds, k, IssueKind) == k
  {
    if k > 0 {
      KindsAddUp(ds, k - 1);
    }
  }

  /**
   * fuzzyMatches counts the names mapped ignoring case or fuzzily, so it is never
   * negative, and the mapping is complete exactly when every name maps to a team.
   */
  lemma {:induction false} SummaryMeaning(teams: seq<string>, std: seq<string>)
    requires Distinct(teams)
    ensures var m := MappedUpTo(teams, Decisions(teams, std), |teams|);
            SummaryOf(teams, std, m).fuzzyMatches == CountKind(Decisions(teams, std), |teams|, OtherKind)
    ensures var m := MappedUpTo(teams, Decisions(teams, std), |teams|);
            SummaryOf(teams, std, m).mappingComplete <==>
              forall j :: 0 <= j < |teams| ==> teams[j] in m.mapping && m.mapping[teams[j]].Some?
  {
    SummaryOver(teams, std, Decisions(teams, std));
  }

  /** SummaryMeaning, for any decisions. */
  lemma {:induction false} SummaryOver(teams: seq<string>, std: seq<string>, ds: seq<Decision>)
    requires |ds| == |teams| && Distinct(teams)
    ensures var m := MappedUpTo(teams, ds, |teams|);
            SummaryOf(teams, std, m).fuzzyMatches == CountKind(ds, |teams|, OtherKind)
    ensures var m := MappedUpTo(teams, ds, |teams|);
            SummaryOf(teams, std, m).mappingComplete <==>
              forall j :: 0 <= j < |teams| ==> teams[j] in m.mapping && m.mapping[teams[j]].Some?
  {
    var m := MappedUpTo(teams, ds, |teams|);
    MappedKeyCount(teams, ds, |teams|);
    MappedTargets(teams, ds, |teams|);
    MappedCounts(teams, ds, |teams|);
    KindsAddUp(ds, |teams|);
    if |m.issues| > 0 {
      var x := m.issues[|m.issues| - 1].csvName;
      IssueCounted(m.issues, x);
      MappedIssues(teams, ds, |teams|, x);
      CountIssuesWitness(teams, ds, |teams|, x);
    } else {
      forall j | 0 <= j < |teams| ensures !ds[j].NoMatch? {
        MappedIssues(teams, ds, |teams|, teams[j]);
        CountIssuesDistinct(teams, ds, |teams|, j);
      }
    }
  }

  lemma IssueCounted(issues: seq<Issue>, x: string)
    requires issues != [] && issues[|issues| - 1].csvName == x
    ensures IssuesFor(issues, x) > 0
  {
  }
}
