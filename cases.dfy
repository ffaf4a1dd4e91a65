/** The case list: a fixed set of case records, a search over name and case
    code, and the summary counts shown above the list. */
module Cases {

  import opened Lists

  /** One client case as the list shows it. */
  datatype CaseRecord = CaseRecord(
    id: string,
    name: string,
    caseCode: string,
    birthDate: string,
    gender: string,
    lastVisit: string,
    assessmentCount: int,
    status: string)

  /** The cases the page starts with. */
  const SampleCases: seq<CaseRecord> := [
    CaseRecord("1", "王大明", "JF001", "1950-03-15", "male", "2024-01-15", 3, "active"),
    CaseRecord("2", "李小華", "JF002", "1945-07-22", "female", "2024-01-10", 5, "active"),
    CaseRecord("3", "陳美玲", "JF003", "1955-11-08", "female", "2023-12-20", 2, "inactive")]

  /** The search matches a case whose name or case code contains the term. */
  predicate Matches(c: CaseRecord, term: string)
  {
    Includes(c.name, term) || Includes(c.caseCode, term)
  }

  /** `cases.filter(...)`: the matching cases, in list order, each as often as
      the list holds it. */
  function FilteredCases(cases: seq<CaseRecord>, term: string): (r: seq<CaseRecord>)
    ensures IsSubsequence(r, cases)
    ensures forall c :: c in r <==> c in cases && Matches(c, term)
    ensures |r| <= |cases|
  {
    if cases == [] then []
    else
      var rest := FilteredCases(cases[1..], term);
      if Matches(cases[0], term) then
        [cases[0]] + rest
      else
        SubsequenceDropHead(rest, cases);
        rest
  }

  /** The search keeps every matching case as often as the list holds it and
      drops every other case; with `IsSubsequence` this fixes the result. */
  lemma {:induction false} FilteredCounts(cases: seq<CaseRecord>, term: string)
    ensures forall c :: multiset(FilteredCases(cases, term))[c]
                     == if Matches(c, term) then multiset(cases)[c] else 0
  {
    if cases != [] {
      FilteredCounts(cases[1..], term);
      assert cases == [cases[0]] + cases[1..];
    }
  }

  /** An empty search term keeps every case. */
  lemma {:induction false} EmptyTermKeepsAll(cases: seq<CaseRecord>)
    ensures FilteredCases(cases, "") == cases
  {
    if cases != [] {
      IncludesEmpty(cases[0].name);
      EmptyTermKeepsAll(cases[1..]);
    }
  }

  /** Filtering the filtered list again with the same term changes nothing. */
  lemma {:induction false} FilterIdempotent(cases: seq<CaseRecord>, term: string)
    ensures FilteredCases(FilteredCases(cases, term), term) == FilteredCases(cases, term)
  {
    if cases != [] {
      FilterIdempotent(cases[1..], term);
      if Matches(cases[0], term) {
        assert ([cases[0]] + FilteredCases(cases[1..], term))[1..] == FilteredCases(cases[1..], term);
      }
    }
  }

  /** The statuses of the cases, in list order. */
  function Statuses(cases: seq<CaseRecord>): (r: seq<string>)
    ensures |r| == |cases|
    ensures forall i :: 0 <= i < |cases| ==> r[i] == cases[i].status
  {
    if cases == [] then [] else [cases[0].status] + Statuses(cases[1..])
  }

  /** `cases.filter(c => c.status === 'active').length`: how many records
      have the status 'active'. */
  function ActiveCount(cases: seq<CaseRecord>): (r: nat)
    ensures r == multiset(Statuses(cases))["active"]
    ensures r <= |cases|
    ensures r == 0 <==> forall c :: c in cases ==> c.status != "active"
  {
    if cases == [] then 0
    else
      assert Statuses(cases) == [cases[0].status] + Statuses(cases[1..]);
      (if cases[0].status == "active" then 1 else 0) + ActiveCount(cases[1..])
  }

  /** `cases.reduce((sum, c) => sum + c.assessmentCount, 0)`, folding from the
      left as `reduce` does. */
  function TotalAssessments(cases: seq<CaseRecord>): int
  {
    SumFrom(0, cases)
  }

  function SumFrom(acc: int, cases: seq<CaseRecord>): (r: int)
    ensures (forall i :: 0 <= i < |cases| ==> cases[i].assessmentCount >= 0) ==> r >= acc
    decreases |cases|
  {
    if cases == [] then acc else SumFrom(acc + cases[0].assessmentCount, cases[1..])
  }

  /** The left fold adds the counts one by one: the starting value plus the
      sum of the counts, whatever it starts from. */
  lemma {:induction false} SumFromShift(acc: int, cases: seq<CaseRecord>)
    ensures SumFrom(acc, cases) == acc + SumFrom(0, cases)
    decreases |cases|
  {
    if cases != [] {
      SumFromShift(acc + cases[0].assessmentCount, cases[1..]);
      SumFromShift(cases[0].assessmentCount, cases[1..]);
    }
  }

  /** The total of a list is the total of its parts. */
  lemma {:induction false} TotalOfConcat(a: seq<CaseRecord>, b: seq<CaseRecord>)
    ensures TotalAssessments(a + b) == TotalAssessments(a) + TotalAssessments(b)
    decreases |a|
  {
    if a == [] {
      assert a + b == b;
    } else {
      assert (a + b)[1..] == a[1..] + b;
      TotalOfConcat(a[1..], b);
      SumFromShift(a[0].assessmentCount, a[1..] + b);
      SumFromShift(a[0].assessmentCount, a[1..]);
    }
  }

  /** With counts that are never negative, the total is at least each case's
      count. */
  lemma {:induction false} TotalBoundsEachCount(cases: seq<CaseRecord>, i: int)
    requires forall c :: c in cases ==> c.assessmentCount >= 0
    requires 0 <= i < |cases|
    ensures TotalAssessments(cases) >= cases[i].assessmentCount
    decreases |cases|
  {
    SumFromShift(cases[0].assessmentCount, cases[1..]);
    NonNegativeTotal(cases[1..]);
    if i > 0 {
      TotalBoundsEachCount(cases[1..], i - 1);
    }
  }

  lemma {:induction false} NonNegativeTotal(cases: seq<CaseRecord>)
    requires forall c :: c in cases ==> c.assessmentCount >= 0
    ensures TotalAssessments(cases) >= 0
    decreases |cases|
  {
    if cases != [] {
      SumFromShift(cases[0].assessmentCount, cases[1..]);
      NonNegativeTotal(cases[1..]);
    }
  }

  /** `getStatusText(status)`. */
  function StatusText(status: string): (r: string)
    ensures r == "活躍" <==> status == "active"
    ensures r == "活躍" || r == "非活躍"
  {
    if status == "active" then "活躍" else "非活躍"
  }

  /** The summary above the sample list: three cases, two of them active, ten
      assessments in all. */
  lemma SampleSummary()
    ensures |SampleCases| == 3
    ensures ActiveCount(SampleCases) == 2
    ensures TotalAssessments(SampleCases) == 10
  {
    assert SampleCases[1..][1..][1..] == [];
  }

  /** A text contains a term of its own length only when it is that term. */
  lemma SameLengthIncludes(s: string, term: string)
    requires |s| == |term|
    ensures Includes(s, term) <==> s == term
  {
    if |s| > 0 {
      ShorterExcludes(s[1..], term);
    }
  }

  /** Searching the sample list for "JF00" keeps every case. */
  lemma SampleSearchByCodePrefix()
    ensures FilteredCases(SampleCases, "JF00") == SampleCases
  {
    var c0, c1, c2 := SampleCases[0], SampleCases[1], SampleCases[2];
    assert "JF00" <= c0.caseCode && "JF00" <= c1.caseCode && "JF00" <= c2.caseCode;
    assert Matches(c0, "JF00") && Matches(c1, "JF00") && Matches(c2, "JF00");
    AllMatchingKept(SampleCases, "JF00");
  }

  /** When every case matches, the search keeps the whole list. */
  lemma {:induction false} AllMatchingKept(cases: seq<CaseRecord>, term: string)
    requires forall i :: 0 <= i < |cases| ==> Matches(cases[i], term)
    ensures FilteredCases(cases, term) == cases
  {
    if cases != [] {
      AllMatchingKept(cases[1..], term);
    }
  }

  /** Searching the sample list for a full name keeps only that case. */
  lemma SampleSearchByName()
    ensures FilteredCases(SampleCases, "李小華") == [SampleCases[1]]
  {
    var c0, c1, c2 := SampleCases[0], SampleCases[1], SampleCases[2];
    SameLengthIncludes(c0.name, "李小華");
    SameLengthIncludes(c1.name, "李小華");
    SameLengthIncludes(c2.name, "李小華");
    CodeExcludesName(c0.caseCode);
    CodeExcludesName(c2.caseCode);
    assert !Matches(c0, "李小華") && Matches(c1, "李小華") && !Matches(c2, "李小華");
    assert SampleCases[1..] == [c1, c2] && SampleCases[1..][1..] == [c2];
    assert FilteredCases([c2], "李小華") == [];
  }

  /** A case code of ASCII letters and digits holds no Chinese name. */
  lemma CodeExcludesName(code: string)
    requires |code| == 5 && forall i :: 0 <= i < |code| ==> code[i] < '\U{80}'
    ensures !Includes(code, "李小華")
  {
    var name := "李小華";
    assert name[0] == '李';
    assert code[1..][1..] == code[2..] && code[2..][1..] == code[3..];
    ShorterExcludes(code[3..], name);
    assert code[2..][0] == code[2];
    assert !Includes(code[2..], name);
    assert code[1..][0] == code[1];
    assert !Includes(code[1..], name);
    assert !(name <= code);
  }
}
