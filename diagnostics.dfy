/** The diagnostics list (DiagnosticsManagement.tsx): the status filter and its buttons. */
module Diagnostics {
  import opened Text
  import opened Seqs

  datatype Test = Test(id: nat, patient: string, test: string, ordered: string, status: string, result: string)

  function HasStatus(selected: string): Test -> bool
  {
    (t: Test) => selected == "all" || t.status == selected
  }

  /** `filteredTests`: every test for "all", otherwise the tests with the selected status;
      in list order. */
  function FilteredTests(tests: seq<Test>, selected: string): (r: seq<Test>)
    ensures selected != "all" ==> forall t :: t in r <==> t in tests && t.status == selected
    ensures IsSubsequence(r, tests) && |r| <= |tests|
  {
    Filter(tests, HasStatus(selected))
  }

  /** "all" shows every test. */
  lemma AllShowsEverything(tests: seq<Test>)
    ensures FilteredTests(tests, "all") == tests
  {
    FilterKeepsAll(tests, HasStatus("all"));
  }

  /** A status shows as many tests as carry it. */
  lemma FilteredCount(tests: seq<Test>, selected: string)
    ensures |FilteredTests(tests, selected)| == Count(tests, HasStatus(selected))
  {
    CountIsFilterLength(tests, HasStatus(selected));
  }

  /** A button's label: "All Tests" for "all", otherwise the status with its first letter
      upper-cased. */
  function StatusLabel(status: string): (r: string)
    ensures status == "all" ==> r == "All Tests"
    ensures status != "all" ==> |r| == |status| && (|status| > 0 ==> r[0] == UpperChar(status[0]) && r[1..] == status[1..])
  {
    if status == "all" then "All Tests" else Capitalize(status)
  }
}
