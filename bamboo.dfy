/** The reporter object: the event handlers that collect tests as the runner
    reports them, and the end-of-run handler that assembles the flat report and
    the issue-tracker report. */
module Bamboo {
  import opened Records
  import opened Grouping
  import opened Jira
  import opened JiraProperties

  /** The runner's statistics object as the flat report carries it. */
  datatype RunStats = RunStats(
    suites: nat,
    tests: nat,
    passes: nat,
    pending: nat,
    failures: nat,
    start: Timestamp,
    end: Timestamp,
    duration: nat)

  /** The flat report: the run's statistics and the cleaned collected tests. */
  datatype FlatReport = FlatReport(
    stats: RunStats,
    failures: seq<CleanTest>,
    passes: seq<CleanTest>,
    skipped: seq<CleanTest>)

  /** The flat report the end-of-run handler writes: the runner's statistics with
      `suites` replaced by the scenario counter, and each collected sequence
      cleaned element by element. */
  function FlatSpec(stats: RunStats, tests: seq<TestRec>, failures: seq<TestRec>,
                    passes: seq<TestRec>, skipped: seq<TestRec>): FlatReport
  {
    FlatReport(
      stats.(suites := Switches(tests, Scenario, Some(""))),
      CleanAll(failures),
      CleanAll(passes),
      CleanAll(skipped))
  }

  /** The reporter's four collections, in the order the runner reported the
      tests; nothing is de-duplicated. */
  class Reporter {
    var tests: seq<TestRec>
    var failures: seq<TestRec>
    var passes: seq<TestRec>
    var skipped: seq<TestRec>

    constructor ()
      ensures tests == [] && failures == [] && passes == [] && skipped == []
    {
      tests, failures, passes, skipped := [], [], [], [];
    }

    /** `test end`: every finished test, whatever its outcome. */
    method OnTestEnd(test: TestRec)
      modifies this
      ensures tests == old(tests) + [test]
      ensures failures == old(failures) && passes == old(passes) && skipped == old(skipped)
    {
      tests := tests + [test];
    }

    /** `pending`: a test that was not run. */
    method OnPending(test: TestRec)
      modifies this
      ensures skipped == old(skipped) + [test]
      ensures tests == old(tests) && failures == old(failures) && passes == old(passes)
    {
      skipped := skipped + [test];
    }

    /** `pass`: a test that succeeded. */
    method OnPass(test: TestRec)
      modifies this
      ensures passes == old(passes) + [test]
      ensures tests == old(tests) && failures == old(failures) && skipped == old(skipped)
    {
      passes := passes + [test];
    }

    /** `fail`: a test that failed. */
    method OnFail(test: TestRec)
      modifies this
      ensures failures == old(failures) + [test]
      ensures tests == old(tests) && passes == old(passes) && skipped == old(skipped)
    {
      failures := failures + [test];
    }

    /** `end`: the flat report, whose `suites` counts scenario changes, and the
        issue-tracker report with one record per feature run. */
    method OnEnd(stats: RunStats) returns (flat: FlatReport, jira: JiraReport)
      ensures flat == FlatSpec(stats, tests, failures, passes, skipped)
      ensures |flat.failures| == |failures| && |flat.passes| == |passes| && |flat.skipped| == |skipped|
      ensures flat.stats.suites == |ChangePositions(tests, Scenario, Some(""))|
      ensures jira == JiraSpec(tests, stats.start, stats.end)
      ensures |jira.passes| + |jira.failures| == |Runs(tests)|
    {
      var scenarioCount;
      jira, scenarioCount := BuildJiraReport(tests, stats.start, stats.end);
      flat := FlatReport(
        stats.(suites := scenarioCount),
        CleanAll(failures),
        CleanAll(passes),
        CleanAll(skipped));
      SwitchesCountsChanges(tests, Scenario, Some(""));
      GroupCount(tests, stats.start, stats.end);
    }
  }

  /** Feature "Login", scenario "Valid creds": two passing tests of 5 and 7 ms,
      then "submit", failing after 3 ms. */
  function LoginTests(): seq<TestRec> {
    [TestRec("enter username", "Valid creds", "Login", 5, None),
     TestRec("enter password", "Valid creds", "Login", 7, None),
     TestRec("submit", "Valid creds", "Login", 3, Some(TestError(None, "bad password")))]
  }

  lemma LoginRegroup()
    ensures Regroup(LoginTests()) == [GroupRecord("Login", Placeholder, 10, Some(FailurePrefix + "submit"))]
    ensures Switches(LoginTests(), Scenario, Some("")) == 1
  {
    var ts := LoginTests();
    assert ts[..1] == [] + [ts[0]];
    assert Regroup(ts[..1]) == [GroupRecord("Login", Placeholder, 0, None)];
    assert Switches(ts[..1], Scenario, Some("")) == 1;
    assert ts[..2] == ts[..1] + [ts[1]];
    assert Regroup(ts[..2]) == [GroupRecord("Login", Placeholder, 7, None)];
    assert Switches(ts[..2], Scenario, Some("")) == 1;
    assert ts == ts[..2] + [ts[2]];
  }

  /** Two collected tests, cleaned one append at a time. */
  lemma CleanTwo(a: TestRec, b: TestRec)
    ensures CleanAll([a, b]) == [Clean(a), Clean(b)]
  {
    CleanAllAppend([], a);
    CleanAllAppend([a], b);
    assert [a, b] == ([] + [a]) + [b];
  }

  /** The issue-tracker report for the Login tests. */
  lemma LoginJira(start: Timestamp, end: Timestamp)
    ensures var jira := JiraSpec(LoginTests(), start, end);
      jira.failures == [GroupRecord("Login", Placeholder, 10, Some(FailurePrefix + "submit"))]
      && jira.passes == []
  {
    LoginRegroup();
    var g := GroupRecord("Login", Placeholder, 10, Some(FailurePrefix + "submit"));
    FiltersAppend([], g);
    assert [] + [g] == [g];
  }

  /** The flat report for the Login tests as the handlers collect them. */
  lemma LoginFlat(stats: RunStats)
    ensures var ts := LoginTests();
      var flat := FlatSpec(stats, ts, [ts[2]], [ts[0], ts[1]], []);
      |flat.failures| == 1 && flat.failures[0].title == "submit"
      && flat.failures[0].error == Some("bad password")
      && flat.passes == [Clean(ts[0]), Clean(ts[1])]
      && flat.skipped == [] && flat.stats.suites == 1
  {
    var ts := LoginTests();
    LoginRegroup();
    CleanTwo(ts[0], ts[1]);
  }

  /** The two reports for the Login tests, as the handlers collect them. */
  lemma LoginReports(stats: RunStats)
    ensures var ts := LoginTests();
      var jira := JiraSpec(ts, stats.start, stats.end);
      var flat := FlatSpec(stats, ts, [ts[2]], [ts[0], ts[1]], []);
      jira.failures == [GroupRecord("Login", Placeholder, 10, Some(FailurePrefix + "submit"))]
      && jira.passes == []
      && |flat.failures| == 1 && flat.failures[0].title == "submit"
      && flat.failures[0].error == Some("bad password")
      && flat.passes == [Clean(ts[0]), Clean(ts[1])]
      && flat.skipped == [] && flat.stats.suites == 1
  {
    LoginJira(stats.start, stats.end);
    LoginFlat(stats);
  }

  /** The Login run fed to the handlers in the runner's order, each test's
      outcome event before its `test end`: one failed record of 10 ms naming
      "submit", no passed record, and a flat report with the failing test's
      message, the passing tests cleaned in order, and one scenario. */
  method LoginRun(stats: RunStats) returns (flat: FlatReport, jira: JiraReport)
    ensures jira.failures == [GroupRecord("Login", Placeholder, 10, Some(FailurePrefix + "submit"))]
    ensures jira.passes == []
    ensures |flat.failures| == 1 && flat.failures[0].title == "submit"
    ensures flat.failures[0].error == Some("bad password")
    ensures flat.passes == [Clean(LoginTests()[0]), Clean(LoginTests()[1])]
    ensures flat.skipped == [] && flat.stats.suites == 1
  {
    var ts := LoginTests();
    var reporter := new Reporter();
    reporter.OnPass(ts[0]);
    reporter.OnTestEnd(ts[0]);
    reporter.OnPass(ts[1]);
    reporter.OnTestEnd(ts[1]);
    reporter.OnFail(ts[2]);
    reporter.OnTestEnd(ts[2]);
    assert reporter.tests == ts;
    assert reporter.passes == [ts[0], ts[1]] && reporter.failures == [ts[2]] && reporter.skipped == [];
    flat, jira := reporter.OnEnd(stats);
    LoginReports(stats);
  }
}
