/** The issue-tracker report that the end-of-run handler builds: one synthetic
    record per maximal run of tests sharing a feature title, split into passes
    and failures, with counters over the records. */
module Jira {
  import opened Records
  import opened Grouping

  /** One synthetic record per feature run. */
  datatype GroupRecord = GroupRecord(title: string, fullTitle: string, duration: nat, error: Option<string>)

  datatype JiraStats = JiraStats(
    suites: nat,
    tests: nat,
    passes: nat,
    pending: nat,
    failures: nat,
    start: Timestamp,
    end: Timestamp,
    duration: nat)

  datatype JiraReport = JiraReport(
    stats: JiraStats,
    failures: seq<GroupRecord>,
    passes: seq<GroupRecord>,
    skipped: seq<GroupRecord>)

  /** The `fullTitle` every group record carries; it is never computed. */
  const Placeholder := "AUTO"
  const FailurePrefix := "Test failed: "

  /** Total duration of a sequence of tests. */
  function Sum(ts: seq<TestRec>): nat {
    if ts == [] then 0 else Sum(DropLast(ts)) + Last(ts).duration
  }

  /** Some test of the run has its own error. */
  ghost predicate HasFailure(run: seq<TestRec>) {
    exists j :: 0 <= j < |run| && run[j].err.Some?
  }

  /** Whether the duration of the first test of the `k`th run is counted. The
      feature title being tracked starts as the empty string, so only a first run
      whose feature title is empty opens without a reset. */
  predicate CountsFirst(rs: seq<seq<TestRec>>, k: int)
    requires 0 <= k < |rs| && |rs[k]| > 0
  {
    k == 0 && rs[k][0].feature == ""
  }

  /** The accumulated duration of a run: the run-start reset drops the first
      test's duration unless `countFirst`. */
  function RunDuration(run: seq<TestRec>, countFirst: bool): nat
    requires |run| > 0
  {
    if countFirst then Sum(run) else Sum(run[1..])
  }

  /** The record a run gets, stated over the whole run. A run with a failing
      test is a failure whose message names the run's last test, whichever test
      failed. */
  ghost function Group(run: seq<TestRec>, countFirst: bool): GroupRecord
    requires |run| > 0
  {
    GroupRecord(
      run[0].feature,
      Placeholder,
      RunDuration(run, countFirst),
      if HasFailure(run) then Some(FailurePrefix + Last(run).title) else None)
  }

  /** The records of all maximal feature runs, in order. */
  ghost function RunRecords(ts: seq<TestRec>): (gs: seq<GroupRecord>)
    ensures |gs| == |Runs(ts)|
  {
    var rs := Runs(ts);
    seq(|rs|, k requires 0 <= k < |rs| => Group(rs[k], CountsFirst(rs, k)))
  }

  /** The record a test opens when the feature title changes at it. */
  function Start(t: TestRec, countFirst: bool): GroupRecord {
    GroupRecord(
      t.feature,
      Placeholder,
      if countFirst then t.duration else 0,
      if t.err.Some? then Some(FailurePrefix + t.title) else None)
  }

  /** The record `g` after a further test of the same feature. */
  function Extend(g: GroupRecord, t: TestRec): GroupRecord {
    GroupRecord(
      g.title,
      g.fullTitle,
      g.duration + t.duration,
      if g.error.Some? || t.err.Some? then Some(FailurePrefix + t.title) else None)
  }

  /** The records built test by test, in the order the end-of-run loop visits the
      tests: a test either extends the record of the test before it or opens a
      new record. */
  function Regroup(ts: seq<TestRec>): (gs: seq<GroupRecord>)
    ensures |gs| <= |ts|
    ensures |gs| == 0 <==> ts == []
  {
    if ts == [] then []
    else
      var p, t := DropLast(ts), Last(ts);
      var gs := Regroup(p);
      if p != [] && Last(p).feature == t.feature
      then DropLast(gs) + [Extend(Last(gs), t)]
      else gs + [Start(t, p == [] && t.feature == "")]
  }

  function Passed(gs: seq<GroupRecord>): seq<GroupRecord> {
    if gs == [] then [] else Passed(DropLast(gs)) + (if Last(gs).error.None? then [Last(gs)] else [])
  }

  function Failed(gs: seq<GroupRecord>): seq<GroupRecord> {
    if gs == [] then [] else Failed(DropLast(gs)) + (if Last(gs).error.Some? then [Last(gs)] else [])
  }

  function TotalDuration(gs: seq<GroupRecord>): nat {
    if gs == [] then 0 else TotalDuration(DropLast(gs)) + Last(gs).duration
  }

  /** The report the end-of-run handler builds for the collected tests. */
  function JiraSpec(ts: seq<TestRec>, start: Timestamp, end: Timestamp): JiraReport {
    var gs := Regroup(ts);
    JiraReport(
      JiraStats(|gs|, |gs|, |Passed(gs)|, 0, |Failed(gs)|, start, end, TotalDuration(gs)),
      Failed(gs),
      Passed(gs),
      [])
  }

  /** The tests before position `i` end exactly at a run boundary. */
  predicate Closed(ts: seq<TestRec>, i: int)
    requires 0 <= i <= |ts|
  {
    i == 0 || i == |ts| || ts[i].feature != ts[i - 1].feature
  }

  lemma DropLastAppendLast<T>(s: seq<T>)
    requires |s| > 0
    ensures s == DropLast(s) + [Last(s)]
  {
  }

  lemma TakeOneMore<T>(s: seq<T>, i: int)
    requires 0 <= i < |s|
    ensures s[..i + 1] == s[..i] + [s[i]]
  {
  }

  lemma SumAppend(ts: seq<TestRec>, t: TestRec)
    ensures Sum(ts + [t]) == Sum(ts) + t.duration
  {
    assert DropLast(ts + [t]) == ts;
  }

  lemma FiltersAppend(gs: seq<GroupRecord>, g: GroupRecord)
    ensures Passed(gs + [g]) == Passed(gs) + (if g.error.None? then [g] else [])
    ensures Failed(gs + [g]) == Failed(gs) + (if g.error.Some? then [g] else [])
    ensures TotalDuration(gs + [g]) == TotalDuration(gs) + g.duration
  {
    assert DropLast(gs + [g]) == gs;
  }

  /** Every record is either passed or failed, and the durations add up. */
  lemma {:induction false} FilterPartition(gs: seq<GroupRecord>)
    ensures |Passed(gs)| + |Failed(gs)| == |gs|
    ensures TotalDuration(Passed(gs)) + TotalDuration(Failed(gs)) == TotalDuration(gs)
  {
    if gs != [] {
      var front, g := DropLast(gs), Last(gs);
      FilterPartition(front);
      assert gs == front + [g];
      FiltersAppend(front, g);
      if g.error.None? {
        assert Passed(gs) == Passed(front) + [g] && Failed(gs) == Failed(front);
        FiltersAppend(Passed(front), g);
      } else {
        assert Passed(gs) == Passed(front) && Failed(gs) == Failed(front) + [g];
        FiltersAppend(Failed(front), g);
      }
    }
  }

  lemma HasFailureAppend(run: seq<TestRec>, t: TestRec)
    ensures HasFailure(run + [t]) <==> HasFailure(run) || t.err.Some?
  {
    if HasFailure(run) {
      var j :| 0 <= j < |run| && run[j].err.Some?;
      assert (run + [t])[j] == run[j];
    }
    if t.err.Some? {
      assert (run + [t])[|run|] == t;
    }
    if HasFailure(run + [t]) {
      var j :| 0 <= j < |run| + 1 && (run + [t])[j].err.Some?;
      if j < |run| {
        assert run[j] == (run + [t])[j];
      }
    }
  }

  /** One more test in a run extends the run's record. */
  lemma GroupAppend(run: seq<TestRec>, t: TestRec, countFirst: bool)
    requires |run| > 0
    ensures Group(run + [t], countFirst) == Extend(Group(run, countFirst), t)
  {
    assert (run + [t])[1..] == run[1..] + [t];
    SumAppend(run, t);
    SumAppend(run[1..], t);
    HasFailureAppend(run, t);
  }

  /** A run of one test has the record that test opens. */
  lemma GroupSingle(t: TestRec, countFirst: bool)
    ensures Group([t], countFirst) == Start(t, countFirst)
  {
    var run := [t];
    assert run[0] == Last(run) == t;
    assert run[1..] == [] && DropLast(run) == [];
    assert Sum(run) == t.duration;
    assert HasFailure(run) <==> t.err.Some?;
  }

  /** A test with the feature title of the test before it joins that test's run. */
  lemma RunRecordsExtend(p: seq<TestRec>, t: TestRec)
    requires p != [] && Last(p).feature == t.feature
    ensures |RunRecords(p + [t])| == |RunRecords(p)| > 0
    ensures DropLast(RunRecords(p + [t])) == DropLast(RunRecords(p))
    ensures Last(RunRecords(p + [t])) == Extend(Last(RunRecords(p)), t)
  {
    var ts := p + [t];
    assert DropLast(ts) == p;
    var rs, rs' := Runs(p), Runs(ts);
    var n := |rs|;
    assert rs' == DropLast(rs) + [Last(rs) + [t]];
    var gs, gs' := RunRecords(p), RunRecords(ts);
    forall k | 0 <= k < n - 1
      ensures gs'[k] == gs[k]
    {
      assert rs'[k] == rs[k];
    }
    assert CountsFirst(rs', n - 1) == CountsFirst(rs, n - 1);
    GroupAppend(rs[n - 1], t, CountsFirst(rs, n - 1));
  }

  /** A test whose feature title differs from the previous test's, or the first
      test, opens a new run. */
  lemma RunRecordsOpen(p: seq<TestRec>, t: TestRec)
    requires p == [] || Last(p).feature != t.feature
    ensures RunRecords(p + [t]) == RunRecords(p) + [Start(t, p == [] && t.feature == "")]
  {
    var ts := p + [t];
    assert DropLast(ts) == p;
    var rs, rs' := Runs(p), Runs(ts);
    assert rs' == rs + [[t]];
    var gs, gs' := RunRecords(p), RunRecords(ts);
    forall k | 0 <= k < |gs|
      ensures gs'[k] == gs[k]
    {
      assert rs'[k] == rs[k];
    }
    GroupSingle(t, p == [] && t.feature == "");
  }

  /** The records built test by test are exactly the records of the maximal
      feature runs. */
  lemma {:induction false} RegroupIsPerRun(ts: seq<TestRec>)
    ensures Regroup(ts) == RunRecords(ts)
  {
    if ts != [] {
      var p, t := DropLast(ts), Last(ts);
      assert ts == p + [t];
      RegroupIsPerRun(p);
      if p != [] && Last(p).feature == t.feature {
        RunRecordsExtend(p, t);
        DropLastAppendLast(RunRecords(ts));
      } else {
        RunRecordsOpen(p, t);
      }
    }
  }

  /** `Regroup` on one more test, as the loop sees it. */
  lemma RegroupStep(p: seq<TestRec>, t: TestRec)
    ensures var gs, gs' := Regroup(p), Regroup(p + [t]);
      |gs'| > 0 &&
      if p != [] && Last(p).feature == t.feature
      then DropLast(gs') == DropLast(gs) && Last(gs') == Extend(Last(gs), t)
      else DropLast(gs') == gs && Last(gs') == Start(t, p == [] && t.feature == "")
  {
    assert DropLast(p + [t]) == p;
  }

  /** `Regroup` on a sequence written as a prefix and one more test. */
  lemma RegroupSnoc(p: seq<TestRec>, t: TestRec)
    ensures Regroup(p + [t])
      == if p != [] && Last(p).feature == t.feature
         then DropLast(Regroup(p)) + [Extend(Last(Regroup(p)), t)]
         else Regroup(p) + [Start(t, p == [] && t.feature == "")]
  {
    assert DropLast(p + [t]) == p;
  }

  /** Before a test is visited, the records pushed so far are all records of
      the tests up to and including it but the last. */
  lemma PushedBeforeStep(ts: seq<TestRec>, idx: int, done: seq<TestRec>, pushed: seq<GroupRecord>)
    requires 0 <= idx < |ts| && done == ts[..idx]
    requires pushed == if Closed(ts, idx) then Regroup(done) else DropLast(Regroup(done))
    ensures |Regroup(done + [ts[idx]])| > 0
    ensures DropLast(Regroup(done + [ts[idx]])) == pushed
  {
    if idx > 0 {
      assert Last(done) == ts[idx - 1];
    }
    RegroupStep(done, ts[idx]);
  }

  /** `jiraObj`: the issue-tracker document the end-of-run handler fills in
      place. `records` is every record pushed so far, in push order. */
  class JiraDocument {
    var stats: JiraStats
    var failures: seq<GroupRecord>
    var passes: seq<GroupRecord>
    ghost var records: seq<GroupRecord>

    /** The counters count the records, and each record sits in the list its
        error decides. */
    ghost predicate Valid()
      reads this
    {
      passes == Passed(records) && failures == Failed(records)
      && stats.suites == stats.tests == |records|
      && stats.passes == |passes| && stats.failures == |failures|
      && stats.pending == 0 && stats.duration == TotalDuration(records)
    }

    constructor (start: Timestamp, end: Timestamp)
      ensures Valid() && records == []
      ensures stats.start == start && stats.end == end
    {
      stats := JiraStats(0, 0, 0, 0, 0, start, end, 0);
      failures, passes := [], [];
      records := [];
    }

    /** The document as the handler serialises it. */
    function Report(): (r: JiraReport)
      reads this
      requires Valid()
      ensures r == JiraReport(stats, Failed(records), Passed(records), [])
      ensures r.stats.tests == r.stats.suites == |r.passes| + |r.failures|
    {
      FilterPartition(records);
      JiraReport(stats, failures, passes, [])
    }

    /** The flush: count one more record and push it onto `failures` when the
        feature saw an error, onto `passes` otherwise. */
    method AddFeature(title: string, duration: nat, featureError: string, testTitle: string)
      requires Valid()
      modifies this
      ensures Valid()
      ensures records == old(records)
        + [GroupRecord(title, Placeholder, duration,
                       if featureError != "" then Some(FailurePrefix + testTitle) else None)]
      ensures stats.start == old(stats.start) && stats.end == old(stats.end)
    {
      var record;
      if featureError != "" {
        record := GroupRecord(title, Placeholder, duration, Some(FailurePrefix + testTitle));
        stats := stats.(suites := stats.suites + 1, tests := stats.tests + 1,
                        duration := stats.duration + duration, failures := stats.failures + 1);
        failures := failures + [record];
      } else {
        record := GroupRecord(title, Placeholder, duration, None);
        stats := stats.(suites := stats.suites + 1, tests := stats.tests + 1,
                        duration := stats.duration + duration, passes := stats.passes + 1);
        passes := passes + [record];
      }
      FiltersAppend(records, record);
      records := records + [record];
    }
  }

  /** The feature accumulators of the end-of-run loop after visiting `done`:
      they describe the last record of `done`, or hold their initial values. */
  ghost predicate FeatureTracked(done: seq<TestRec>, title: string, duration: nat, error: string) {
    if done == [] then title == "" && duration == 0 && error == ""
    else
      var g := Last(Regroup(done));
      g.title == title == Last(done).feature && g.fullTitle == Placeholder && g.duration == duration
      && (g.error.Some? <==> error != "")
      && (g.error.Some? ==> g.error == Some(FailurePrefix + Last(done).title))
  }

  /** The scenario counter and title after visiting `done`. */
  ghost predicate ScenarioTracked(done: seq<TestRec>, count: nat, title: string) {
    count == Switches(done, Scenario, Some(""))
    && title == if done == [] then "" else Last(done).scenario
  }

  /** Feature boundary detection for one test: a new feature title resets the
      duration and the error, a repeated one adds the test's duration; an error on
      the test marks the feature as failed. */
  method TrackFeature(test: TestRec, currentFeatureTitle: string, featureDuration: nat, featureError: string,
                      ghost done: seq<TestRec>)
    returns (title: string, duration: nat, error: string)
    requires FeatureTracked(done, currentFeatureTitle, featureDuration, featureError)
    ensures FeatureTracked(done + [test], title, duration, error)
  {
    title, duration, error := currentFeatureTitle, featureDuration, featureError;
    if test.feature != title {
      duration := 0;
      title := test.feature;
      error := "";
    } else {
      duration := duration + test.duration;
    }
    if test.err.Some? {
      error := FailurePrefix + test.title;
    }
    RegroupStep(done, test);
    assert Last(done + [test]) == test;
  }

  /** Scenario boundary detection for one test, by scenario title alone. */
  method TrackScenario(test: TestRec, scenarioCount: nat, currentScenarioTitle: string, ghost done: seq<TestRec>)
    returns (count: nat, title: string)
    requires ScenarioTracked(done, scenarioCount, currentScenarioTitle)
    ensures ScenarioTracked(done + [test], count, title)
  {
    count, title := scenarioCount, currentScenarioTitle;
    if test.scenario != title {
      count := count + 1;
      title := test.scenario;
    }
    SwitchesStep(done, test, Scenario, Some(""));
    assert Last(done + [test]) == test;
  }

  /** What the end-of-run loop knows after visiting the first `idx` tests: the
      pushed records are the records of those tests, the last one left out
      while its run may still continue, and the accumulators track the last
      record and the scenario changes. */
  ghost predicate Visited(ts: seq<TestRec>, idx: int, pushed: seq<GroupRecord>, title: string, duration: nat,
                          error: string, count: nat, scenario: string)
  {
    0 <= idx <= |ts|
    && pushed == (if Closed(ts, idx) then Regroup(ts[..idx]) else DropLast(Regroup(ts[..idx])))
    && FeatureTracked(ts[..idx], title, duration, error)
    && ScenarioTracked(ts[..idx], count, scenario)
  }

  /** One iteration of the end-of-run loop keeps `Visited`: the accumulators
      hold the last record of the tests visited, and that record is pushed
      exactly when the next test's feature title differs or no test follows. */
  lemma VisitStep(ts: seq<TestRec>, idx: int, pushed: seq<GroupRecord>, pushed': seq<GroupRecord>, flush: bool,
                  title: string, duration: nat, error: string, count: nat, scenario: string)
    requires 0 <= idx < |ts|
    requires pushed == if Closed(ts, idx) then Regroup(ts[..idx]) else DropLast(Regroup(ts[..idx]))
    requires FeatureTracked(ts[..idx + 1], title, duration, error)
    requires ScenarioTracked(ts[..idx + 1], count, scenario)
    requires flush <==> idx + 1 == |ts| || ts[idx + 1].feature != title
    requires pushed' == if flush
      then pushed + [GroupRecord(title, Placeholder, duration,
                                 if error != "" then Some(FailurePrefix + ts[idx].title) else None)]
      else pushed
    ensures Visited(ts, idx + 1, pushed', title, duration, error, count, scenario)
  {
    var p := ts[..idx + 1];
    TakeOneMore(ts, idx);
    PushedBeforeStep(ts, idx, ts[..idx], pushed);
    assert Last(p) == ts[idx];
    DropLastAppendLast(Regroup(p));
  }

  /** The end-of-run loop: one forward pass over the tests with a one-test
      lookahead, emitting a record whenever the next test's feature title differs
      or the last test is reached, and counting scenario-title changes. */
  method BuildJiraReport(tests: seq<TestRec>, start: Timestamp, end: Timestamp)
    returns (jira: JiraReport, scenarioCount: nat)
    ensures jira == JiraSpec(tests, start, end)
    ensures scenarioCount == Switches(tests, Scenario, Some(""))
  {
    var jiraObj := new JiraDocument(start, end);
    scenarioCount := 0;
    var featureDuration: nat := 0;
    var currentFeatureTitle, currentScenarioTitle := "", "";
    var featureError := "";
    var idx := 0;
    while idx < |tests|
      invariant jiraObj.Valid() && jiraObj.stats.start == start && jiraObj.stats.end == end
      invariant Visited(tests, idx, jiraObj.records, currentFeatureTitle, featureDuration, featureError,
                        scenarioCount, currentScenarioTitle)
    {
      var test := tests[idx];
      ghost var pushed := jiraObj.records;
      TakeOneMore(tests, idx);
      currentFeatureTitle, featureDuration, featureError :=
        TrackFeature(test, currentFeatureTitle, featureDuration, featureError, tests[..idx]);
      scenarioCount, currentScenarioTitle := TrackScenario(test, scenarioCount, currentScenarioTitle, tests[..idx]);

      var nextFeatureTitle := "";
      if |tests| > idx + 1 {
        nextFeatureTitle := tests[idx + 1].feature;
      }
      var flush := |tests| == idx + 1 || nextFeatureTitle != currentFeatureTitle;
      if flush {
        jiraObj.AddFeature(currentFeatureTitle, featureDuration, featureError, test.title);
      }
      VisitStep(tests, idx, pushed, jiraObj.records, flush, currentFeatureTitle, featureDuration, featureError,
                scenarioCount, currentScenarioTitle);
      idx := idx + 1;
    }
    assert tests[..idx] == tests;
    jira := jiraObj.Report();
  }
}
