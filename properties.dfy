/** What the issue-tracker report says about the tests it was built from: one
    record per maximal feature run, the record's verdict, message and duration
    read off its run, and counters that agree with the record lists. */
module JiraProperties {
  import opened Records
  import opened Grouping
  import opened Jira

  /** The durations the run-start reset leaves out: the duration of every test
      whose feature title differs from the previous test's, the first test
      being compared with the empty title. */
  function DroppedDuration(ts: seq<TestRec>): nat {
    if ts == [] then 0
    else DroppedDuration(DropLast(ts)) + (if ChangesAt(ts, |ts| - 1, Feature, Some("")) then Last(ts).duration else 0)
  }

  /** A run's duration is its first test's plus the rest's. */
  lemma {:induction false} SumFront(run: seq<TestRec>)
    requires |run| > 0
    ensures Sum(run) == run[0].duration + Sum(run[1..])
  {
    if |run| == 1 {
      assert run[1..] == [];
      assert DropLast(run) == [];
    } else {
      var front := DropLast(run);
      SumFront(front);
      assert run[1..] == front[1..] + [Last(run)];
      SumAppend(front[1..], Last(run));
    }
  }

  /** The number of records equals the number of maximal feature runs, which is
      the number of positions where the feature title changes. */
  lemma GroupCount(ts: seq<TestRec>, start: Timestamp, end: Timestamp)
    ensures var r := JiraSpec(ts, start, end);
      |r.passes| + |r.failures| == |Runs(ts)| == Switches(ts, Feature, None)
  {
    FilterPartition(Regroup(ts));
    RegroupIsPerRun(ts);
    RunsCount(ts);
  }

  /** The `k`th record describes the `k`th maximal run: its title is the feature
      title every test of the run carries, it has an error exactly when some
      test of the run failed, the error names the run's last test, and its
      duration is the run's total less the first test's, except for an initial
      run whose feature title is empty. */
  lemma GroupsDescribeRuns(ts: seq<TestRec>, k: int)
    requires 0 <= k < |Runs(ts)|
    ensures |Regroup(ts)| == |Runs(ts)|
    ensures var g, run := Regroup(ts)[k], Runs(ts)[k];
      |run| > 0
      && (forall j :: 0 <= j < |run| ==> run[j].feature == g.title)
      && g.fullTitle == Placeholder
      && (g.error.Some? <==> exists j :: 0 <= j < |run| && run[j].err.Some?)
      && (g.error.Some? ==> g.error.value == FailurePrefix + Last(run).title)
      && g.duration + (if k == 0 && run[0].feature == "" then 0 else run[0].duration) == Sum(run)
  {
    RegroupIsPerRun(ts);
    RunsUniform(ts);
    var run := Runs(ts)[k];
    assert Uniform(run);
    SumFront(run);
  }

  /** `failures` holds exactly the records with an error and `passes` exactly
      those without, each in record order. */
  lemma {:induction false} FiltersSelect(gs: seq<GroupRecord>)
    ensures forall g :: g in Failed(gs) <==> g in gs && g.error.Some?
    ensures forall g :: g in Passed(gs) <==> g in gs && g.error.None?
  {
    if gs != [] {
      var front, g := DropLast(gs), Last(gs);
      FiltersSelect(front);
      assert gs == front + [g];
      FiltersAppend(front, g);
    }
  }

  /** Records without an error all pass, in order. */
  lemma {:induction false} NoErrorsAllPass(gs: seq<GroupRecord>)
    requires forall i :: 0 <= i < |gs| ==> gs[i].error.None?
    ensures Passed(gs) == gs && Failed(gs) == []
  {
    if gs != [] {
      NoErrorsAllPass(DropLast(gs));
      DropLastAppendLast(gs);
    }
  }

  /** The counters agree with the lists: every record is counted once as a
      suite and once as a test, and once as a pass or a failure; nothing is
      pending or skipped; the duration is the total over both lists; the times
      are the runner's. */
  lemma JiraStatsConsistent(ts: seq<TestRec>, start: Timestamp, end: Timestamp)
    ensures var r := JiraSpec(ts, start, end);
      r.stats.tests == r.stats.suites == r.stats.passes + r.stats.failures
      && r.stats.passes == |r.passes| && r.stats.failures == |r.failures|
      && r.stats.pending == 0 && r.skipped == []
      && r.stats.duration == TotalDuration(r.passes) + TotalDuration(r.failures)
      && r.stats.start == start && r.stats.end == end
      && (forall g :: g in r.failures ==> g.error.Some?)
      && (forall g :: g in r.passes ==> g.error.None?)
  {
    FilterPartition(Regroup(ts));
    FiltersSelect(Regroup(ts));
  }

  /** Every test's duration is either in some record or left out by a run-start
      reset. */
  lemma {:induction false} DurationAccounting(ts: seq<TestRec>)
    ensures TotalDuration(Regroup(ts)) + DroppedDuration(ts) == Sum(ts)
  {
    if ts != [] {
      var p, t := DropLast(ts), Last(ts);
      DurationAccounting(p);
      var gs := Regroup(p);
      if |ts| > 1 {
        assert ts[|ts| - 2] == Last(p);
      }
      if p != [] && Last(p).feature == t.feature {
        FiltersAppend(DropLast(gs), Extend(Last(gs), t));
        assert TotalDuration(gs) == TotalDuration(DropLast(gs)) + Last(gs).duration;
      } else {
        FiltersAppend(gs, Start(t, p == [] && t.feature == ""));
      }
    }
  }

  lemma InterleavedPrefix(a: string, b: string, s: string, d: nat)
    requires a != b
    ensures Regroup([TestRec("t1", s, a, d, None), TestRec("t2", s, a, d, None), TestRec("t3", s, b, d, None)])
      == [GroupRecord(a, Placeholder, if a == "" then 2 * d else d, None), GroupRecord(b, Placeholder, 0, None)]
  {
    var t1, t2, t3 := TestRec("t1", s, a, d, None), TestRec("t2", s, a, d, None), TestRec("t3", s, b, d, None);
    var p1 := [] + [t1];
    RegroupSnoc([], t1);
    RegroupSnoc(p1, t2);
    RegroupSnoc(p1 + [t2], t3);
    assert [t1, t2, t3] == p1 + [t2] + [t3];
  }

  lemma InterleavedRegroup(a: string, b: string, s: string, d: nat)
    requires a != b
    ensures Regroup([TestRec("t1", s, a, d, None), TestRec("t2", s, a, d, None),
                     TestRec("t3", s, b, d, None), TestRec("t4", s, b, d, None),
                     TestRec("t5", s, a, d, None)])
      == [GroupRecord(a, Placeholder, if a == "" then 2 * d else d, None),
          GroupRecord(b, Placeholder, d, None),
          GroupRecord(a, Placeholder, 0, None)]
  {
    var t1, t2, t3 := TestRec("t1", s, a, d, None), TestRec("t2", s, a, d, None), TestRec("t3", s, b, d, None);
    var t4, t5 := TestRec("t4", s, b, d, None), TestRec("t5", s, a, d, None);
    var p3 := [t1, t2, t3];
    InterleavedPrefix(a, b, s, d);
    RegroupSnoc(p3, t4);
    RegroupSnoc(p3 + [t4], t5);
    assert [t1, t2, t3, t4, t5] == p3 + [t4] + [t5];
  }

  /** Feature titles A, A, B, B, A make three records, A, B, A: records follow
      contiguous runs, not distinct titles. Each run's first test's duration is
      left out, unless it opens the whole sequence with the empty title. */
  lemma InterleavedFeatures(a: string, b: string, s: string, d: nat)
    requires a != b
    ensures var r := JiraSpec([TestRec("t1", s, a, d, None), TestRec("t2", s, a, d, None),
                               TestRec("t3", s, b, d, None), TestRec("t4", s, b, d, None),
                               TestRec("t5", s, a, d, None)], 0, 0);
      r.failures == []
      && r.passes == [GroupRecord(a, Placeholder, if a == "" then 2 * d else d, None),
                      GroupRecord(b, Placeholder, d, None),
                      GroupRecord(a, Placeholder, 0, None)]
  {
    InterleavedRegroup(a, b, s, d);
    NoErrorsAllPass([GroupRecord(a, Placeholder, if a == "" then 2 * d else d, None),
                     GroupRecord(b, Placeholder, d, None),
                     GroupRecord(a, Placeholder, 0, None)]);
  }

  lemma DominancePrefix(f: string, e: TestError)
    ensures Regroup([TestRec("a", "S", f, 10, None), TestRec("b", "S", f, 20, Some(e))])
      == [GroupRecord(f, Placeholder, if f == "" then 30 else 20, Some(FailurePrefix + "b"))]
  {
    var t1, t2 := TestRec("a", "S", f, 10, None), TestRec("b", "S", f, 20, Some(e));
    var p1 := [] + [t1];
    RegroupSnoc([], t1);
    RegroupSnoc(p1, t2);
    assert [t1, t2] == p1 + [t2];
  }

  lemma DominanceRegroup(f: string, e: TestError)
    ensures Regroup([TestRec("a", "S", f, 10, None), TestRec("b", "S", f, 20, Some(e)), TestRec("c", "S", f, 30, None)])
      == [GroupRecord(f, Placeholder, if f == "" then 60 else 50, Some(FailurePrefix + "c"))]
  {
    var t1, t2, t3 := TestRec("a", "S", f, 10, None), TestRec("b", "S", f, 20, Some(e)), TestRec("c", "S", f, 30, None);
    DominancePrefix(f, e);
    RegroupSnoc([t1, t2], t3);
    assert [t1, t2, t3] == [t1, t2] + [t3];
  }

  /** One feature with tests of 10, 20 and 30 ms where the second fails: a
      single failed record whose message names the last test, of 50 ms since
      the first test's duration is reset away, or of 60 ms when the feature
      title is empty. */
  lemma FailureDominates(f: string, e: TestError)
    ensures var r := JiraSpec([TestRec("a", "S", f, 10, None), TestRec("b", "S", f, 20, Some(e)),
                               TestRec("c", "S", f, 30, None)], 0, 0);
      r.passes == []
      && r.failures == [GroupRecord(f, Placeholder, if f == "" then 60 else 50, Some(FailurePrefix + "c"))]
  {
    DominanceRegroup(f, e);
    var g := GroupRecord(f, Placeholder, if f == "" then 60 else 50, Some(FailurePrefix + "c"));
    FiltersAppend([], g);
    assert [] + [g] == [g];
  }

  /** No tests: no records, every counter 0. */
  lemma EmptyRun(start: Timestamp, end: Timestamp)
    ensures JiraSpec([], start, end) == JiraReport(JiraStats(0, 0, 0, 0, 0, start, end, 0), [], [], [])
    ensures Switches([], Scenario, Some("")) == 0
  {
  }
}
