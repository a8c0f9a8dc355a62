/** The two ways the end-of-run handler looks at the emission order of tests:
    maximal contiguous runs of one feature title, and counting the positions at
    which a title changes from the previous test's. */
module Grouping {
  import opened Records

  function Last<T>(s: seq<T>): T
    requires |s| > 0
  {
    s[|s| - 1]
  }

  function DropLast<T>(s: seq<T>): seq<T>
    requires |s| > 0
  {
    s[..|s| - 1]
  }

  /** The two suite levels above a test. */
  datatype Level = Feature | Scenario

  function Key(t: TestRec, level: Level): string {
    match level
    case Feature => t.feature
    case Scenario => t.scenario
  }

  /** The maximal contiguous runs of tests sharing a feature title, in emission
      order, built by extending the last run or opening a new one per test. */
  function Runs(ts: seq<TestRec>): (rs: seq<seq<TestRec>>)
    ensures |rs| <= |ts|
    ensures |rs| == 0 <==> ts == []
    ensures forall k :: 0 <= k < |rs| ==> |rs[k]| > 0
    ensures ts != [] ==> Last(Last(rs)) == Last(ts)
  {
    if ts == [] then []
    else
      var rs := Runs(DropLast(ts));
      var t := Last(ts);
      if |ts| > 1 && ts[|ts| - 2].feature == t.feature
      then DropLast(rs) + [Last(rs) + [t]]
      else rs + [[t]]
  }

  function Flatten(rs: seq<seq<TestRec>>): seq<TestRec> {
    if rs == [] then [] else Flatten(DropLast(rs)) + Last(rs)
  }

  lemma FlattenSnoc(rs: seq<seq<TestRec>>, r: seq<TestRec>)
    ensures Flatten(rs + [r]) == Flatten(rs) + r
  {
    assert DropLast(rs + [r]) == rs;
  }

  /** Extending the last run by one test extends the concatenation by it. */
  lemma FlattenExtendLast(front: seq<seq<TestRec>>, last: seq<TestRec>, t: TestRec)
    ensures Flatten(front + [last + [t]]) == Flatten(front + [last]) + [t]
  {
    FlattenSnoc(front, last);
    FlattenSnoc(front, last + [t]);
    ConcatAssoc(Flatten(front), last, [t]);
  }

  lemma ConcatAssoc(a: seq<TestRec>, b: seq<TestRec>, c: seq<TestRec>)
    ensures a + (b + c) == (a + b) + c
  {
  }

  /** `Runs` on a sequence written as a prefix and one more test. */
  lemma RunsSnoc(p: seq<TestRec>, t: TestRec)
    ensures Runs(p + [t])
      == if p != [] && Last(p).feature == t.feature
         then DropLast(Runs(p)) + [Last(Runs(p)) + [t]]
         else Runs(p) + [[t]]
  {
    assert DropLast(p + [t]) == p;
    if p != [] {
      assert (p + [t])[|p| - 1] == Last(p);
    }
  }

  /** The runs partition the tests: concatenated, they give back the sequence. */
  lemma {:induction false} RunsFlatten(ts: seq<TestRec>)
    ensures Flatten(Runs(ts)) == ts
  {
    if ts != [] {
      var p, t := DropLast(ts), Last(ts);
      assert ts == p + [t];
      RunsFlatten(p);
      RunsSnoc(p, t);
      if p != [] && Last(p).feature == t.feature {
        var rs := Runs(p);
        assert rs == DropLast(rs) + [Last(rs)];
        FlattenExtendLast(DropLast(rs), Last(rs), t);
      } else {
        FlattenSnoc(Runs(p), [t]);
      }
    }
  }

  /** Every test of `run` has the feature title of its first test. */
  ghost predicate Uniform(run: seq<TestRec>) {
    forall j :: 0 <= j < |run| ==> run[j].feature == run[0].feature
  }

  /** Every test of a run has the run's feature title. */
  lemma {:induction false} RunsUniform(ts: seq<TestRec>)
    ensures forall k :: 0 <= k < |Runs(ts)| ==> Uniform(Runs(ts)[k])
  {
    if ts != [] {
      var p, t := DropLast(ts), Last(ts);
      RunsUniform(p);
      var rs: seq<seq<TestRec>>, rs': seq<seq<TestRec>> := Runs(p), Runs(ts);
      if |ts| > 1 && ts[|ts| - 2].feature == t.feature {
        var last := Last(rs);
        assert Uniform(last);
        assert Last(last) == Last(p) == ts[|ts| - 2];
        assert last[|last| - 1].feature == last[0].feature;
        assert Uniform(last + [t]);
        forall k | 0 <= k < |rs'|
          ensures Uniform(rs'[k])
        {
          if k < |rs'| - 1 {
            assert rs'[k] == rs[k];
          } else {
            assert rs'[k] == last + [t];
          }
        }
      } else {
        forall k | 0 <= k < |rs'|
          ensures Uniform(rs'[k])
        {
          if k < |rs| {
            assert rs'[k] == rs[k];
          } else {
            assert rs'[k] == [t];
          }
        }
      }
    }
  }

  /** The runs are maximal: two neighbouring runs have different feature titles. */
  lemma {:induction false} RunsMaximal(ts: seq<TestRec>)
    ensures forall k :: 0 <= k < |Runs(ts)| - 1 ==> Last(Runs(ts)[k]).feature != Runs(ts)[k + 1][0].feature
  {
    if ts != [] {
      var p, t := DropLast(ts), Last(ts);
      RunsMaximal(p);
      var rs: seq<seq<TestRec>>, rs': seq<seq<TestRec>> := Runs(p), Runs(ts);
      if |ts| > 1 && ts[|ts| - 2].feature == t.feature {
        forall k | 0 <= k < |rs'| - 1
          ensures Last(rs'[k]).feature != rs'[k + 1][0].feature
        {
          assert rs'[k] == rs[k];
          if k + 1 == |rs'| - 1 {
            assert rs'[k + 1] == Last(rs) + [t];
            assert rs'[k + 1][0] == rs[k + 1][0];
          } else {
            assert rs'[k + 1] == rs[k + 1];
          }
        }
      } else {
        forall k | 0 <= k < |rs'| - 1
          ensures Last(rs'[k]).feature != rs'[k + 1][0].feature
        {
          assert rs'[k] == rs[k];
          if k + 1 == |rs'| - 1 {
            assert Last(rs[k]) == Last(p) == ts[|ts| - 2];
            assert rs'[k + 1] == [t];
          } else {
            assert rs'[k + 1] == rs[k + 1];
          }
        }
      }
    }
  }

  /** Whether the test at position `i` carries a title different from the one
      before it; at position 0 it is compared with `seed`, and `None` makes
      position 0 always a change. */
  predicate ChangesAt(ts: seq<TestRec>, i: int, level: Level, seed: Option<string>)
    requires 0 <= i < |ts|
  {
    (if i == 0 then seed else Some(Key(ts[i - 1], level))) != Some(Key(ts[i], level))
  }

  /** The number of positions at which the title of `level` changes. */
  function Switches(ts: seq<TestRec>, level: Level, seed: Option<string>): nat {
    if ts == [] then 0
    else Switches(DropLast(ts), level, seed) + (if ChangesAt(ts, |ts| - 1, level, seed) then 1 else 0)
  }

  /** `Switches` on one more test, compared with the test before it. */
  lemma SwitchesStep(p: seq<TestRec>, t: TestRec, level: Level, seed: Option<string>)
    ensures var prev := if p == [] then seed else Some(Key(Last(p), level));
      Switches(p + [t], level, seed) == Switches(p, level, seed) + (if prev != Some(Key(t, level)) then 1 else 0)
  {
    assert DropLast(p + [t]) == p;
    if p != [] {
      assert (p + [t])[|p| - 1] == Last(p);
    }
  }

  function ChangePositions(ts: seq<TestRec>, level: Level, seed: Option<string>): set<int> {
    set i | 0 <= i < |ts| && ChangesAt(ts, i, level, seed)
  }

  lemma ChangePositionsSnoc(ts: seq<TestRec>, level: Level, seed: Option<string>)
    requires ts != []
    ensures var n := |ts| - 1;
      ChangePositions(ts, level, seed)
        == ChangePositions(DropLast(ts), level, seed) + (if ChangesAt(ts, n, level, seed) then {n} else {})
  {
    var p, n := DropLast(ts), |ts| - 1;
    var before, after := ChangePositions(p, level, seed), ChangePositions(ts, level, seed);
    var extra: set<int> := if ChangesAt(ts, n, level, seed) then {n} else {};
    forall i | 0 <= i < n
      ensures ChangesAt(ts, i, level, seed) == ChangesAt(p, i, level, seed)
    {
      assert ts[i] == p[i];
      if i > 0 {
        assert ts[i - 1] == p[i - 1];
      }
    }
    forall i | i in after
      ensures i in before + extra
    {
      if i < n {
        assert ChangesAt(p, i, level, seed);
      }
    }
    forall i | i in before + extra
      ensures i in after
    {
      if i < n {
        assert ChangesAt(ts, i, level, seed);
      }
    }
  }

  /** The counter equals the size of the set of change positions. */
  lemma {:induction false} SwitchesCountsChanges(ts: seq<TestRec>, level: Level, seed: Option<string>)
    ensures Switches(ts, level, seed) == |ChangePositions(ts, level, seed)|
  {
    if ts != [] {
      var p, n := DropLast(ts), |ts| - 1;
      SwitchesCountsChanges(p, level, seed);
      ChangePositionsSnoc(ts, level, seed);
      assert n !in ChangePositions(p, level, seed);
    }
  }

  /** There are as many runs as there are feature changes, position 0 included. */
  lemma {:induction false} RunsCount(ts: seq<TestRec>)
    ensures |Runs(ts)| == Switches(ts, Feature, None)
  {
    if ts != [] {
      RunsCount(DropLast(ts));
    }
  }
}
