# Bamboo JSON reporter for Mocha — a Dafny model

`lib/bamboo.js` is a Mocha reporter. While the runner executes tests, its
event handlers collect the test objects into four lists: every finished test,
the pending (skipped) tests, the passes and the failures. At the end of the
run it writes two reports:

- a **flat report**: the runner's statistics with `suites` overwritten by a
  scenario counter, and every collected failure, pass and skipped test passed
  through `clean`, a projection to an acyclic record;
- an **issue-tracker report** (`jiraObj`): one synthetic record per maximal
  contiguous run of tests that share a feature title (the title of a test's
  grandparent suite). A record is a failure when some test of its run failed.
  Counters sit beside the records.

The model has five modules:

- `Records` (`records.dfy`): the test record, the cleaned record, `clean` and
  its element-wise map.
- `Grouping` (`grouping.dfy`): the maximal feature runs of a test sequence
  (`Runs`) and the title-change counter (`Switches`).
- `Jira` (`jira.dfy`):
  - the group records;
  - their run-by-run specification (`RunRecords`) and the test-by-test fold the
    loop follows (`Regroup`);
  - the `jiraObj` document as a class (`JiraDocument`) whose flush method
    updates its counters and lists in place;
  - the end-of-run loop (`BuildJiraReport`), proved equal to the
    specification `JiraSpec`.
- `JiraProperties` (`properties.dfy`): what the issue-tracker report says about
  its input, plus worked examples.
- `Bamboo` (`bamboo.dfy`): the reporter as a class (`Reporter`). Its event
  handlers append to its sequence fields; its end handler assembles both reports.

A test is a `TestRec`:

- its title;
- the title of its parent suite, called the scenario;
- the title of its grandparent suite, called the feature;
- a duration in milliseconds;
- an optional error, present when the test object has an own `err` property.
  The error holds an optional `stack` string and its string form.

Quirks of the code that the model keeps:

- **Group duration.** On a feature change the accumulator is reset to 0 and
  the current test's duration is not added, so a record's duration leaves out
  the first test of its run. Durations 10, 20 and 30 give 50: the first test's
  10 ms is reset away (`FailureDominates`). The Login run's record has 10 ms:
  the 5 ms of its first test are reset away (`LoginRun`). The exception: the
  tracked title starts as the empty string, so an initial run whose feature
  title is empty keeps its first test's duration.
- **`jiraObj.stats.suites`.** It is incremented on every record pushed, so it
  always equals `tests`.
- **Grouping key.** Records are formed per feature title alone. Scenario titles
  play no part in grouping; they only feed the flat report's `suites` count.
- **Error text.** A failed record's error names the last test of its run,
  whichever test of the run failed.

## Model

| member | source | states |
|---|---|---|
| Records.Clean | lib/bamboo.js:175-187 | title, duration, scenario and feature titles copied; `fullTitle` is feature + " -> " + scenario; an error exactly when the test has its own `err`, holding the stack when it is truthy and the error's string form otherwise |
| Records.FullTitleSplits | lib/bamboo.js:178 | `fullTitle` splits at the feature title's length into the feature title, the separator and the scenario title |
| Records.CleanAll | lib/bamboo.js:79-81 | `map(clean)`: same length, the i-th cleaned record is `clean` of the i-th test |
| Records.CleanAllAppend | lib/bamboo.js:79-81 | one more collected test adds its cleaned record at the end of the report list |
| Grouping.Runs | lib/bamboo.js:105-130 | the maximal feature runs: no more runs than tests, none exactly for no tests, every run non-empty, the last run ends with the last test |
| Grouping.RunsFlatten | lib/bamboo.js:105-130 | the runs concatenated give back the test sequence: every test is in exactly one run, in order |
| Grouping.RunsUniform | lib/bamboo.js:107-114 | every test of a run has the run's feature title |
| Grouping.RunsMaximal | lib/bamboo.js:126-130 | neighbouring runs have different feature titles, so no run can be extended |
| Grouping.SwitchesCountsChanges | lib/bamboo.js:118-121 | the change counter equals the number of positions whose title differs from the previous test's (the first compared with the seed) |
| Grouping.RunsCount | lib/bamboo.js:105-130 | there are as many runs as positions where the feature title changes, the first test included |
| Jira.Regroup | lib/bamboo.js:105-150 | the test-by-test records: no more than the tests, none exactly for no tests |
| Jira.RegroupIsPerRun | lib/bamboo.js:105-150 | the records the loop builds test by test are exactly the per-run records: title of the run, error iff some test of the run failed naming its last test, duration of the run less the reset first test |
| Jira.FilterPartition | lib/bamboo.js:134-148 | every record lands in exactly one of `passes` and `failures`, and their durations add up to the total |
| Jira.JiraDocument.constructor | lib/bamboo.js:83-97 | the document starts with zero counters, the runner's start and end times, and no records |
| Jira.JiraDocument.Report | lib/bamboo.js:83-97 | the document is its counters with the failed records and the passed records, in push order, `skipped` empty, and `tests == suites == passes + failures` |
| Jira.JiraDocument.AddFeature | lib/bamboo.js:130-150 | the flush: exactly one record appended, to `failures` with "Test failed: " and the current test's title when the feature saw an error, to `passes` without an error otherwise; suites, tests, duration and the matching counter updated; the document stays consistent |
| Jira.TrackFeature | lib/bamboo.js:107-117 | after a test, the feature title, duration and error accumulators describe the last record of the tests visited |
| Jira.TrackScenario | lib/bamboo.js:118-124 | after a test, the scenario counter counts the scenario-title changes so far and the tracked title is the test's scenario |
| Jira.VisitStep | lib/bamboo.js:125-150 | with the one-test lookahead, a record is pushed exactly when its run has ended: the next feature title differs or no test follows |
| Jira.BuildJiraReport | lib/bamboo.js:98-151 | the loop builds exactly `JiraSpec` of the tests, and its scenario counter is the number of scenario-title changes, the first compared with "" |
| JiraProperties.GroupCount | lib/bamboo.js:105-137 | the number of records (passes plus failures) is the number of maximal feature runs, which is the number of feature-title changes |
| JiraProperties.GroupsDescribeRuns | lib/bamboo.js:107-148 | the k-th record carries the feature title of every test of the k-th run; it has an error iff some test of the run failed; the error is "Test failed: " and the run's last test's title; its duration plus the first test's (unless the run is initial with the empty title) is the run's total |
| JiraProperties.SumFront | lib/bamboo.js:107-114 | a run's total duration is its first test's plus the rest's |
| JiraProperties.FiltersSelect | lib/bamboo.js:134-148 | `failures` holds exactly the records with an error, `passes` exactly those without |
| JiraProperties.NoErrorsAllPass | lib/bamboo.js:142-148 | records without an error all go to `passes`, in order, and `failures` stays empty |
| JiraProperties.JiraStatsConsistent | lib/bamboo.js:84-97 | `tests == suites == passes + failures`, each counter the length of its list, `pending` 0, `skipped` empty, `duration` the total over both lists, start and end passed through, the error decides the list |
| JiraProperties.DurationAccounting | lib/bamboo.js:107-114 | every test's duration is either in a record or is the duration of a test where the feature title changes (the first compared with ""), which the reset drops |
| JiraProperties.InterleavedFeatures | lib/bamboo.js:105-150 | feature titles A, A, B, B, A give three passed records A, B, A with the reset durations |
| JiraProperties.FailureDominates | lib/bamboo.js:107-148 | durations 10, 20, 30 with the second failing give one failed record of 50 ms (60 when the feature title is empty) naming the last test |
| JiraProperties.EmptyRun | lib/bamboo.js:84-97 | no tests: no records, every counter 0, scenario count 0 |
| Bamboo.Reporter.constructor | lib/bamboo.js:27-30 | the four collections start empty |
| Bamboo.Reporter.OnTestEnd | lib/bamboo.js:32-34 | `test end` appends exactly its test to `tests` and changes no other collection |
| Bamboo.Reporter.OnPending | lib/bamboo.js:46-50 | `pending` appends exactly its test to `skipped` and changes no other collection |
| Bamboo.Reporter.OnPass | lib/bamboo.js:52-68 | `pass` appends exactly its test to `passes` and changes no other collection |
| Bamboo.Reporter.OnFail | lib/bamboo.js:70-74 | `fail` appends exactly its test to `failures` and changes no other collection |
| Bamboo.Reporter.OnEnd | lib/bamboo.js:76-152 | the flat report is the runner's stats with `suites` set to the number of scenario-title changes and the three lists cleaned element-wise, same lengths; the issue-tracker report is `JiraSpec` of the collected tests, with one record per maximal feature run |
| Bamboo.LoginRegroup | lib/bamboo.js:105-150 | the Login tests give one record of 10 ms naming "submit" and one scenario |
| Bamboo.LoginReports | lib/bamboo.js:76-152 | for the Login tests as the handlers collect them: one failed record of 10 ms naming "submit", no passed record, the cleaned failure carrying "bad password", the passing tests cleaned in order, one scenario |
| Bamboo.LoginRun | lib/bamboo.js:27-152 | the Login events through the handlers: one failed record of 10 ms naming "submit", no passed record, one cleaned failure titled "submit" carrying the error text, the two passing tests cleaned in order, one scenario |

## Left out

- Console output: colours, `cursor.CR()`, the `indents` counter and `indent()`, the failure numbering `n`, and the `suite`/`suite end` handlers (lib/bamboo.js:22-24, 36-44, 47-48, 53-66, 71-72). They are presentation only.
- File-system calls: removing stale files on `start` and writing both reports on `end` (lib/bamboo.js:153-163). They are I/O. The model returns the two reports instead.
- `JSON.stringify` and the `MOCHA_FILE` output name (lib/bamboo.js:5, 153-154). They are a foreign serialiser and the environment.
- `Base.call`, `test.speed` and the runner's statistics. They are Mocha internals. `RunStats` is a parameter of `OnEnd`, and start and end times are opaque integers copied through.
- The aliasing of `obj.stats` with the runner's `self.stats`: the source overwrites `suites` on the runner's own object. The model returns an updated copy.
- Mocha's event dispatch. The handlers are methods called in sequence, and there is no concurrency.
- `featureCount` and `scenarioDuration` (lib/bamboo.js:98-99, 108, 120, 123). They are computed but never reach any output.
- Durations are natural numbers. A test without a duration is not modelled. Mocha reports `test end` for pending (skipped) tests, which carry no `duration`. When such a test is not the first of its run, the source's sums at lib/bamboo.js:113 and 133 turn that record's duration and `jiraObj.stats.duration` into `NaN`, which the serialiser writes as `null`.
- A test whose `err` is `null` or `undefined` is not modelled: `clean` throws on it at lib/bamboo.js:184, inside the `map` at lines 79-81, before either report is built. Any other value is a `TestError` with its string form and possibly a stack.
- Tests without a parent or grandparent suite, on which the source would throw, are not modelled: every `TestRec` has both titles.
