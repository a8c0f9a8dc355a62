/** The test records the reporter collects, and `clean`, the acyclic projection
    of a test written into the flat report. */
module Records {

  datatype Option<T> = None | Some(value: T)

  /** The runner's start and end times; the reporter only copies them. */
  type Timestamp = int

  /** The error Mocha attaches to a failed test: its `stack` (possibly absent or
      empty) and the text its `toString()` gives. */
  datatype TestError = TestError(stack: Option<string>, text: string)

  /** One test as the reporter sees it: its own title, the title of its parent
      suite (the scenario), the title of its grandparent suite (the feature), its
      duration in milliseconds, and the error when the test object has an own
      `err` property. */
  datatype TestRec = TestRec(
    title: string,
    scenario: string,
    feature: string,
    duration: nat,
    err: Option<TestError>)

  /** The serialisable record the flat report holds for one test. */
  datatype CleanTest = CleanTest(
    title: string,
    fullTitle: string,
    duration: nat,
    scenarioTitle: string,
    featureTitle: string,
    error: Option<string>)

  const TitleSeparator := " -> "

  /** JavaScript truthiness of the `stack` property: present and not empty. */
  predicate StackIsTruthy(e: TestError) {
    e.stack.Some? && e.stack.value != ""
  }

  /** The error text of a cleaned test: the stack when it is truthy, otherwise the
      error's string form. */
  function ErrorText(e: TestError): string {
    if StackIsTruthy(e) then e.stack.value else e.text
  }

  function Clean(t: TestRec): (c: CleanTest)
    ensures c.title == t.title && c.duration == t.duration
    ensures c.scenarioTitle == t.scenario && c.featureTitle == t.feature
    ensures c.fullTitle == t.feature + TitleSeparator + t.scenario
    ensures c.error.Some? <==> t.err.Some?
    ensures t.err.Some? && StackIsTruthy(t.err.value) ==> c.error == Some(t.err.value.stack.value)
    ensures t.err.Some? && !StackIsTruthy(t.err.value) ==> c.error == Some(t.err.value.text)
  {
    CleanTest(
      t.title,
      t.feature + TitleSeparator + t.scenario,
      t.duration,
      t.scenario,
      t.feature,
      if t.err.Some? then Some(ErrorText(t.err.value)) else None)
  }

  /** The composite title splits at the feature title's length into the
      feature title, the separator and the scenario title. */
  lemma FullTitleSplits(t: TestRec)
    ensures var c := Clean(t);
      c.fullTitle[..|c.featureTitle|] == c.featureTitle &&
      c.fullTitle[|c.featureTitle| + |TitleSeparator|..] == c.scenarioTitle
  {
    var c := Clean(t);
    assert c.fullTitle == t.feature + (TitleSeparator + t.scenario);
  }

  /** `map(clean)`: the cleaned records, one per test, in the same order. */
  function CleanAll(ts: seq<TestRec>): (cs: seq<CleanTest>)
    ensures |cs| == |ts|
    ensures forall i :: 0 <= i < |ts| ==> cs[i] == Clean(ts[i])
  {
    if ts == [] then [] else CleanAll(ts[..|ts| - 1]) + [Clean(ts[|ts| - 1])]
  }

  /** Appending one test to a collected sequence appends its cleaned record to
      the report's sequence. */
  lemma CleanAllAppend(ts: seq<TestRec>, t: TestRec)
    ensures CleanAll(ts + [t]) == CleanAll(ts) + [Clean(t)]
  {
    assert (ts + [t])[..|ts|] == ts;
  }
}
