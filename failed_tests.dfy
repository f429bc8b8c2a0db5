/** The failed-tests section (src/failed-tests.ts): a collapsible `<details>`
    block per failing test case, each holding the code-fenced first failure
    detail, all inside one outer block titled "Failed Tests".

    `stripAnsi` (an external library) is a parameter `strip`; only whether its
    trimmed result is empty matters. Reading the report file and parsing it as
    JSON are parameters too. */
module FailedTests {
  import opened Wrappers
  import opened Text
  import opened Types

  const DefaultTag := "b"
  const FailedTestsSummary := "Failed Tests"
  const FailedTestsTag := "h3"
  const BlockSeparator := "\n\n"
  const TitleSeparator := " > "

  // ---------------------------------------------------------------------------
  // Spoilers and code fences

  /** The text of a spoiler before its body. */
  function SpoilerHead(summary: string, tag: string): string {
    "\n<details><summary><" + tag + ">" + summary + "</" + tag + "></summary>\n<br/>\n\n"
  }

  const SpoilerTail := "\n\n</details>\n"

  /** `createMarkdownSpoiler`: the body in a `<details>` block whose summary is
      wrapped in `tag`. */
  function Spoiler(body: string, summary: string, tag: string): (r: string)
    ensures StartsWith(r, "\n<details><summary><") && EndsWith(r, SpoilerTail)
    ensures Between(r, SpoilerHead(summary, tag), SpoilerTail) == Some(body)
  {
    var r := SpoilerHead(summary, tag) + body + SpoilerTail;
    assert r == "\n<details><summary><" + (tag + ">" + summary + "</" + tag + "></summary>\n<br/>\n\n" + body + SpoilerTail);
    StartsWithConcat("\n<details><summary><", tag + ">" + summary + "</" + tag + "></summary>\n<br/>\n\n" + body + SpoilerTail);
    EndsWithConcat(SpoilerHead(summary, tag) + body, SpoilerTail);
    BetweenFilled(SpoilerHead(summary, tag), body, SpoilerTail);
    r
  }

  /** A spoiler's body can be read back, so two spoilers with the same summary
      and tag are equal only when their bodies are. */
  lemma SpoilerInjective(b1: string, b2: string, summary: string, tag: string)
    requires Spoiler(b1, summary, tag) == Spoiler(b2, summary, tag)
    ensures b1 == b2
  {
  }

  const FenceOpen := "```\n"
  const FenceClose := "\n```"

  /** `wrapCode`: a fenced code block. */
  function WrapCode(code: string): (r: string)
    ensures Between(r, FenceOpen, FenceClose) == Some(code)
  {
    BetweenFilled(FenceOpen, code, FenceClose);
    FenceOpen + code + FenceClose
  }

  // ---------------------------------------------------------------------------
  // Test titles

  /** `createTestTitleFromAssertionResult`: the bare title without ancestors,
      otherwise the ancestors joined with `" > "`, then `" > "` and the title. */
  function TestTitle(ancestorTitles: Option<seq<string>>, title: string): string {
    match ancestorTitles
    case None => title
    case Some(ancestors) => Join(ancestors, TitleSeparator) + TitleSeparator + title
  }

  /** With ancestors, the heading is the whole path from the outermost `describe`
      to the test, joined with `" > "`. */
  lemma TestTitleIsPath(ancestors: seq<string>, title: string)
    requires |ancestors| > 0
    ensures TestTitle(Some(ancestors), title) == Join(ancestors + [title], TitleSeparator)
  {
    JoinSnoc(ancestors, title, TitleSeparator);
  }

  /** An empty ancestor list is present, not absent: the heading keeps a leading `" > "`. */
  lemma TestTitleNoAncestors(title: string)
    ensures TestTitle(Some([]), title) == TitleSeparator + title
    ensures TestTitle(None, title) == title
  {
  }

  // ---------------------------------------------------------------------------
  // Blocks

  /** The block of one test case: present exactly when it has a failure detail;
      the heading is its title path, the body the first detail's message in a
      code fence. */
  function RenderAssertion(a: AssertionResult): (r: Option<string>)
    ensures r.Some? <==> a.failureDetails.Some? && |a.failureDetails.value| > 0
    ensures r.Some? ==>
      Between(r.value, SpoilerHead(TestTitle(a.ancestorTitles, a.title), DefaultTag), SpoilerTail)
        == Some(WrapCode(a.failureDetails.value[0].message))
  {
    match a.failureDetails
    case Some(details) =>
      if |details| > 0 then
        Some(Spoiler(WrapCode(details[0].message), TestTitle(a.ancestorTitles, a.title), DefaultTag))
      else None
    case None => None
  }

  /** Neither the status of a test case nor its `failureMessages` affect its block. */
  lemma RenderAssertionIgnoresStatus(a: AssertionResult, status: string, failureMessages: Option<seq<string>>)
    ensures RenderAssertion(a.(status := status, failureMessages := failureMessages)) == RenderAssertion(a)
  {
  }

  /** The blocks of the test cases of one result, in order, with the cases
      without a block dropped (`map` then `filter(Boolean)`). */
  function AssertionBlocks(cases: seq<AssertionResult>): seq<string>
    decreases |cases|
  {
    if cases == [] then []
    else
      (match RenderAssertion(cases[0]) case Some(b) => [b] case None => [])
      + AssertionBlocks(cases[1..])
  }

  /** The number of test cases that have a failure detail. */
  function CountWithDetails(cases: seq<AssertionResult>): nat
    decreases |cases|
  {
    if cases == [] then 0
    else (if RenderAssertion(cases[0]).Some? then 1 else 0) + CountWithDetails(cases[1..])
  }

  /** One block per test case with a failure detail, each one that case's rendering. */
  lemma {:induction false} AssertionBlocksCount(cases: seq<AssertionResult>)
    ensures |AssertionBlocks(cases)| == CountWithDetails(cases)
    ensures forall b :: b in AssertionBlocks(cases) <==> exists a :: a in cases && RenderAssertion(a) == Some(b)
    decreases |cases|
  {
    if cases != [] {
      AssertionBlocksCount(cases[1..]);
      assert forall a :: a in cases <==> a == cases[0] || a in cases[1..];
    }
  }

  /** Blocks keep the order of the test cases: the blocks of a concatenation
      are the concatenated blocks. */
  lemma {:induction false} AssertionBlocksAppend(a: seq<AssertionResult>, b: seq<AssertionResult>)
    ensures AssertionBlocks(a + b) == AssertionBlocks(a) + AssertionBlocks(b)
    decreases |a|
  {
    if a == [] {
      assert a + b == b;
    } else {
      assert (a + b)[0] == a[0];
      assert (a + b)[1..] == a[1..] + b;
      AssertionBlocksAppend(a[1..], b);
    }
  }

  /** What one non-passed test result adds to the list of blocks (`flatMap`):
      one empty element when its stripped message is blank, one empty element
      (an `undefined` that `join` renders as nothing) when it has no test cases,
      otherwise the blocks of its test cases. */
  function ResultElements(t: TestResult, strip: string -> string): seq<string>
  {
    if Trim(strip(t.message)) == "" then [""]
    else
      match t.assertionResults
      case None => [""]
      case Some(cases) => AssertionBlocks(cases)
  }

  /** A result whose stripped message is blank adds exactly one empty element,
      whatever its test cases. */
  lemma BlankMessageAddsEmptyElement(t: TestResult, strip: string -> string)
    requires Blank(strip(t.message))
    ensures ResultElements(t, strip) == [""]
  {
    TrimEmptyIffBlank(strip(t.message));
  }

  /** A result with a non-blank stripped message and test cases adds exactly
      their blocks. */
  lemma NonBlankMessageAddsBlocks(t: TestResult, strip: string -> string)
    requires !Blank(strip(t.message)) && t.assertionResults.Some?
    ensures ResultElements(t, strip) == AssertionBlocks(t.assertionResults.value)
  {
    TrimEmptyIffBlank(strip(t.message));
  }

  /** `codeBlocks`: the elements of every result whose status is not `passed`,
      in the order of the results. */
  function CodeBlocks(ts: seq<TestResult>, strip: string -> string): seq<string>
    decreases |ts|
  {
    if ts == [] then []
    else
      (if ts[0].status != "passed" then ResultElements(ts[0], strip) else [])
      + CodeBlocks(ts[1..], strip)
  }

  lemma {:induction false} CodeBlocksAppend(a: seq<TestResult>, b: seq<TestResult>, strip: string -> string)
    ensures CodeBlocks(a + b, strip) == CodeBlocks(a, strip) + CodeBlocks(b, strip)
    decreases |a|
  {
    if a == [] {
      assert a + b == b;
    } else {
      assert (a + b)[0] == a[0];
      assert (a + b)[1..] == a[1..] + b;
      CodeBlocksAppend(a[1..], b, strip);
    }
  }

  /** Passed results contribute nothing: dropping them leaves the blocks unchanged. */
  lemma {:induction false} PassedResultsContributeNothing(ts: seq<TestResult>, strip: string -> string)
    ensures CodeBlocks(ts, strip) == CodeBlocks(NotPassed(ts), strip)
    decreases |ts|
  {
    if ts != [] {
      PassedResultsContributeNothing(ts[1..], strip);
      if ts[0].status != "passed" {
        assert NotPassed(ts) == [ts[0]] + NotPassed(ts[1..]);
        CodeBlocksAppend([ts[0]], NotPassed(ts[1..]), strip);
        assert [ts[0]][1..] == [];
      } else {
        assert NotPassed(ts) == NotPassed(ts[1..]);
      }
    }
  }

  /** `testResults.filter(({ status }) => status !== 'passed')`. */
  function NotPassed(ts: seq<TestResult>): seq<TestResult>
    decreases |ts|
  {
    if ts == [] then []
    else (if ts[0].status != "passed" then [ts[0]] else []) + NotPassed(ts[1..])
  }

  // ---------------------------------------------------------------------------
  // The section

  /** A result that makes the section appear: a non-empty message and a status
      other than `passed`. */
  predicate Reportable(t: TestResult) {
    |t.message| > 0 && t.status != "passed"
  }

  /** `getFailureDetails`: nothing unless some result is reportable; otherwise
      the "Failed Tests" spoiler (tag `h3`) over the blocks joined by a blank
      line, then one newline. */
  function GetFailureDetails(report: JsonReport, strip: string -> string): (md: string)
    ensures md == "" <==> report.testResults.None? || forall t :: t in report.testResults.value ==> !Reportable(t)
    ensures md != "" ==>
      EndsWith(md, SpoilerTail + "\n") &&
      Between(md, SpoilerHead(FailedTestsSummary, FailedTestsTag), SpoilerTail + "\n")
        == Some(Join(CodeBlocks(report.testResults.value, strip), BlockSeparator))
  {
    match report.testResults
    case None => ""
    case Some(ts) =>
      if !exists t :: t in ts && Reportable(t) then ""
      else
        var body := Join(CodeBlocks(ts, strip), BlockSeparator);
        var head := SpoilerHead(FailedTestsSummary, FailedTestsTag);
        var md := Spoiler(body, FailedTestsSummary, FailedTestsTag) + "\n";
        assert md == head + body + (SpoilerTail + "\n");
        BetweenFilled(head, body, SpoilerTail + "\n");
        EndsWithConcat(head + body, SpoilerTail + "\n");
        md
  }

  /** Whether a report yields a section depends only on messages and statuses,
      not on the test cases: a reportable result with no failure detail at all
      still yields the (possibly empty-bodied) section. */
  lemma SectionWithoutDetails(t: TestResult, strip: string -> string)
    requires Reportable(t) && t.assertionResults == Some([])
    ensures GetFailureDetails(JsonReport(Some([t])), strip) != ""
  {
  }

  /** The outcome of `getFailedTestsReport`: the markdown and the errors logged. */
  datatype FailedTestsReport = FailedTestsReport(markdown: string, errors: seq<string>)

  /** `getFailedTestsReport`: nothing without a report path; nothing and one
      logged error when the file is not JSON; otherwise the section. */
  function GetFailedTestsReport(
    o: Options,
    readFile: string -> string,
    parse: string -> Option<JsonReport>,
    strip: string -> string): (r: FailedTestsReport)
    ensures o.jestTestReportFile == "" ==> r == FailedTestsReport("", [])
    ensures o.jestTestReportFile != "" && parse(readFile(o.jestTestReportFile)).None? ==>
      r == FailedTestsReport("", ["Failed to parse " + o.jestTestReportFile + " as JSON"])
    ensures |r.errors| <= 1
    ensures r.errors != [] ==> r.markdown == ""
  {
    if o.jestTestReportFile == "" then FailedTestsReport("", [])
    else
      match parse(readFile(o.jestTestReportFile))
      case None => FailedTestsReport("", ["Failed to parse " + o.jestTestReportFile + " as JSON"])
      case Some(report) => FailedTestsReport(GetFailureDetails(report, strip), [])
  }

  /** The report is non-empty exactly when a path is set, the file parses, and
      some result of the parsed report is reportable. */
  lemma FailedTestsReportNonEmpty(o: Options, readFile: string -> string, parse: string -> Option<JsonReport>, strip: string -> string)
    ensures GetFailedTestsReport(o, readFile, parse, strip).markdown != "" <==>
      o.jestTestReportFile != "" &&
      parse(readFile(o.jestTestReportFile)).Some? &&
      parse(readFile(o.jestTestReportFile)).value.testResults.Some? &&
      exists t :: t in parse(readFile(o.jestTestReportFile)).value.testResults.value && Reportable(t)
  {
  }
}
