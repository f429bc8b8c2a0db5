/** The record shapes the core reads: the action's options, the JUnit counters,
    the Jest JSON report, and the GitHub Actions context of the run. Fields the
    core never reads are omitted. An option of type string that is not set holds
    `""`, as the input reader returns it. */
module Types {
  import opened Wrappers

  /** The changed files of the pull request or push; only its presence matters here. */
  datatype ChangedFiles = ChangedFiles(all: seq<string>)

  datatype Options = Options(
    watermark: string,
    commit: Option<string>,     // `undefined` when the event payload lacks the field
    head: Option<string>,
    base: Option<string>,
    title: string,
    junitFile: string,
    junitTitle: string,
    coverageFile: string,
    jestTestReportFile: string,
    removeLinksToFiles: bool,
    removeLinksToLines: bool,
    createNewComment: bool,
    deleteOldComments: bool,
    hideComment: bool,
    reportOnlyChangedFiles: bool,
    changedFiles: Option<ChangedFiles>,
    multipleFiles: seq<string>,
    multipleJunitFiles: seq<string>)

  /** The six counters of one parsed JUnit report. */
  datatype Junit = Junit(skipped: int, tests: int, failures: int, errors: int, succeeded: int, time: real)

  /** A JUnit report: its counters and its markdown rendering. */
  datatype JunitReport = JunitReport(counts: Junit, junitHtml: string)

  /** One `title|file` line of the multiple-files inputs. */
  datatype MultipleFilesLine = MultipleFilesLine(title: string, file: string)

  datatype FailureDetail = FailureDetail(message: string)

  /** One test case of a Jest run. */
  datatype AssertionResult = AssertionResult(
    ancestorTitles: Option<seq<string>>,
    failureMessages: Option<seq<string>>,
    failureDetails: Option<seq<FailureDetail>>,
    status: string,
    title: string)

  /** One test file of a Jest run. */
  datatype TestResult = TestResult(
    assertionResults: Option<seq<AssertionResult>>,
    message: string,
    status: string)

  datatype JsonReport = JsonReport(testResults: Option<seq<TestResult>>)

  /** The pull request of the event payload. */
  datatype PullRequest = PullRequest(number: int, headSha: string, headRef: string, baseRef: string)

  datatype Payload = Payload(pullRequest: Option<PullRequest>, after: Option<string>)

  /** The GitHub Actions context: event name, job, git ref, the issue number the
      context derives from the payload, and the payload. */
  datatype Context = Context(eventName: string, job: string, ref: string, issueNumber: int, payload: Payload)
}
