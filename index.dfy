/** The action's entry point (src/index.ts): it builds the watermark and the
    options, fills in the commit and refs of the event, assembles the comment
    body section by section, and hands it to `createComment` unless there is
    nothing to say or the comment is hidden.

    Reading inputs, the section generators that are not part of this model
    (summary, coverage, single JUnit report, multiple-files report, changed
    files) and number formatting are the `Collaborators` of a run. */
module Action {
  import opened Wrappers
  import opened Text
  import opened Types
  import opened CommentPublisher
  import FailedTests
  import MultiJunit

  /** The inputs of the action that the core reads, as `core.getInput` returns
      them (`""` for an unset string). */
  datatype Inputs = Inputs(
    title: string,
    junitFile: string,
    junitTitle: string,
    coverageFile: string,
    jestTestReportFile: string,
    removeLinksToFiles: bool,
    removeLinksToLines: bool,
    createNewComment: bool,
    deleteOldComments: bool,
    hideComment: bool,
    reportOnlyChangedFiles: bool,
    multipleFiles: seq<string>,
    multipleJunitFiles: seq<string>,
    uniqueIdForComment: string)

  /** What `getSummaryReport` returns that the core reads. */
  datatype SummaryReport = SummaryReport(coverage: real, summaryHtml: string)

  /** The parts of a run this model takes as given. */
  datatype Collaborators = Collaborators(
    changedFiles: Options -> Option<ChangedFiles>,     // getChangedFiles
    summary: Options -> SummaryReport,                 // getSummaryReport
    junit: Options -> JunitReport,                     // getJunitReport
    multipleReport: Options -> string,                 // getMultipleReport
    coverageHtml: Options -> string,                   // getCoverageReport(...).coverageHtml
    parseLine: string -> Option<MultipleFilesLine>,
    readJunit: string -> MultiJunit.FileOutcome,       // getContentFile + parseJunit
    renderRow: Junit -> string,                        // junitToMarkdown(parsed, options, true)
    readFile: string -> string,                        // getContentFile
    parseJson: string -> Option<JsonReport>,           // JSON.parse
    stripAnsi: string -> string,
    showNumber: real -> string)                        // `${coverage}`

  // ---------------------------------------------------------------------------
  // The watermark

  const WatermarkOpening := "<!-- Jest Coverage Comment: "
  const WatermarkClosing := "-->"

  /** The hidden first line of every comment: the job and, when set, the unique id. */
  function Watermark(job: string, uniqueId: string): string {
    var watermarkUniqueId := if uniqueId != "" then "| " + uniqueId + " " else "";
    WatermarkOpening + job + " " + watermarkUniqueId + WatermarkClosing + "\n"
  }

  /** The watermark is one line: no line break before its final one. */
  lemma WatermarkIsOneLine(job: string, uniqueId: string)
    requires '\n' !in job && '\n' !in uniqueId
    ensures var w := Watermark(job, uniqueId);
      |w| > 0 && w[|w| - 1] == '\n' && '\n' !in w[..|w| - 1]
  {
    var w := Watermark(job, uniqueId);
    var watermarkUniqueId := if uniqueId != "" then "| " + uniqueId + " " else "";
    var line := WatermarkOpening + job + " " + watermarkUniqueId + WatermarkClosing;
    assert w == line + "\n";
    assert w[..|w| - 1] == line;
  }

  /** A body posted with watermark `w` is found again by a run with watermark
      `w`, whatever follows the watermark. */
  lemma PostedBodyIsOurs(id: nat, watermark: string, html: string)
    ensures IsOurs(Comment(id, Some(BotLogin), Some(watermark + html)), watermark)
  {
    StartsWithConcat(watermark, html);
  }

  /** ... and only by a run with the same watermark: a bot comment carrying
      another job's or another id's watermark is never taken for ours. */
  lemma OursOnlyWithSameWatermark(job: string, uniqueId: string, otherJob: string, otherId: string, id: nat, html: string)
    requires '\n' !in job && '\n' !in uniqueId && '\n' !in otherJob && '\n' !in otherId
    ensures IsOurs(Comment(id, Some(BotLogin), Some(Watermark(otherJob, otherId) + html)), Watermark(job, uniqueId))
      <==> Watermark(job, uniqueId) == Watermark(otherJob, otherId)
  {
    var w := Watermark(job, uniqueId);
    var other := Watermark(otherJob, otherId);
    WatermarkIsOneLine(job, uniqueId);
    WatermarkIsOneLine(otherJob, otherId);
    assert w == w[..|w| - 1] + "\n";
    assert other == other[..|other| - 1] + "\n";
    if StartsWith(other + html, w) {
      FirstLineDecides(w[..|w| - 1], other[..|other| - 1], html);
    }
    if w == other {
      StartsWithConcat(other, html);
    }
  }

  /** Without a unique id the watermark names only the job. */
  lemma WatermarkWithoutId(job: string)
    ensures Watermark(job, "") == "<!-- Jest Coverage Comment: " + job + " -->\n"
  {
  }

  // ---------------------------------------------------------------------------
  // The options

  /** The options as first built: commit `''`, no refs, no changed files. */
  function InitialOptions(inputs: Inputs, watermark: string): Options {
    Options(
      watermark := watermark,
      commit := Some(""),
      head := None,
      base := None,
      title := inputs.title,
      junitFile := inputs.junitFile,
      junitTitle := inputs.junitTitle,
      coverageFile := inputs.coverageFile,
      jestTestReportFile := inputs.jestTestReportFile,
      removeLinksToFiles := inputs.removeLinksToFiles,
      removeLinksToLines := inputs.removeLinksToLines,
      createNewComment := inputs.createNewComment,
      deleteOldComments := inputs.deleteOldComments,
      hideComment := inputs.hideComment,
      reportOnlyChangedFiles := inputs.reportOnlyChangedFiles,
      changedFiles := None,
      multipleFiles := inputs.multipleFiles,
      multipleJunitFiles := inputs.multipleJunitFiles)
  }

  /** The commit and refs of the event: a `pull_request` takes its head sha, head
      ref and base ref (each absent without a pull request in the payload); a
      `push` takes the pushed commit and the git ref; any other event, including
      `pull_request_target`, leaves them as they are. */
  function EventOptions(o: Options, ctx: Context): (r: Options)
    ensures r.(commit := o.commit, head := o.head, base := o.base) == o
  {
    if ctx.eventName == "pull_request" then
      match ctx.payload.pullRequest
      case Some(pr) => o.(commit := Some(pr.headSha), head := Some(pr.headRef), base := Some(pr.baseRef))
      case None => o.(commit := None, head := None, base := None)
    else if ctx.eventName == "push" then
      o.(commit := ctx.payload.after, head := Some(ctx.ref))
    else o
  }

  /** With `reportOnlyChangedFiles`, the changed files are looked up; when there
      are none to be had, the option is switched off. */
  function ChangedFilesOptions(o: Options, c: Collaborators): (r: Options)
    ensures r.(changedFiles := o.changedFiles, reportOnlyChangedFiles := o.reportOnlyChangedFiles) == o
    ensures r.commit == o.commit && r.head == o.head && r.base == o.base
    ensures r.reportOnlyChangedFiles ==> o.reportOnlyChangedFiles && r.changedFiles.Some?
  {
    if o.reportOnlyChangedFiles then
      var changedFiles := c.changedFiles(o);
      o.(changedFiles := changedFiles, reportOnlyChangedFiles := changedFiles.Some?)
    else o
  }

  /** The options `createComment` receives. */
  function PreparedOptions(inputs: Inputs, ctx: Context, c: Collaborators): (o: Options)
    ensures o.watermark == Watermark(ctx.job, inputs.uniqueIdForComment)
    ensures o.createNewComment == inputs.createNewComment && o.deleteOldComments == inputs.deleteOldComments
    ensures o.hideComment == inputs.hideComment && o.title == inputs.title
    ensures o.reportOnlyChangedFiles ==> inputs.reportOnlyChangedFiles && o.changedFiles.Some?
    ensures o.multipleFiles == inputs.multipleFiles && o.multipleJunitFiles == inputs.multipleJunitFiles
    ensures o.junitFile == inputs.junitFile && o.coverageFile == inputs.coverageFile
    ensures o.jestTestReportFile == inputs.jestTestReportFile
    ensures o.junitTitle == inputs.junitTitle
    ensures o.removeLinksToFiles == inputs.removeLinksToFiles && o.removeLinksToLines == inputs.removeLinksToLines
    ensures o.(commit := Some(""), head := None, base := None,
               changedFiles := None, reportOnlyChangedFiles := inputs.reportOnlyChangedFiles)
            == InitialOptions(inputs, Watermark(ctx.job, inputs.uniqueIdForComment))
  {
    ChangedFilesOptions(EventOptions(InitialOptions(inputs, Watermark(ctx.job, inputs.uniqueIdForComment)), ctx), c)
  }

  /** Setting the commit and refs of the event on the options. */
  method SetEventFields(o: Options, ctx: Context) returns (options: Options)
    ensures options == EventOptions(o, ctx)
  {
    options := o;
    if ctx.eventName == "pull_request" {
      var pr := ctx.payload.pullRequest;
      options := options.(
        commit := if pr.Some? then Some(pr.value.headSha) else None,
        head := if pr.Some? then Some(pr.value.headRef) else None,
        base := if pr.Some? then Some(pr.value.baseRef) else None);
    } else if ctx.eventName == "push" {
      options := options.(commit := ctx.payload.after, head := Some(ctx.ref));
    }
  }

  /** Looking up the changed files when only those are to be reported. */
  method SetChangedFiles(o: Options, c: Collaborators) returns (options: Options)
    ensures options == ChangedFilesOptions(o, c)
  {
    options := o;
    if options.reportOnlyChangedFiles {
      var changedFiles := c.changedFiles(options);
      options := options.(changedFiles := changedFiles);
      if changedFiles.None? {
        options := options.(reportOnlyChangedFiles := false);
      }
    }
  }

  /** Filling in the options, as the entry point does it. */
  method PrepareOptions(inputs: Inputs, ctx: Context, c: Collaborators) returns (options: Options)
    ensures options == PreparedOptions(inputs, ctx, c)
  {
    var watermark := Watermark(ctx.job, inputs.uniqueIdForComment);
    options := InitialOptions(inputs, watermark);
    options := SetEventFields(options, ctx);
    options := SetChangedFiles(options, c);
  }

  /** On a `pull_request` event, the commit and refs are those of the pull
      request's head and base ... */
  lemma PullRequestFields(inputs: Inputs, ctx: Context, c: Collaborators)
    requires ctx.eventName == "pull_request" && ctx.payload.pullRequest.Some?
    ensures var o := PreparedOptions(inputs, ctx, c); var pr := ctx.payload.pullRequest.value;
      o.commit == Some(pr.headSha) && o.head == Some(pr.headRef) && o.base == Some(pr.baseRef)
  {
    var o := EventOptions(InitialOptions(inputs, Watermark(ctx.job, inputs.uniqueIdForComment)), ctx);
    assert PreparedOptions(inputs, ctx, c) == ChangedFilesOptions(o, c);
  }

  /** A `pull_request` event whose payload has no pull request reads
      `payload.pull_request?.…` as `undefined`: commit, head and base are all unset. */
  lemma PullRequestWithoutPayloadFields(inputs: Inputs, ctx: Context, c: Collaborators)
    requires ctx.eventName == "pull_request" && ctx.payload.pullRequest.None?
    ensures var o := PreparedOptions(inputs, ctx, c);
      o.commit == None && o.head == None && o.base == None
  {
    var o := EventOptions(InitialOptions(inputs, Watermark(ctx.job, inputs.uniqueIdForComment)), ctx);
    assert PreparedOptions(inputs, ctx, c) == ChangedFilesOptions(o, c);
  }

  /** ... on a `push`, the pushed commit and the git ref, with no base ... */
  lemma PushFields(inputs: Inputs, ctx: Context, c: Collaborators)
    requires ctx.eventName == "push"
    ensures var o := PreparedOptions(inputs, ctx, c);
      o.commit == ctx.payload.after && o.head == Some(ctx.ref) && o.base == None
  {
    assert |ctx.eventName| != |"pull_request"|;
    var o := EventOptions(InitialOptions(inputs, Watermark(ctx.job, inputs.uniqueIdForComment)), ctx);
    assert PreparedOptions(inputs, ctx, c) == ChangedFilesOptions(o, c);
  }

  /** ... and on any other event, the empty commit and no refs. */
  lemma OtherEventFields(inputs: Inputs, ctx: Context, c: Collaborators)
    requires ctx.eventName != "pull_request" && ctx.eventName != "push"
    ensures var o := PreparedOptions(inputs, ctx, c);
      o.commit == Some("") && o.head == None && o.base == None
  {
    var o := EventOptions(InitialOptions(inputs, Watermark(ctx.job, inputs.uniqueIdForComment)), ctx);
    assert PreparedOptions(inputs, ctx, c) == ChangedFilesOptions(o, c);
  }

  /** `reportOnlyChangedFiles` stays on only when the changed files were found. */
  lemma ChangedFilesFallback(o: Options, c: Collaborators)
    requires o.reportOnlyChangedFiles
    ensures ChangedFilesOptions(o, c).reportOnlyChangedFiles <==> c.changedFiles(o).Some?
    ensures ChangedFilesOptions(o, c).changedFiles == c.changedFiles(o)
  {
  }

  // ---------------------------------------------------------------------------
  // The test report line

  const FailedMark := "**\U{274C} "
  const PassedMark := " **\U{2705} "
  const CoverageMark := "**\U{1F4CA} "

  function FailedLine(failures: int): string { FailedMark + IntToString(failures) + " failed**\n" }
  function PassedLine(succeeded: int): string { PassedMark + IntToString(succeeded) + " passed**\n" }
  function CoverageLine(coverage: real, showNumber: real -> string): string { CoverageMark + showNumber(coverage) + "% coverage**\n" }

  /** The test report: the failed, passed and coverage lines, each only when
      its number is not zero, in that order. */
  function TestReport(failures: int, succeeded: int, coverage: real, showNumber: real -> string): string {
    (if failures != 0 then FailedLine(failures) else "")
    + (if succeeded != 0 then PassedLine(succeeded) else "")
    + (if coverage != 0.0 then CoverageLine(coverage, showNumber) else "")
  }

  /** `testReportHtml`, accumulated line by line. */
  method BuildTestReport(failures: int, succeeded: int, coverage: real, showNumber: real -> string)
    returns (testReportHtml: string)
    ensures testReportHtml == TestReport(failures, succeeded, coverage, showNumber)
  {
    testReportHtml := "";
    if failures != 0 {
      testReportHtml := testReportHtml + FailedLine(failures);
    }
    assert testReportHtml == if failures != 0 then FailedLine(failures) else "";
    if succeeded != 0 {
      testReportHtml := testReportHtml + PassedLine(succeeded);
    }
    if coverage != 0.0 {
      testReportHtml := testReportHtml + CoverageLine(coverage, showNumber);
    }
  }

  /** The test report is empty exactly when all three numbers are zero; it
      opens with the failed line when there are failures, else with the passed
      line when tests passed, and closes with the coverage line when there is
      coverage. */
  lemma TestReportShape(failures: int, succeeded: int, coverage: real, showNumber: real -> string)
    ensures var r := TestReport(failures, succeeded, coverage, showNumber);
      (r == "" <==> failures == 0 && succeeded == 0 && coverage == 0.0) &&
      (failures != 0 ==> StartsWith(r, FailedLine(failures))) &&
      (failures == 0 && succeeded != 0 ==> StartsWith(r, PassedLine(succeeded))) &&
      (coverage != 0.0 ==> EndsWith(r, CoverageLine(coverage, showNumber)))
  {
    var f := if failures != 0 then FailedLine(failures) else "";
    var p := if succeeded != 0 then PassedLine(succeeded) else "";
    var cv := if coverage != 0.0 then CoverageLine(coverage, showNumber) else "";
    var r := f + p + cv;
    assert r == f + (p + cv);
    StartsWithConcat(f, p + cv);
    if failures == 0 {
      assert r == p + cv;
      StartsWithConcat(p, cv);
    }
    EndsWithConcat(f + p, cv);
  }

  // ---------------------------------------------------------------------------
  // The sections of the body

  /** A section as appended to the body: after a blank line, and only when not empty. */
  function Section(s: string): string {
    if s != "" then "\n\n" + s else ""
  }

  /** The parts of the body, in the order they are appended. `heading` and
      `multipleFiles` are appended as they are; the others through `Section`. */
  datatype Sections = Sections(
    heading: string,
    multipleFiles: string,
    testReport: string,
    summary: string,
    junit: string,
    failedTests: string,
    coverage: string)

  /** `finalHtml`. */
  function FinalHtml(s: Sections): string {
    s.heading + s.multipleFiles + Section(s.testReport) + Section(s.summary)
    + Section(s.junit) + Section(s.failedTests) + Section(s.coverage)
  }

  /** The fields of `reportContent` that the JUnit steps overwrite. */
  datatype JunitContent = JunitContent(testReportHtml: string, junitReportHtml: string)

  /** After the single JUnit report: its table and test report when it rendered anything. */
  function SingleJunitContent(o: Options, c: Collaborators, coverage: real): JunitContent {
    if o.junitFile != "" && c.junit(o).junitHtml != "" then
      var j := c.junit(o);
      JunitContent(TestReport(j.counts.failures, j.counts.succeeded, coverage, c.showNumber), j.junitHtml)
    else JunitContent("", "")
  }

  /** The multiple-JUnit step, when it runs. */
  function MultiJunitStep(o: Options, c: Collaborators): Option<MultiJunit.MultiJunitOutcome> {
    if |o.multipleJunitFiles| > 0 then
      Some(MultiJunit.MultipleJunitReport(o.multipleJunitFiles, o.junitTitle, c.parseLine, c.readJunit, c.renderRow))
    else None
  }

  /** A report over several JUnit files replaces both the test report and the
      JUnit table; its table comes after an extra blank line. */
  function AfterMultiJunit(content: JunitContent, step: Option<MultiJunit.MultiJunitOutcome>, coverage: real, c: Collaborators): JunitContent {
    if step.Some? && step.value.report.Some? then
      var report := step.value.report.value;
      JunitContent(TestReport(report.counts.failures, report.counts.succeeded, coverage, c.showNumber), "\n\n" + report.junitHtml)
    else content
  }

  /** The failed-tests step, when it runs. */
  function FailedTestsStep(o: Options, c: Collaborators): Option<FailedTests.FailedTestsReport> {
    if o.jestTestReportFile != "" then Some(FailedTests.GetFailedTestsReport(o, c.readFile, c.parseJson, c.stripAnsi))
    else None
  }

  /** The sections of the body for the prepared options. */
  function ReportSections(o: Options, c: Collaborators): Sections {
    var summary := c.summary(o);
    var content := AfterMultiJunit(SingleJunitContent(o, c, summary.coverage), MultiJunitStep(o, c), summary.coverage, c);
    var failed := FailedTestsStep(o, c);
    Sections(
      heading := if o.title != "" then "# " + o.title + "\n\n" else "",
      multipleFiles := if |o.multipleFiles| > 0 then "\n\n" + c.multipleReport(o) else "",
      testReport := content.testReportHtml,
      summary := summary.summaryHtml,
      junit := content.junitReportHtml,
      failedTests := if failed.Some? then failed.value.markdown else "",
      coverage := if o.coverageFile != "" then c.coverageHtml(o) else "")
  }

  /** Errors as the run logs them. */
  function Logged(errors: seq<string>): (r: seq<Effect>)
    ensures |r| == |errors|
    ensures forall k :: 0 <= k < |r| ==> r[k] == Error(errors[k])
  {
    if errors == [] then [] else [Error(errors[0])] + Logged(errors[1..])
  }

  /** The errors the section steps log: the multiple-JUnit step's, then the
      failed-tests step's. */
  function ReportLogs(o: Options, c: Collaborators): seq<Effect> {
    var multi := MultiJunitStep(o, c);
    var failed := FailedTestsStep(o, c);
    (if multi.Some? then Logged(multi.value.errors) else [])
    + (if failed.Some? then Logged(failed.value.errors) else [])
  }

  /** The single JUnit step of `main`: `reportContent` after it. */
  method SingleJunitPhase(options: Options, c: Collaborators, coverage: real) returns (content: JunitContent)
    ensures content == SingleJunitContent(options, c, coverage)
  {
    content := JunitContent("", "");
    if options.junitFile != "" {
      var junit := c.junit(options);
      if junit.junitHtml != "" {
        var testReportHtml := BuildTestReport(junit.counts.failures, junit.counts.succeeded, coverage, c.showNumber);
        content := JunitContent(testReportHtml, junit.junitHtml);
      }
    }
  }

  /** The multiple-JUnit step of `main`: `reportContent` after it, and what it logs. */
  method MultiJunitPhase(options: Options, c: Collaborators, coverage: real, content: JunitContent)
    returns (updated: JunitContent, logs: seq<Effect>)
    ensures updated == AfterMultiJunit(content, MultiJunitStep(options, c), coverage, c)
    ensures logs == if MultiJunitStep(options, c).Some? then Logged(MultiJunitStep(options, c).value.errors) else []
  {
    updated := content;
    logs := [];
    if |options.multipleJunitFiles| > 0 {
      var multi := MultiJunit.GetMultipleJunitReport(options, c.parseLine, c.readJunit, c.renderRow);
      logs := Logged(multi.errors);
      if multi.report.Some? {
        var junitReport := multi.report.value;
        var testReportHtml := BuildTestReport(junitReport.counts.failures, junitReport.counts.succeeded, coverage, c.showNumber);
        updated := JunitContent(testReportHtml, "\n\n" + junitReport.junitHtml);
      }
    }
  }

  /** Appending the sections that follow the JUnit steps, as `main` does. */
  method AppendSections(prefix: string, content: JunitContent, summaryHtml: string) returns (finalHtml: string)
    ensures finalHtml == prefix + Section(content.testReportHtml) + Section(summaryHtml) + Section(content.junitReportHtml)
  {
    finalHtml := prefix;
    if content.testReportHtml != "" {
      finalHtml := finalHtml + ("\n\n" + content.testReportHtml);
    }
    if summaryHtml != "" {
      finalHtml := finalHtml + ("\n\n" + summaryHtml);
    }
    if content.junitReportHtml != "" {
      finalHtml := finalHtml + ("\n\n" + content.junitReportHtml);
    }
  }

  /** Building `finalHtml` with `+=`, in the order of the entry point. */
  method AssembleReport(options: Options, c: Collaborators) returns (finalHtml: string, logs: seq<Effect>)
    ensures finalHtml == FinalHtml(ReportSections(options, c))
    ensures logs == ReportLogs(options, c)
  {
    ghost var s := ReportSections(options, c);
    finalHtml := "";
    var report := c.summary(options);
    var coverage := report.coverage;
    var summaryHtml := report.summaryHtml;
    if options.title != "" {
      finalHtml := finalHtml + ("# " + options.title + "\n\n");
    }
    assert finalHtml == s.heading;
    var content := SingleJunitPhase(options, c, coverage);
    if |options.multipleFiles| > 0 {
      finalHtml := finalHtml + ("\n\n" + c.multipleReport(options));
    }
    assert finalHtml == s.heading + s.multipleFiles;
    content, logs := MultiJunitPhase(options, c, coverage, content);
    assert content.testReportHtml == s.testReport && content.junitReportHtml == s.junit;
    finalHtml := AppendSections(finalHtml, content, summaryHtml);
    assert finalHtml == s.heading + s.multipleFiles + Section(s.testReport) + Section(s.summary) + Section(s.junit);
    ghost var upToFailed := finalHtml;
    if options.jestTestReportFile != "" {
      var jestTestReport := FailedTests.GetFailedTestsReport(options, c.readFile, c.parseJson, c.stripAnsi);
      logs := logs + Logged(jestTestReport.errors);
      finalHtml := finalHtml + (if jestTestReport.markdown != "" then "\n\n" + jestTestReport.markdown else "");
    }
    assert finalHtml == upToFailed + Section(s.failedTests);
    ghost var upToCoverage := finalHtml;
    if options.coverageFile != "" {
      var coverageHtml := c.coverageHtml(options);
      finalHtml := finalHtml + (if coverageHtml != "" then "\n\n" + coverageHtml else "");
    }
    assert finalHtml == upToCoverage + Section(s.coverage);
  }

  /** The body is empty exactly when there is no title, no multiple-files input
      and every other section is empty. */
  lemma FinalHtmlEmpty(s: Sections)
    ensures FinalHtml(s) == "" <==>
      s.heading == "" && s.multipleFiles == "" && s.testReport == "" && s.summary == ""
      && s.junit == "" && s.failedTests == "" && s.coverage == ""
  {
    var parts := [s.heading, s.multipleFiles, Section(s.testReport), Section(s.summary),
                  Section(s.junit), Section(s.failedTests), Section(s.coverage)];
    assert |FinalHtml(s)| == |parts[0]| + |parts[1]| + |parts[2]| + |parts[3]| + |parts[4]| + |parts[5]| + |parts[6]|;
  }

  /** With a report over several JUnit files, its test report and table are the
      ones in the body, whatever the single JUnit report said, and the table
      keeps the extra blank line in front. */
  lemma MultiJunitOverrides(o: Options, c: Collaborators)
    requires MultiJunitStep(o, c).Some? && MultiJunitStep(o, c).value.report.Some?
    ensures var report := MultiJunitStep(o, c).value.report.value;
      var s := ReportSections(o, c);
      s.testReport == TestReport(report.counts.failures, report.counts.succeeded, c.summary(o).coverage, c.showNumber) &&
      s.junit == "\n\n" + report.junitHtml
  {
  }

  // ---------------------------------------------------------------------------
  // The run

  /** The paged listing runs only for delete-then-create on a pull request. */
  predicate RunNeedsPaging(inputs: Inputs, ctx: Context) {
    IsPullRequestEvent(ctx.eventName) && inputs.createNewComment && inputs.deleteOldComments
  }

  /** Everything a run does: the errors the section steps log, then, unless
      the body is empty or the comment hidden, publishing `watermark + body`. */
  ghost function RunTrace(inputs: Inputs, ctx: Context, c: Collaborators, rem: Remote): seq<Effect>
    requires RunNeedsPaging(inputs, ctx) ==> Paginates(rem)
  {
    var o := PreparedOptions(inputs, ctx, c);
    var finalHtml := FinalHtml(ReportSections(o, c));
    ReportLogs(o, c) + (if finalHtml == "" || o.hideComment then [] else Publish(o, o.watermark + finalHtml, ctx, rem))
  }

  /** `main`. */
  method Run(inputs: Inputs, ctx: Context, c: Collaborators, rem: Remote) returns (trace: seq<Effect>)
    requires RunNeedsPaging(inputs, ctx) ==> Paginates(rem)
    ensures trace == RunTrace(inputs, ctx, c, rem)
  {
    var options := PrepareOptions(inputs, ctx, c);
    var finalHtml, logs := AssembleReport(options, c);
    trace := logs;
    if finalHtml == "" || options.hideComment {
      return;
    }
    var body := options.watermark + finalHtml;
    var effects := CreateComment(options, body, ctx, rem);
    trace := trace + effects;
  }

  lemma LoggedOnlyErrors(errors: seq<string>)
    ensures forall e :: e in Logged(errors) ==> e.Error?
  {
  }

  lemma ReportLogsOnlyErrors(o: Options, c: Collaborators)
    ensures forall e :: e in ReportLogs(o, c) ==> e.Error?
  {
    var multi := MultiJunitStep(o, c);
    var failed := FailedTestsStep(o, c);
    if multi.Some? { LoggedOnlyErrors(multi.value.errors); }
    if failed.Some? { LoggedOnlyErrors(failed.value.errors); }
  }

  /** With `hideComment`, or with nothing to report, a run makes no call to
      GitHub at all; it only logs. */
  lemma GateCallsNothing(inputs: Inputs, ctx: Context, c: Collaborators, rem: Remote)
    requires RunNeedsPaging(inputs, ctx) ==> Paginates(rem)
    requires inputs.hideComment || FinalHtml(ReportSections(PreparedOptions(inputs, ctx, c), c)) == ""
    ensures forall e :: e in RunTrace(inputs, ctx, c, rem) ==> !IsRemoteCall(e)
  {
    ReportLogsOnlyErrors(PreparedOptions(inputs, ctx, c), c);
  }

  /** Otherwise the run publishes exactly `watermark + finalHtml` with the
      prepared options, and a later run with the same watermark recognises the
      comment it posts. */
  lemma RunPublishesWatermarkedBody(inputs: Inputs, ctx: Context, c: Collaborators, rem: Remote, id: nat)
    requires RunNeedsPaging(inputs, ctx) ==> Paginates(rem)
    requires !inputs.hideComment && FinalHtml(ReportSections(PreparedOptions(inputs, ctx, c), c)) != ""
    ensures var o := PreparedOptions(inputs, ctx, c);
      var body := Watermark(ctx.job, inputs.uniqueIdForComment) + FinalHtml(ReportSections(o, c));
      RunTrace(inputs, ctx, c, rem) == ReportLogs(o, c) + Publish(o, body, ctx, rem) &&
      IsOurs(Comment(id, Some(BotLogin), Some(body)), o.watermark)
  {
    var o := PreparedOptions(inputs, ctx, c);
    PostedBodyIsOurs(id, o.watermark, FinalHtml(ReportSections(o, c)));
  }
}
