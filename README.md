# jest-coverage-comment, modelled in Dafny

jest-coverage-comment is a GitHub Action. It reads the reports of a Jest
run and writes one markdown comment on the pull request or commit. The report
files are a coverage summary, a coverage table, JUnit XML files and a Jest JSON
test report. A hidden HTML-comment watermark at the start of the comment lets a
later run of the same job find the comment again. That run then updates the
comment, or deletes it and posts a fresh one.

This project models the core of the action and proves properties about it:

- `create_comment.dfy` (module `CommentPublisher`) models `createComment`. It
  pages through the existing comments 20 at a time and keeps the bot's own
  watermarked ones. It deletes them, warning about each delete that fails,
  and warns when the body is over 65536 characters. It then posts a commit
  comment, creates a pull-request comment or updates one, or warns about an
  unsupported event. A GitHub call that throws is caught and logged as an
  error. The GitHub API is a value `Remote` that gives the answer to each
  call. The methods return the sequence of `Effect`s the run causes: calls,
  warnings and errors, in order.
- `failed_tests.dfy` (module `FailedTests`) models `getFailureDetails` and
  `getFailedTestsReport`. These render the Jest JSON report's failing tests as
  a `<details>` spoiler of fenced code blocks, one per assertion that has
  failure details.
- `multi_junit_files.dfy` (module `MultiJunit`) models
  `getMultipleJunitReport`. It parses `title, file` lines, reads each JUnit
  file, sums the counters of the files that parse, and builds a markdown
  table with one row per such file.
- `index.dfy` (module `Action`) models `main`:
  - the watermark and the options;
  - the commit, head and base taken from the event;
  - the changed-files fallback;
  - the test-report lines;
  - the section-by-section assembly of the body;
  - the gate that skips commenting when there is nothing to say or the
    comment is hidden;
  - the hand-off to `createComment`.
- `text.dfy` holds string helpers: prefixes, suffixes, `join`, JavaScript's
  `trim` and integer-to-decimal conversion. `types.dfy` holds the records of
  `src/types.d.ts` and the parts of the Actions context the core reads.
  `wrappers.dfy` holds `Option` and `Result`.

The loops of the source are `while`/`for` loops here:

- paging through comments;
- deleting comments;
- scanning the JUnit files.

Each is proved against a specification function, and the properties are
lemmas about those functions.

## Model

| member | source | states |
|---|---|---|
| CommentPublisher.IsOurs | src/create-comment.ts:34-36 | the filter's test: the author's login is `github-actions[bot]` and the body exists and starts with the watermark |
| CommentPublisher.Ours | src/create-comment.ts:33-37 | `results.filter(...)`: the comments passing that test, in listing order |
| CommentPublisher.OursMembers | src/create-comment.ts:33-37 | a comment survives the filter exactly when it is in the listing, was written by `github-actions[bot]` and has a body starting with the watermark |
| CommentPublisher.OursAppend | src/create-comment.ts:29-37 | filtering the concatenated pages equals concatenating the filtered pages, so the listing order is kept |
| CommentPublisher.FindOurs | src/create-comment.ts:138-142 | `comments.find(...)` with the same test: the first passing comment, or nothing |
| CommentPublisher.FindOursIsFirstOurs | src/create-comment.ts:138-142 | `find` returns the first comment the filter would keep, and nothing when the filter keeps none |
| CommentPublisher.FirstStopExists | src/create-comment.ts:21-31 | if some page is short or fails, there is a first such page, so the do/while loop ends |
| CommentPublisher.LastPage | src/create-comment.ts:21-31 | the last page requested is the first page that is short of 20 comments or fails, and every earlier page had exactly 20 |
| CommentPublisher.PageRequests | src/create-comment.ts:22-28 | the listing asks for pages 0, 1, … in order, each with 20 comments per page on the issue |
| CommentPublisher.ThreePagesOfTwentyTwentySeven | src/create-comment.ts:18-31 | pages of 20, 20 and 7 comments make three requests and collect 47 comments |
| CommentPublisher.PageData | src/create-comment.ts:29 | the comments one page answer adds: its data, or none when the call threw |
| CommentPublisher.Fetched | src/create-comment.ts:29 | `results.concat(response.data)` over the first `n` pages: their comments, page after page |
| CommentPublisher.ExistingComments | src/create-comment.ts:14-38 | what the listing yields: the failure of the first page that threw, or the filtered concatenation of pages 0 to the first short page |
| CommentPublisher.GetExistingComments | src/create-comment.ts:14-38 | the loop requests pages 0 to the first short page. It yields the bot's watermarked comments of all fetched pages in order, or the failure of the page that threw |
| CommentPublisher.DeleteOne | src/create-comment.ts:47-58 | one iteration: the delete call, then the warning "Failed to delete comment: id. message" when that call threw |
| CommentPublisher.DeleteAll | src/create-comment.ts:46-59 | the loop: one iteration per listed comment, in order, the `k`-th delete call answered by the remote's `k`-th delete reply |
| CommentPublisher.DeleteAllSnoc | src/create-comment.ts:46-59 | one more comment adds exactly its delete call, answered as the next call in the pass, and its warning if that call fails |
| CommentPublisher.DeletePrefixStep | src/create-comment.ts:46-59 | one iteration of the delete loop adds exactly the effects of deleting the current comment |
| CommentPublisher.DeleteAllDeletesEachOnce | src/create-comment.ts:46-59 | the loop deletes every found comment exactly once, in listing order. It causes only deletes and warnings |
| CommentPublisher.FailedDeleteWarns | src/create-comment.ts:48-58 | a failing delete is followed by the warning "Failed to delete comment: id. message", and the loop goes on |
| CommentPublisher.RepeatedCommentDeletedTwice | src/create-comment.ts:29-59 | a comment the paged listing returns twice is deleted twice; the first call can succeed and the second fail with its warning |
| CommentPublisher.DeleteEach | src/create-comment.ts:46-59 | the loop's effects are those of deleting each comment in turn |
| CommentPublisher.DeletePass | src/create-comment.ts:40-60 | what `deleteOldComments` does: the page requests, then, when the listing succeeded, one deletion per found comment |
| CommentPublisher.DeleteOldComments | src/create-comment.ts:40-60 | list then delete. If the listing threw, nothing is deleted and the failure is passed on to the caller |
| CommentPublisher.DeletePassOnlyListsAndDeletes | src/create-comment.ts:40-60 | deleting old comments only lists, deletes and warns |
| CommentPublisher.DeletePassCreatesNothing | src/create-comment.ts:40-60 | when the listing succeeds, the ids deleted are exactly the ids found, in order, and nothing is created |
| CommentPublisher.Warning.Text | src/create-comment.ts:55-166 | the text each warning shows: the oversize lines joined with line breaks; "Failed to delete comment: ", the id, ". " and the reason; and the unsupported-event sentence naming the event |
| CommentPublisher.WarningTextsCarrySubject | src/create-comment.ts:55-166 | the oversize text is its lines joined by line breaks; the id can be read back from between the delete warning's opening and its ". reason" ending; the event name can be read back from between the unsupported-event warning's fixed sentences |
| CommentPublisher.OversizeLines | src/create-comment.ts:74-97 | the lines of the oversize warning: four fixed lines, then the hints for report-only-changed-files, remove-links-to-files and remove-links-to-lines, each only when that option is off |
| CommentPublisher.OversizeLinesFixed | src/create-comment.ts:74-97 | the oversize warning starts with its four fixed lines and has one hint line more for each of the three options that is off |
| CommentPublisher.FixedLinesAreNotHints | src/create-comment.ts:74-97 | none of the fixed lines is one of the option hints |
| CommentPublisher.OversizeLinesHints | src/create-comment.ts:81-97 | each hint is in the warning exactly when its option is off |
| CommentPublisher.SizeGuard | src/create-comment.ts:73-100 | the oversize warning, the lines joined with line breaks, when the body is longer than 65536 characters, and nothing otherwise |
| CommentPublisher.SizeGuardPostsNothing | src/create-comment.ts:73-100 | the length check only warns. It posts and deletes nothing |
| CommentPublisher.OversizeOnlyWarns | src/create-comment.ts:73-100 | a body over 65536 characters adds one warning before the event handling, which happens anyway. A shorter body adds nothing |
| CommentPublisher.IssueNumber | src/create-comment.ts:71 | the pull request's number from the payload, 0 when the payload has no pull request |
| CommentPublisher.Caught | src/create-comment.ts:169-173 | a call that succeeded adds nothing; one that threw adds its message as an error |
| CommentPublisher.IsPullRequestEvent | src/create-comment.ts:111-114 | the events the pull-request branch handles: `pull_request` and `pull_request_target` |
| CommentPublisher.CreateOnIssue | src/create-comment.ts:124-129 | the create call on the issue number with the body, then its error if it threw |
| CommentPublisher.PushTrace | src/create-comment.ts:102-110 | the commit comment call on `options.commit` with the body, then its error if it threw |
| CommentPublisher.NewCommentTrace | src/create-comment.ts:115-129 | with delete-old, the delete pass and then the create, or the listing's error in place of the create; without it, only the create |
| CommentPublisher.UpdateModeTrace | src/create-comment.ts:130-160 | the unpaged listing, then its error if it threw, else the update of the first own comment with its error, or the create when there is none |
| CommentPublisher.OtherEventTrace | src/create-comment.ts:162-168 | the unsupported-event warning naming the event, unless the comment is hidden |
| CommentPublisher.CaughtPostsNothing | src/create-comment.ts:169-173 | a caught error posts nothing and deletes nothing |
| CommentPublisher.CreateOnIssueCreatesOnce | src/create-comment.ts:124-129 | creating the comment is one post, and a create |
| CommentPublisher.Dispatch | src/create-comment.ts:102-168 | the event branch: commit comment on `push`, the new-comment or update path on `pull_request` and `pull_request_target`, the unsupported-event warning otherwise |
| CommentPublisher.Publish | src/create-comment.ts:62-174 | everything `createComment` does: the oversize warning if the body is too long, then the event branch, each call that throws caught as an error |
| CommentPublisher.CreateComment | src/create-comment.ts:62-174 | the effects of `createComment` are those of the specification `Publish`: size warning, then the event's branch, then an error if a call threw |
| CommentPublisher.CommentOnPullRequest | src/create-comment.ts:111-161 | on a pull-request event the effects are those of the new-comment branch or of the update branch, as `createNewComment` says |
| CommentPublisher.CreateNewComment | src/create-comment.ts:115-129 | delete old comments if asked, then create. A failed listing stops before the create |
| CommentPublisher.UpdateOrCreate | src/create-comment.ts:130-160 | list the first page, then update the bot's first watermarked comment, or create one when there is none |
| CommentPublisher.PushCreatesOnlyCommitComment | src/create-comment.ts:102-110 | on `push` the only GitHub call is one commit comment on `options.commit` with the body |
| CommentPublisher.DeleteThenCreate | src/create-comment.ts:115-129 | with delete-old on and a successful listing: size warning, list and delete, then exactly one create on the pull request's number |
| CommentPublisher.DeleteThenCreateDeletesFound | src/create-comment.ts:115-129 | in that case the run deletes exactly the found comments, in order |
| CommentPublisher.DeleteThenCreateCreatesOnce | src/create-comment.ts:115-129 | in that case the run creates exactly one comment |
| CommentPublisher.CreateWithoutDelete | src/create-comment.ts:115-129 | without delete-old, the only GitHub call is the create |
| CommentPublisher.UpdateModeUpdatesFirstOurs | src/create-comment.ts:130-160 | in update mode the run lists. It updates the first watermarked comment of the bot if there is one, and otherwise creates a comment |
| CommentPublisher.UpdateModeSingleOursComment | src/create-comment.ts:130-160 | with exactly one own comment in the listing, that comment is updated. Nothing is created, and there is one post in all |
| CommentPublisher.OtherEventsCallNothing | src/create-comment.ts:162-168 | other events make no GitHub call. They warn about the unsupported event unless the comment is hidden |
| CommentPublisher.NewCommentPostsOnce | src/create-comment.ts:115-129 | the new-comment branch posts at most once |
| CommentPublisher.UpdateModePostsOnce | src/create-comment.ts:130-160 | the update branch posts at most once |
| CommentPublisher.DispatchPostsOnce | src/create-comment.ts:102-168 | every event branch posts at most once |
| CommentPublisher.AtMostOnePost | src/create-comment.ts:62-174 | a run of `createComment` posts at most one comment |
| CommentPublisher.ErrorEndsRun | src/create-comment.ts:66-173 | an error, if any, is the last effect: the first call that throws ends `createComment` |
| FailedTests.Spoiler | src/failed-tests.ts:12-25 | the spoiler starts with a line break and `<details><summary><`, and ends with `</details>` and a line break. The body is exactly what lies between its head and its tail |
| FailedTests.SpoilerInjective | src/failed-tests.ts:12-25 | different bodies give different spoilers |
| FailedTests.WrapCode | src/failed-tests.ts:49 | the code is exactly what lies between the opening and the closing fence |
| FailedTests.TestTitle | src/failed-tests.ts:27-37 | the heading of an assertion: its title alone without ancestor titles, else the ancestors joined with " > ", then " > " and the title |
| FailedTests.TestTitleIsPath | src/failed-tests.ts:36 | the heading is the ancestor titles and the title joined with " > " |
| FailedTests.TestTitleNoAncestors | src/failed-tests.ts:34-36 | without ancestor titles the heading is the title. An empty list gives " > " followed by the title |
| FailedTests.RenderAssertion | src/failed-tests.ts:59-78 | an assertion gives a block exactly when it has failure details. The block is a spoiler headed by its title around the fenced first failure message |
| FailedTests.RenderAssertionIgnoresStatus | src/failed-tests.ts:59-78 | an assertion's block depends neither on its status nor on its failure messages |
| FailedTests.AssertionBlocks | src/failed-tests.ts:59-79 | `assertionResults.map(...).filter(Boolean)`: the rendered block of each assertion that has one, in order |
| FailedTests.AssertionBlocksCount | src/failed-tests.ts:59-79 | there is one block per assertion with failure details, and every block comes from such an assertion |
| FailedTests.AssertionBlocksAppend | src/failed-tests.ts:59-79 | blocks of concatenated assertion lists are the concatenated blocks |
| Text.TrimEmptyIffBlank | src/failed-tests.ts:55 | a message trims to empty exactly when it is all JavaScript whitespace |
| FailedTests.ResultElements | src/failed-tests.ts:53-81 | what `flatMap` takes from one test result: one empty element when its stripped message trims to nothing or it has no assertion results, else its assertion blocks |
| FailedTests.BlankMessageAddsEmptyElement | src/failed-tests.ts:54-57 | a test result whose stripped message is blank adds one empty element |
| FailedTests.NonBlankMessageAddsBlocks | src/failed-tests.ts:59-81 | otherwise it adds the blocks of its assertions |
| FailedTests.CodeBlocks | src/failed-tests.ts:51-82 | `codeBlocks`: the elements of every test result that did not pass, in order |
| FailedTests.CodeBlocksAppend | src/failed-tests.ts:51-82 | `flatMap` over concatenated results is the concatenation |
| FailedTests.NotPassed | src/failed-tests.ts:51-52 | `filter(({ status }) => status !== 'passed')`: the results that did not pass, in order |
| FailedTests.PassedResultsContributeNothing | src/failed-tests.ts:51-52 | passed test results add no code blocks |
| FailedTests.Reportable | src/failed-tests.ts:42-44 | the test of `some`: a non-empty message and a status other than passed |
| FailedTests.GetFailureDetails | src/failed-tests.ts:39-91 | the details are empty exactly when no result has a message and a status other than passed. Otherwise they are the "Failed Tests" spoiler around the blocks joined with blank lines, and a newline |
| FailedTests.SectionWithoutDetails | src/failed-tests.ts:39-91 | a failing result with an empty assertion list still produces the Failed Tests section |
| FailedTests.GetFailedTestsReport | src/failed-tests.ts:93-111 | no report path gives empty output. Unparseable JSON gives empty output and the error "Failed to parse path as JSON". There is at most one error, and never both an error and markdown |
| FailedTests.FailedTestsReportNonEmpty | src/failed-tests.ts:93-111 | the report is non-empty exactly when the path is set, the JSON parses and some test result is reportable |
| MultiJunit.Lines | src/multi-junit-files.ts:26 | `map(parseLine).filter(notNull)`: the lines that parse, in order |
| MultiJunit.LinesEmpty | src/multi-junit-files.ts:26-27 | no line reports remain exactly when every input line fails to parse |
| MultiJunit.RowOf | src/multi-junit-files.ts:46-48 | the row of a line when its file parsed: a bar, the title, a space, the rendered file and a line break; nothing otherwise |
| MultiJunit.Rows | src/multi-junit-files.ts:41-60 | the rows of the lines, in order |
| MultiJunit.ParsedOf | src/multi-junit-files.ts:44-46 | the parsed file of a read, or none |
| MultiJunit.ParsedCounts | src/multi-junit-files.ts:41-60 | the parsed files of the first `n` lines, in order |
| MultiJunit.Totals | src/multi-junit-files.ts:16-58 | the results after the first `n` lines: zero, then each parsed file added in |
| MultiJunit.FirstRaised | src/multi-junit-files.ts:41-75 | the message of the first read among the first `n` lines that threw, which the catch logs |
| MultiJunit.FirstRaisedStays | src/multi-junit-files.ts:41-74 | once a file read throws, later files cannot change the outcome: the first exception decides it |
| MultiJunit.AddFile | src/multi-junit-files.ts:46-59 | a parsed file appends its row and adds its counters and time. Its `succeeded` takes over |
| MultiJunit.NextRow | src/multi-junit-files.ts:48 | one more line appends exactly that line's row |
| MultiJunit.NextCounts | src/multi-junit-files.ts:46-51 | one more line adds its parsed file, if any, to the parsed files |
| MultiJunit.NextTotals | src/multi-junit-files.ts:51-58 | one more parsed file adds into the totals. An unparsed one leaves them alone |
| MultiJunit.NextRaised | src/multi-junit-files.ts:43-44 | a line whose read does not throw keeps the scan free of exceptions |
| MultiJunit.SumStep | src/multi-junit-files.ts:53-56 | summing a counter over one more file adds that file's counter if it parsed |
| MultiJunit.SumTimeStep | src/multi-junit-files.ts:57 | likewise for the time |
| MultiJunit.ScanLine | src/multi-junit-files.ts:41-60 | one iteration keeps the loop invariant: the table so far, the totals over the parsed files so far, and whether some file parsed |
| MultiJunit.ScanFiles | src/multi-junit-files.ts:36-61 | the loop stops at the first exception. Otherwise it ends with the table head plus one row per parsed file, the totals over all lines, and the flag set exactly when some file parsed |
| MultiJunit.GetMultipleJunitReport | src/multi-junit-files.ts:7-77 | the method computes the specification `MultipleJunitReport`: report or none, and its logged errors |
| MultiJunit.Add | src/multi-junit-files.ts:51-58 | adding a parsed file to the results: tests, skipped, failures, errors and time add up, `succeeded` is overwritten |
| MultiJunit.MultipleJunitReport | src/multi-junit-files.ts:7-77 | the outcome: nothing without input lines; the "No files are provided" error when no line parses; the prefixed message of the first exception; nothing when no file parses; otherwise the totals and the table |
| MultiJunit.TotalsAreSums | src/multi-junit-files.ts:16-58 | each counter of the result is the sum over the parsed files, and the time is the sum of their times. `succeeded` is the last parsed file's (0 when none) |
| MultiJunit.CounterIsSum | src/multi-junit-files.ts:53-56 | tests, skipped, failures and errors are each the sum over the parsed files |
| MultiJunit.TimeIsSum | src/multi-junit-files.ts:57 | time is the sum over the parsed files |
| MultiJunit.SucceededIsLast | src/multi-junit-files.ts:58 | `succeeded` is overwritten, not summed: it is the last parsed file's |
| MultiJunit.CountsAppend | src/multi-junit-files.ts:41-60 | the parsed files of two runs of lines, one after the other, are the two lists of parsed files concatenated |
| MultiJunit.RowsAppend | src/multi-junit-files.ts:41-60 | the rows of concatenated lines are the concatenated rows |
| MultiJunit.RaisedAppend | src/multi-junit-files.ts:41-60 | the first exception over concatenated lines is the first part's, else the second part's |
| MultiJunit.UnparsedLineChangesNothing | src/multi-junit-files.ts:44-46 | inserting a line whose file does not parse changes nothing. Parsed files, totals, rows and exception all stay the same |
| MultiJunit.ReportNeedsAParsedFile | src/multi-junit-files.ts:12-76 | a report exists exactly when some line parses, no read throws and some file parses. No input lines give nothing and no error. Lines that all fail to parse give the "No files are provided" error |
| MultiJunit.ReportValue | src/multi-junit-files.ts:62-67 | the report carries the totals over all lines and the table head followed by the parsed files' rows |
| MultiJunit.TableTitle | src/multi-junit-files.ts:34 | `# title` and a blank line when a JUnit title is set, nothing otherwise |
| MultiJunit.TableHead | src/multi-junit-files.ts:34-39 | the table title, then the header row and the separator row |
| MultiJunit.TableStartTitled | src/multi-junit-files.ts:34-39 | with a title the table starts with "# title" and a blank line |
| MultiJunit.TableStartUntitled | src/multi-junit-files.ts:34-39 | without one it starts with the header row and the separator row |
| MultiJunit.TableStartsWithHash | src/multi-junit-files.ts:34-39 | the table starts with "# " exactly when a title is given |
| Action.Watermark | src/index.ts:71-74 | the hidden first line `<!-- Jest Coverage Comment: job -->`, with a bar and the unique id before the closing when one is set |
| Action.WatermarkIsOneLine | src/index.ts:71-74 | the watermark is one line ending in a newline when job and id have no newline |
| Action.OursOnlyWithSameWatermark | src/index.ts:71-74 | a body posted under another job's or id's watermark is recognised exactly when the two watermarks are equal |
| Action.WatermarkWithoutId | src/index.ts:71-74 | without a unique id the watermark is `<!-- Jest Coverage Comment: job -->` and a newline |
| Action.PostedBodyIsOurs | src/index.ts:274-275 | the posted body `watermark + finalHtml` is recognised as the bot's own by a later run with the same watermark |
| Action.InitialOptions | src/index.ts:77-102 | the options built from the inputs: the watermark, commit "", no head, base or changed files, every other field the input of that name |
| Action.EventOptions | src/index.ts:104-111 | the event step changes only commit, head and base |
| Action.SetEventFields | src/index.ts:104-111 | the method computes `EventOptions` |
| Action.PullRequestFields | src/index.ts:104-107 | on `pull_request` commit, head and base come from the payload's pull request |
| Action.PullRequestWithoutPayloadFields | src/index.ts:104-107 | on `pull_request` without a pull request in the payload, commit, head and base are all unset |
| Action.PushFields | src/index.ts:108-111 | on `push` commit is `payload.after` and head the ref. Base stays unset |
| Action.OtherEventFields | src/index.ts:81-111 | on other events commit stays "" and head and base stay unset |
| Action.ChangedFilesOptions | src/index.ts:113-121 | the changed-files step only changes `changedFiles` and `reportOnlyChangedFiles`. It can only turn the latter off, and it stays on only with a list |
| Action.SetChangedFiles | src/index.ts:113-121 | the method computes `ChangedFilesOptions` |
| Action.ChangedFilesFallback | src/index.ts:113-121 | when asked for, only-changed-files stays on exactly when a list could be obtained |
| Action.PreparedOptions | src/index.ts:77-121 | the options carry the watermark and the inputs unchanged, apart from the event fields and the changed-files fallback |
| Action.PrepareOptions | src/index.ts:77-121 | the method computes `PreparedOptions` |
| Action.TestReport | src/index.ts:172-186 | the test report: the failed, passed and coverage lines, each only when its number is not zero, in that order |
| Action.FailedLine | src/index.ts:174-176 | `**❌ n failed**` and a line break |
| Action.PassedLine | src/index.ts:178-180 | ` **✅ n passed**` and a line break, with its leading space |
| Action.CoverageLine | src/index.ts:182-184 | `**📊 coverage% coverage**` and a line break, the coverage as `showNumber` writes it |
| Action.BuildTestReport | src/index.ts:172-186 | the method computes the test report lines |
| Action.TestReportShape | src/index.ts:172-186 | the report is empty exactly when failures, passes and coverage are all zero. It starts with the failed line if any fail, else with the passed line if any pass, and ends with the coverage line when coverage is not 0 |
| Action.Logged | src/multi-junit-files.ts:28-30 | each error message becomes one error effect, in order |
| Action.ReportLogsOnlyErrors | src/index.ts:194-233 | building the report logs only errors |
| Action.SingleJunitContent | src/index.ts:148-188 | the test report and JUnit table of the single JUnit step: set only when a JUnit file is given and its report has HTML |
| Action.MultiJunitStep | src/index.ts:194-195 | the multiple JUnit report, when multiple JUnit files are given |
| Action.AfterMultiJunit | src/index.ts:197-214 | a multiple JUnit report replaces the test report, from its failures and passes, and the JUnit table, after a blank line; no report leaves both |
| Action.FailedTestsStep | src/index.ts:229-233 | the failed tests report, when a Jest JSON report path is given |
| Action.ReportLogs | src/index.ts:194-233 | the errors the multiple JUnit and failed tests steps log, in that order |
| Action.SingleJunitPhase | src/index.ts:148-188 | the single JUnit phase sets the JUnit table and test report only when the JUnit report has HTML |
| Action.MultiJunitPhase | src/index.ts:194-215 | the multiple JUnit phase, when it yields a report, overrides the test report and the JUnit section. It logs the report's errors |
| Action.MultiJunitOverrides | src/index.ts:194-215 | a multiple JUnit report sets the test report from its failures and passes, and the JUnit section to a blank line and its table |
| Action.ReportSections | src/index.ts:123-246 | the sections of the body: title heading, multiple-files report, test report, summary, JUnit table, failed tests and coverage, each as its step produces it |
| Action.FinalHtml | src/index.ts:138-246 | the body: the heading and the multiple-files report, then each non-empty remaining section after a blank line, in the source's order |
| Action.Section | src/index.ts:217-227 | a section is appended after a blank line when it is non-empty, and not at all otherwise |
| Action.AppendSections | src/index.ts:217-227 | test report, summary and JUnit are appended in that order, each after a blank line when non-empty |
| Action.AssembleReport | src/index.ts:123-246 | the body is `FinalHtml` of the sections and the logs are the sections' errors |
| Action.FinalHtmlEmpty | src/index.ts:138-246 | the body is empty exactly when every section is empty |
| Action.RunTrace | src/index.ts:123-275 | everything `main` does: the report's logged errors, then, unless the body is empty or the comment hidden, `createComment` on the watermark followed by the body |
| Action.Run | src/index.ts:13-281 | the effects of `main` are the specification `RunTrace`: the report's logs and then, past the gate, those of `createComment` |
| Action.GateCallsNothing | src/index.ts:269-272 | with the comment hidden or nothing to report, a run makes no GitHub call |
| Action.RunPublishesWatermarkedBody | src/index.ts:274-275 | past the gate, a run publishes exactly the watermark plus the body with the prepared options, and the comment it posts is recognised as its own |

## Left out

- Reading inputs, `core.info`/`core.debug`/`core.setOutput` and the log groups. None of these changes the comment. Errors and warnings are modelled as `Effect`s.
- The GitHub API (Octokit). It is a value `Remote` that gives each call's answer. A page listing is `listPage(n)` and the first-page listing without paging is `listDefault`. The `k`-th delete call of a run gets the reply `deleteReply(k)`, so a comment listed twice can be answered differently each time. Create, update and commit comment each have one reply, since a run makes at most one of them. Network, authentication and rate limits are outside the model.
- `getSummaryReport`, `getJunitReport`, `getMultipleReport`, `getCoverageReport`, `getChangedFiles` and the number formatting `showNumber` are parameters of a run (`Collaborators`). The same goes for `parseLine`, for reading and parsing a JUnit file (`readJunit`), for `junitToMarkdown` (`renderRow`), and for the file reading, JSON parsing and `stripAnsi` of the failed tests report. Their own code is not part of this model.
- GetExistingComments, DeleteOldComments, CreateComment and Run require that some page of the listing is short or fails, but only when the paged listing runs. The source loops for ever against a server that always answers 20 comments.
- String length is the number of characters. JavaScript counts UTF-16 code units, so the 65536-character check against text outside the Basic Multilingual Plane is not modelled.
- JUnit times are `real`s, so floating-point rounding in the summed time is not modelled. A `NaN` coverage (falsy in JavaScript, so the source leaves out the coverage line) cannot occur in the model.
- A thrown value is modelled as an `Error` with a message. The `instanceof Error` test only decides whether the message is logged.
- `main`'s own `catch`, which calls `setFailed`, is not modelled. The collaborators are total here, so the model has no throw for that `catch` to receive. In the source, a report file whose contents break the code that reads them does throw into it, and the run then ends without a comment. The next two lines list these cases.
- FailedTests.GetFailedTestsReport: JSON that parses is assumed to have the shape of a Jest JSON report, because `parse` yields either nothing or a `JsonReport`. JSON of another shape, such as `null` or a test result without `message`, makes `getFailureDetails` throw at src/failed-tests.ts:39-43. That throw is outside the `catch` around `JSON.parse`, so it reaches `main`'s `catch`, and the run ends without a comment. That abort is not modelled: the model renders the value `parse` gives and the run goes on.
- MultiJunit.GetMultipleJunitReport: `parseLine` and `junitToMarkdown` (`renderRow`) are total here. In the source, a throw from either, at src/multi-junit-files.ts:26 or :47, is caught at :68-74. It is logged as "Generating summary report for multiple JUnit files. " followed by the message, and the function returns null. The model raises only from `readJunit`, so it does not capture a throw from those two.
- Options that only the collaborators read (token, badge, summary and coverage titles, path prefix, hide-summary) are not fields of `Options`.
- commit, head and base are set only on `pull_request` with a payload and on `push`, as in the code. On `pull_request_target` they keep their initial values.
- `payload.pull_request?.number` is 0 for events without a pull request, as in the code. The paged listing uses `context.issue.number`, which is a separate field of the context here, as it is in the source.
