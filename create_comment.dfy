/** Publishing the report as a GitHub comment (src/create-comment.ts): finding
    the comments an earlier run posted, deleting them, and choosing between a
    commit comment, delete-then-create, update-in-place and doing nothing.

    The remote side is a `Remote` value that answers each call; what the run
    does to the remote, and what it logs as a warning or an error, is the
    returned trace of `Effect`s. */
module CommentPublisher {
  import opened Wrappers
  import opened Text
  import opened Types

  const MaxCommentLength: nat := 65536
  const RequestedCommentsPerPage: nat := 20
  const BotLogin := "github-actions[bot]"

  /** An issue comment: its id, its author's login and its body (either may be missing). */
  datatype Comment = Comment(id: nat, login: Option<string>, body: Option<string>)

  /** The answer to a call that returns no data: it succeeded or threw. */
  datatype Reply = Done | Failed(message: string)

  /** What the remote answers during one run. `listPage(p)` is the answer to
      listing page `p` with `per_page` 20, `listDefault` the answer to the listing
      without paging parameters, and `deleteReply(k)` the answer to the `k`-th
      delete call of the run (counting from 0), so that two deletes of the same
      id, when the listing repeats a comment, can be answered differently. */
  datatype Remote = Remote(
    listPage: nat -> Result<seq<Comment>>,
    listDefault: Result<seq<Comment>>,
    deleteReply: nat -> Reply,
    createReply: Reply,
    updateReply: Reply,
    commitCommentReply: Reply)

  /** One observable step of a run: a call to the remote or a logged warning/error. */
  datatype Effect =
    | ListPage(issue: int, page: nat, perPage: nat)
    | ListDefault(issue: int)
    | CreateCommit(sha: Option<string>, body: string)
    | Create(issue: int, body: string)
    | Update(id: nat, body: string)
    | Delete(id: nat)
    | Warn(warning: Warning)
    | Error(message: string)

  /** A warning the run logs, with the text it shows. */
  datatype Warning =
    | CommentTooLong(lines: seq<string>)
    | DeleteFailed(id: nat, reason: string)
    | UnsupportedEvent(eventName: string)
  {
    function Text(): string {
      match this
      case CommentTooLong(lines) => Join(lines, "\n")
      case DeleteFailed(id, reason) => DeleteFailedOpening + Decimal(id) + ". " + reason
      case UnsupportedEvent(eventName) => UnsupportedOpening + eventName + UnsupportedClosing
    }
  }

  const DeleteFailedOpening := "Failed to delete comment: "
  const UnsupportedOpening :=
    "This action supports comments only on 'pull_request', 'pull_request_target' and 'push' events. '"
  const UnsupportedClosing := "' events are not supported.\nYou can use the output of the action."

  /** Each warning text carries what it is about: the oversize warning is its lines
      joined by line breaks, the delete warning names the comment id and then the
      reason, and the unsupported-event warning names the event between its fixed
      sentences, so the id, the reason and the event name can be read back. */
  lemma WarningTextsCarrySubject(w: Warning)
    ensures w.CommentTooLong? ==> w.Text() == Join(w.lines, "\n")
    ensures w.DeleteFailed? ==>
      Between(w.Text(), DeleteFailedOpening, ". " + w.reason) == Some(Decimal(w.id))
    ensures w.UnsupportedEvent? ==>
      Between(w.Text(), UnsupportedOpening, UnsupportedClosing) == Some(w.eventName)
  {
    match w
    case CommentTooLong(_) =>
    case DeleteFailed(id, reason) =>
      assert w.Text() == DeleteFailedOpening + Decimal(id) + (". " + reason);
      BetweenFilled(DeleteFailedOpening, Decimal(id), ". " + reason);
    case UnsupportedEvent(eventName) =>
      BetweenFilled(UnsupportedOpening, eventName, UnsupportedClosing);
  }

  // ---------------------------------------------------------------------------
  // Which comments are ours

  /** A comment was posted by this job: written by the bot and starting with the watermark. */
  predicate IsOurs(c: Comment, watermark: string) {
    c.login == Some(BotLogin) && c.body.Some? && StartsWith(c.body.value, watermark)
  }

  /** `comments.filter(isOurs)`. */
  function Ours(cs: seq<Comment>, watermark: string): seq<Comment>
    decreases |cs|
  {
    if cs == [] then []
    else (if IsOurs(cs[0], watermark) then [cs[0]] else []) + Ours(cs[1..], watermark)
  }

  /** The filter keeps exactly the comments that are ours. */
  lemma {:induction false} OursMembers(cs: seq<Comment>, watermark: string)
    ensures forall c :: c in Ours(cs, watermark) <==> c in cs && IsOurs(c, watermark)
    decreases |cs|
  {
    if cs != [] {
      OursMembers(cs[1..], watermark);
      assert forall c :: c in cs <==> c == cs[0] || c in cs[1..];
    }
  }

  /** The filter keeps the original order: filtering a concatenation
      concatenates the filtered parts. */
  lemma {:induction false} OursAppend(a: seq<Comment>, b: seq<Comment>, watermark: string)
    ensures Ours(a + b, watermark) == Ours(a, watermark) + Ours(b, watermark)
    decreases |a|
  {
    if a == [] {
      assert a + b == b;
    } else {
      var kept := if IsOurs(a[0], watermark) then [a[0]] else [];
      calc {
        Ours(a + b, watermark);
        == { assert (a + b)[0] == a[0]; assert (a + b)[1..] == a[1..] + b; }
        kept + Ours(a[1..] + b, watermark);
        == { OursAppend(a[1..], b, watermark); }
        kept + (Ours(a[1..], watermark) + Ours(b, watermark));
        == { SeqAssoc(kept, Ours(a[1..], watermark), Ours(b, watermark)); }
        (kept + Ours(a[1..], watermark)) + Ours(b, watermark);
        Ours(a, watermark) + Ours(b, watermark);
      }
    }
  }

  /** `comments.find(isOurs)`. */
  function FindOurs(cs: seq<Comment>, watermark: string): Option<Comment>
    decreases |cs|
  {
    if cs == [] then None
    else if IsOurs(cs[0], watermark) then Some(cs[0])
    else FindOurs(cs[1..], watermark)
  }

  /** `find` returns the first element `filter` keeps, and nothing when it keeps none. */
  lemma {:induction false} FindOursIsFirstOurs(cs: seq<Comment>, watermark: string)
    ensures FindOurs(cs, watermark) == if Ours(cs, watermark) == [] then None else Some(Ours(cs, watermark)[0])
    decreases |cs|
  {
    if cs != [] && !IsOurs(cs[0], watermark) {
      FindOursIsFirstOurs(cs[1..], watermark);
    }
  }

  // ---------------------------------------------------------------------------
  // Paginated listing

  /** Paging stops after this answer: the call threw, or the page is not full. */
  predicate PageStops(answer: Result<seq<Comment>>) {
    answer.Failure? || |answer.value| != RequestedCommentsPerPage
  }

  /** Some page ends the listing, so the paging loop terminates. */
  ghost predicate Paginates(rem: Remote) {
    exists n: nat :: PageStops(rem.listPage(n))
  }

  /** Page `n` is the first page that ends the listing. */
  ghost predicate FirstStop(rem: Remote, n: nat) {
    PageStops(rem.listPage(n)) && forall k: nat :: k < n ==> !PageStops(rem.listPage(k))
  }

  lemma {:induction false} FirstStopExists(rem: Remote, n: nat)
    requires PageStops(rem.listPage(n))
    ensures exists m: nat :: m <= n && FirstStop(rem, m)
    decreases n
  {
    if !FirstStop(rem, n) {
      var k: nat :| k < n && PageStops(rem.listPage(k));
      FirstStopExists(rem, k);
    }
  }

  /** The index of the last page requested. */
  ghost function LastPage(rem: Remote): (n: nat)
    requires Paginates(rem)
    ensures FirstStop(rem, n)
  {
    var n0: nat :| PageStops(rem.listPage(n0));
    FirstStopExists(rem, n0);
    var n: nat :| FirstStop(rem, n);
    n
  }

  /** The comments a page answer carries (none when the call threw). */
  function PageData(answer: Result<seq<Comment>>): seq<Comment> {
    match answer
    case Success(cs) => cs
    case Failure(_) => []
  }

  /** Pages `0 .. n-1`, concatenated in order. */
  function Fetched(rem: Remote, n: nat): seq<Comment> {
    if n == 0 then [] else Fetched(rem, n - 1) + PageData(rem.listPage(n - 1))
  }

  /** The trace of requesting pages `0 .. n-1`: page `k` is the `k`-th request,
      always with 20 per page. */
  function PageRequests(issue: int, n: nat): (r: seq<Effect>)
    ensures |r| == n
    ensures forall k :: 0 <= k < n ==> r[k] == ListPage(issue, k, RequestedCommentsPerPage)
  {
    if n == 0 then [] else PageRequests(issue, n - 1) + [ListPage(issue, n - 1, RequestedCommentsPerPage)]
  }

  /** What `getExistingComments` resolves to: the error of the last page when that
      call threw, otherwise our comments among all pages fetched. */
  ghost function ExistingComments(rem: Remote, watermark: string): Result<seq<Comment>>
    requires Paginates(rem)
  {
    var n := LastPage(rem);
    match rem.listPage(n)
    case Failure(e) => Failure(e)
    case Success(_) => Success(Ours(Fetched(rem, n + 1), watermark))
  }

  /** Pages 0, 1 and 2 answer with 20, 20 and 7 comments: three pages are
      requested and 47 comments are collected before filtering. */
  lemma ThreePagesOfTwentyTwentySeven(rem: Remote)
    requires rem.listPage(0).Success? && |rem.listPage(0).value| == 20
    requires rem.listPage(1).Success? && |rem.listPage(1).value| == 20
    requires rem.listPage(2).Success? && |rem.listPage(2).value| == 7
    ensures Paginates(rem) && LastPage(rem) == 2
    ensures |Fetched(rem, LastPage(rem) + 1)| == 47
  {
    assert PageStops(rem.listPage(2));
    var n := LastPage(rem);
    assert !PageStops(rem.listPage(0)) && !PageStops(rem.listPage(1));
    assert n == 2;
    assert Fetched(rem, 1) == rem.listPage(0).value;
    assert Fetched(rem, 2) == rem.listPage(0).value + rem.listPage(1).value;
  }

  /** `getExistingComments`: request pages 0, 1, 2, ... until one is not full,
      concatenate them and keep our comments. */
  method GetExistingComments(rem: Remote, issue: int, watermark: string)
    returns (trace: seq<Effect>, r: Result<seq<Comment>>)
    requires Paginates(rem)
    ensures trace == PageRequests(issue, LastPage(rem) + 1)
    ensures r == ExistingComments(rem, watermark)
  {
    ghost var last := LastPage(rem);
    var page: nat := 0;
    var results: seq<Comment> := [];
    trace := [];
    while true
      invariant page <= last
      invariant results == Fetched(rem, page)
      invariant trace == PageRequests(issue, page)
      decreases last - page
    {
      var response := rem.listPage(page);
      trace := trace + [ListPage(issue, page, RequestedCommentsPerPage)];
      if response.Failure? {
        return trace, Failure(response.error);
      }
      results := results + response.value;
      page := page + 1;
      if |response.value| != RequestedCommentsPerPage {
        return trace, Success(Ours(results, watermark));
      }
    }
  }

  // ---------------------------------------------------------------------------
  // Deleting old comments

  /** The `k`-th delete call of the pass, on comment `c`: the call, then a
      warning naming the id if it threw. */
  function DeleteOne(c: Comment, k: nat, rem: Remote): seq<Effect> {
    [Delete(c.id)] +
    match rem.deleteReply(k)
    case Done => []
    case Failed(m) => [Warn(DeleteFailed(c.id, m))]
  }

  /** Deleting each comment in turn, the first one by delete call `from`. */
  function DeleteAll(cs: seq<Comment>, from: nat, rem: Remote): seq<Effect>
    decreases |cs|
  {
    if cs == [] then [] else DeleteOne(cs[0], from, rem) + DeleteAll(cs[1..], from + 1, rem)
  }

  lemma {:induction false} DeleteAllSnoc(cs: seq<Comment>, c: Comment, from: nat, rem: Remote)
    ensures DeleteAll(cs + [c], from, rem) == DeleteAll(cs, from, rem) + DeleteOne(c, from + |cs|, rem)
    decreases |cs|
  {
    if cs == [] {
      assert [c][1..] == [];
    } else {
      assert (cs + [c])[1..] == cs[1..] + [c];
      DeleteAllSnoc(cs[1..], c, from + 1, rem);
      SeqAssoc(DeleteOne(cs[0], from, rem), DeleteAll(cs[1..], from + 1, rem), DeleteOne(c, from + |cs|, rem));
    }
  }

  /** Deleting the first `i + 1` comments: the first `i`, then comment `i` by call `i`. */
  lemma DeletePrefixStep(cs: seq<Comment>, i: nat, rem: Remote)
    requires i < |cs|
    ensures DeleteAll(cs[..i + 1], 0, rem) == DeleteAll(cs[..i], 0, rem) + DeleteOne(cs[i], i, rem)
  {
    assert cs[..i + 1] == cs[..i] + [cs[i]];
    DeleteAllSnoc(cs[..i], cs[i], 0, rem);
  }

  /** The ids a trace deletes, in order. */
  function DeletedIds(t: seq<Effect>): seq<nat>
    decreases |t|
  {
    if t == [] then [] else (if t[0].Delete? then [t[0].id] else []) + DeletedIds(t[1..])
  }

  lemma {:induction false} DeletedIdsAppend(a: seq<Effect>, b: seq<Effect>)
    ensures DeletedIds(a + b) == DeletedIds(a) + DeletedIds(b)
    decreases |a|
  {
    if a == [] {
      assert a + b == b;
    } else {
      assert (a + b)[0] == a[0];
      assert (a + b)[1..] == a[1..] + b;
      DeletedIdsAppend(a[1..], b);
    }
  }

  function Ids(cs: seq<Comment>): (r: seq<nat>)
    ensures |r| == |cs| && forall i :: 0 <= i < |cs| ==> r[i] == cs[i].id
  {
    seq(|cs|, i requires 0 <= i < |cs| => cs[i].id)
  }

  /** The delete pass deletes every comment once, in order, and does nothing
      else but warn: a failed delete does not stop the ones after it. */
  lemma {:induction false} DeleteAllDeletesEachOnce(cs: seq<Comment>, from: nat, rem: Remote)
    ensures DeletedIds(DeleteAll(cs, from, rem)) == Ids(cs)
    ensures forall e :: e in DeleteAll(cs, from, rem) ==> e.Delete? || e.Warn?
    decreases |cs|
  {
    if cs != [] {
      DeleteAllDeletesEachOnce(cs[1..], from + 1, rem);
      var one := DeleteOne(cs[0], from, rem);
      DeletedIdsAppend(one, DeleteAll(cs[1..], from + 1, rem));
      assert DeletedIds(one) == [cs[0].id] by {
        if rem.deleteReply(from).Failed? {
          assert one[1..][1..] == [];
        }
        assert one[1..] == one[1..];
      }
      assert Ids(cs) == [cs[0].id] + Ids(cs[1..]);
    }
  }

  /** A failed delete of a comment adds exactly one warning, naming its id. */
  lemma FailedDeleteWarns(c: Comment, k: nat, rem: Remote)
    requires rem.deleteReply(k).Failed?
    ensures DeleteOne(c, k, rem) == [Delete(c.id), Warn(DeleteFailed(c.id, rem.deleteReply(k).message))]
  {
  }

  /** A comment listed twice is deleted twice, and each call has its own
      answer: the first can succeed and the second fail with a warning. */
  lemma RepeatedCommentDeletedTwice(c: Comment, rem: Remote, m: string)
    requires rem.deleteReply(0) == Done && rem.deleteReply(1) == Failed(m)
    ensures DeleteAll([c, c], 0, rem) == [Delete(c.id), Delete(c.id), Warn(DeleteFailed(c.id, m))]
  {
    assert [c, c][1..] == [c];
    assert [c][1..] == [];
    assert DeleteAll([c], 1, rem) == DeleteOne(c, 1, rem);
    assert DeleteOne(c, 0, rem) == [Delete(c.id)];
    assert DeleteOne(c, 1, rem) == [Delete(c.id), Warn(DeleteFailed(c.id, m))];
  }

  /** The whole delete pass: the paged listing, then one delete per comment found
      (none when the listing threw). */
  ghost function DeletePass(rem: Remote, issue: int, watermark: string): seq<Effect>
    requires Paginates(rem)
  {
    PageRequests(issue, LastPage(rem) + 1) +
    match ExistingComments(rem, watermark)
    case Failure(_) => []
    case Success(cs) => DeleteAll(cs, 0, rem)
  }

  /** `deleteOldComments`: list our comments, then delete each in turn, warning
      about a failed one and going on; a failed listing is passed on. */
  method DeleteOldComments(rem: Remote, issue: int, watermark: string)
    returns (trace: seq<Effect>, outcome: Reply)
    requires Paginates(rem)
    ensures trace == DeletePass(rem, issue, watermark)
    ensures outcome == match ExistingComments(rem, watermark)
                       case Failure(e) => Failed(e)
                       case Success(_) => Done
  {
    var existing;
    trace, existing := GetExistingComments(rem, issue, watermark);
    if existing.Failure? {
      return trace, Failed(existing.error);
    }
    var deletes := DeleteEach(existing.value, rem);
    trace := trace + deletes;
    outcome := Done;
  }

  /** The loop of `deleteOldComments`: delete each comment in turn, warning
      about a failed delete and going on with the next. */
  method DeleteEach(comments: seq<Comment>, rem: Remote) returns (trace: seq<Effect>)
    ensures trace == DeleteAll(comments, 0, rem)
  {
    trace := [];
    for i := 0 to |comments|
      invariant trace == DeleteAll(comments[..i], 0, rem)
    {
      var comment := comments[i];
      ghost var before := trace;
      trace := trace + [Delete(comment.id)];
      var reply := rem.deleteReply(i);
      if reply.Failed? {
        trace := trace + [Warn(DeleteFailed(comment.id, reply.message))];
      }
      assert trace == before + DeleteOne(comment, i, rem);
      DeletePrefixStep(comments, i, rem);
    }
    assert comments[..|comments|] == comments;
  }

  // ---------------------------------------------------------------------------
  // The oversize warning

  const TooLongLine := "Your comment is too long (maximum is " + Decimal(MaxCommentLength) + " characters), coverage report will not be added."
  const TryLine := "Try one/some of the following:"
  const AddPrefix := "- Add \""

  /** A hint to turn on an option: `- Add "<option>: true" - to <purpose>`. */
  function OptionHint(option: string, purpose: string): string {
    AddPrefix + option + ": true\" - to " + purpose
  }

  /** The coverage reporter setting the first hint suggests. */
  const SkipFullReporter := "['text-summary', { skipFull: true }]"
  const SkipFullLine := AddPrefix + SkipFullReporter + "\" - to remove fully covered files from report"
  const HideSummaryLine := OptionHint("hide-summary", "remove the summary report")
  const ChangedFilesHint := OptionHint("report-only-changed-files", "report only changed files and not all files")
  const LinksToFilesHint := OptionHint("remove-links-to-files", "remove links to files")
  const LinksToLinesHint := OptionHint("remove-links-to-lines", "remove links to lines")

  /** The lines of the oversize warning: four fixed lines, then one hint per
      option that would shorten the body and is off. */
  function OversizeLines(o: Options): seq<string> {
    [TooLongLine, TryLine, SkipFullLine, HideSummaryLine]
    + (if !o.reportOnlyChangedFiles then [ChangedFilesHint] else [])
    + (if !o.removeLinksToFiles then [LinksToFilesHint] else [])
    + (if !o.removeLinksToLines then [LinksToLinesHint] else [])
  }

  /** The warning has the four fixed lines first, then one line per hint. */
  lemma OversizeLinesFixed(o: Options)
    ensures OversizeLines(o)[..4] == [TooLongLine, TryLine, SkipFullLine, HideSummaryLine]
    ensures |OversizeLines(o)| == 4 + (if o.reportOnlyChangedFiles then 0 else 1)
                                   + (if o.removeLinksToFiles then 0 else 1)
                                   + (if o.removeLinksToLines then 0 else 1)
  {
    var fixed := [TooLongLine, TryLine, SkipFullLine, HideSummaryLine];
    var hints := (if !o.reportOnlyChangedFiles then [ChangedFilesHint] else [])
      + (if !o.removeLinksToFiles then [LinksToFilesHint] else [])
      + (if !o.removeLinksToLines then [LinksToLinesHint] else []);
    assert OversizeLines(o) == fixed + hints;
    assert (fixed + hints)[..4] == fixed;
  }

  /** The fixed lines are none of the hints. */
  lemma FixedLinesAreNotHints(line: string)
    requires line in [TooLongLine, TryLine, SkipFullLine, HideSummaryLine]
    ensures line != ChangedFilesHint && line != LinksToFilesHint && line != LinksToLinesHint
  {
    assert TryLine[0] == 'T' && TooLongLine[0] == 'Y';
    assert ChangedFilesHint[0] == '-' && LinksToFilesHint[0] == '-' && LinksToLinesHint[0] == '-';
    assert SkipFullLine[7] == '[' && HideSummaryLine[7] == 'h';
    assert ChangedFilesHint[7] == 'r' && LinksToFilesHint[7] == 'r' && LinksToLinesHint[7] == 'r';
  }

  /** Each hint is in the warning exactly when its option is off. */
  lemma OversizeLinesHints(o: Options)
    ensures ChangedFilesHint in OversizeLines(o) <==> !o.reportOnlyChangedFiles
    ensures LinksToFilesHint in OversizeLines(o) <==> !o.removeLinksToFiles
    ensures LinksToLinesHint in OversizeLines(o) <==> !o.removeLinksToLines
  {
    assert ChangedFilesHint[9] == 'p' && LinksToFilesHint[9] == 'm' && LinksToLinesHint[9] == 'm';
    assert LinksToFilesHint[23] == 'f' && LinksToLinesHint[23] == 'l';
    forall line | line in [TooLongLine, TryLine, SkipFullLine, HideSummaryLine]
      ensures line != ChangedFilesHint && line != LinksToFilesHint && line != LinksToLinesHint
    {
      FixedLinesAreNotHints(line);
    }
  }

  /** The warning logged before publishing a body longer than the maximum. */
  function SizeGuard(o: Options, body: string): seq<Effect> {
    if |body| > MaxCommentLength then [Warn(CommentTooLong(OversizeLines(o)))] else []
  }

  // ---------------------------------------------------------------------------
  // Publishing

  predicate IsPullRequestEvent(eventName: string) {
    eventName == "pull_request" || eventName == "pull_request_target"
  }

  /** The paged listing runs only for delete-then-create on a pull request. */
  predicate NeedsPaging(o: Options, ctx: Context) {
    IsPullRequestEvent(ctx.eventName) && o.createNewComment && o.deleteOldComments
  }

  /** The number of the pull request of the payload, or 0 without one. */
  function IssueNumber(ctx: Context): int {
    match ctx.payload.pullRequest
    case Some(pr) => pr.number
    case None => 0
  }

  /** A call that threw is caught and its message logged as an error. */
  function Caught(reply: Reply): seq<Effect> {
    match reply
    case Done => []
    case Failed(m) => [Error(m)]
  }

  /** Creating a comment on the pull request, with its error if it threw. */
  function CreateOnIssue(issue: int, body: string, rem: Remote): seq<Effect> {
    [Create(issue, body)] + Caught(rem.createReply)
  }

  /** On `push`: a commit comment on the commit of the options. */
  function PushTrace(o: Options, body: string, rem: Remote): seq<Effect> {
    [CreateCommit(o.commit, body)] + Caught(rem.commitCommentReply)
  }

  /** On a pull request with `createNewComment`: the optional delete pass,
      then a new comment unless the listing of the delete pass threw. */
  ghost function NewCommentTrace(o: Options, body: string, ctx: Context, rem: Remote): seq<Effect>
    requires o.deleteOldComments ==> Paginates(rem)
  {
    if o.deleteOldComments then
      DeletePass(rem, ctx.issueNumber, o.watermark) +
      match ExistingComments(rem, o.watermark)
      case Failure(e) => [Error(e)]
      case Success(_) => CreateOnIssue(IssueNumber(ctx), body, rem)
    else CreateOnIssue(IssueNumber(ctx), body, rem)
  }

  /** On a pull request without `createNewComment`: list once, then update the
      first comment that is ours or create one. */
  function UpdateModeTrace(o: Options, body: string, ctx: Context, rem: Remote): seq<Effect> {
    [ListDefault(IssueNumber(ctx))] +
    match rem.listDefault
    case Failure(e) => [Error(e)]
    case Success(cs) =>
      match FindOurs(cs, o.watermark)
      case Some(c) => [Update(c.id, body)] + Caught(rem.updateReply)
      case None => CreateOnIssue(IssueNumber(ctx), body, rem)
  }

  /** Any other event: only a warning, unless the comment is hidden. */
  function OtherEventTrace(o: Options, ctx: Context): seq<Effect> {
    if o.hideComment then [] else [Warn(UnsupportedEvent(ctx.eventName))]
  }

  /** What `createComment` does after the size check, by event and options. */
  ghost function Dispatch(o: Options, body: string, ctx: Context, rem: Remote): seq<Effect>
    requires NeedsPaging(o, ctx) ==> Paginates(rem)
  {
    if ctx.eventName == "push" then PushTrace(o, body, rem)
    else if IsPullRequestEvent(ctx.eventName) then
      if o.createNewComment then NewCommentTrace(o, body, ctx, rem)
      else UpdateModeTrace(o, body, ctx, rem)
    else OtherEventTrace(o, ctx)
  }

  /** Everything `createComment` does: the size warning, then the dispatch. */
  ghost function Publish(o: Options, body: string, ctx: Context, rem: Remote): seq<Effect>
    requires NeedsPaging(o, ctx) ==> Paginates(rem)
  {
    SizeGuard(o, body) + Dispatch(o, body, ctx, rem)
  }

  /** `createComment`: warn about an oversize body, then publish according to the
      event and the options; any call that throws is caught and logged. */
  method CreateComment(o: Options, body: string, ctx: Context, rem: Remote) returns (trace: seq<Effect>)
    requires NeedsPaging(o, ctx) ==> Paginates(rem)
    ensures trace == Publish(o, body, ctx, rem)
  {
    trace := [];
    if |body| > MaxCommentLength {
      var warnings := [TooLongLine, TryLine, SkipFullLine, HideSummaryLine];
      if !o.reportOnlyChangedFiles {
        warnings := warnings + [ChangedFilesHint];
      }
      if !o.removeLinksToFiles {
        warnings := warnings + [LinksToFilesHint];
      }
      if !o.removeLinksToLines {
        warnings := warnings + [LinksToLinesHint];
      }
      assert warnings == OversizeLines(o);
      trace := trace + [Warn(CommentTooLong(warnings))];
    }
    assert trace == SizeGuard(o, body);

    if ctx.eventName == "push" {
      trace := trace + [CreateCommit(o.commit, body)];
      trace := trace + Caught(rem.commitCommentReply);
    } else if IsPullRequestEvent(ctx.eventName) {
      var effects := CommentOnPullRequest(o, body, ctx, rem);
      trace := trace + effects;
    } else if !o.hideComment {
      trace := trace + [Warn(UnsupportedEvent(ctx.eventName))];
    }
  }

  /** The pull-request branch of `createComment`: delete-then-create when
      `createNewComment` is set, update-in-place otherwise. */
  method CommentOnPullRequest(o: Options, body: string, ctx: Context, rem: Remote) returns (trace: seq<Effect>)
    requires IsPullRequestEvent(ctx.eventName)
    requires o.createNewComment && o.deleteOldComments ==> Paginates(rem)
    ensures o.createNewComment ==> trace == NewCommentTrace(o, body, ctx, rem)
    ensures !o.createNewComment ==> trace == UpdateModeTrace(o, body, ctx, rem)
  {
    if o.createNewComment {
      trace := CreateNewComment(o, body, ctx, rem);
    } else {
      trace := UpdateOrCreate(o, body, ctx, rem);
    }
  }

  /** With `createNewComment`: the optional delete pass, then a new comment. */
  method CreateNewComment(o: Options, body: string, ctx: Context, rem: Remote) returns (trace: seq<Effect>)
    requires o.deleteOldComments ==> Paginates(rem)
    ensures trace == NewCommentTrace(o, body, ctx, rem)
  {
    var issue := IssueNumber(ctx);
    trace := [];
    if o.deleteOldComments {
      var deletes, outcome := DeleteOldComments(rem, ctx.issueNumber, o.watermark);
      trace := trace + deletes;
      if outcome.Failed? {
        trace := trace + [Error(outcome.message)];
        return;
      }
      assert trace == DeletePass(rem, ctx.issueNumber, o.watermark);
    }
    trace := trace + [Create(issue, body)];
    trace := trace + Caught(rem.createReply);
  }

  /** Without `createNewComment`: list once, then update the first comment
      that is ours, or create one when there is none. */
  method UpdateOrCreate(o: Options, body: string, ctx: Context, rem: Remote) returns (trace: seq<Effect>)
    ensures trace == UpdateModeTrace(o, body, ctx, rem)
  {
    var issue := IssueNumber(ctx);
    trace := [ListDefault(issue)];
    var listed := rem.listDefault;
    if listed.Failure? {
      trace := trace + [Error(listed.error)];
      return;
    }
    var comment := FindOurs(listed.value, o.watermark);
    if comment.Some? {
      trace := trace + [Update(comment.value.id, body)];
      trace := trace + Caught(rem.updateReply);
    } else {
      trace := trace + [Create(issue, body)];
      trace := trace + Caught(rem.createReply);
    }
  }

  // ---------------------------------------------------------------------------
  // Properties of publishing

  /** The number of effects of a trace that satisfy `p`. */
  function CountOf(t: seq<Effect>, p: Effect -> bool): nat
    decreases |t|
  {
    if t == [] then 0 else (if p(t[0]) then 1 else 0) + CountOf(t[1..], p)
  }

  lemma {:induction false} CountOfAppend(a: seq<Effect>, b: seq<Effect>, p: Effect -> bool)
    ensures CountOf(a + b, p) == CountOf(a, p) + CountOf(b, p)
    decreases |a|
  {
    if a == [] {
      assert a + b == b;
    } else {
      assert (a + b)[0] == a[0];
      assert (a + b)[1..] == a[1..] + b;
      CountOfAppend(a[1..], b, p);
    }
  }

  lemma {:induction false} CountOfNone(t: seq<Effect>, p: Effect -> bool)
    requires forall e :: e in t ==> !p(e)
    ensures CountOf(t, p) == 0
    decreases |t|
  {
    if t != [] {
      assert t[0] in t;
      assert forall e :: e in t[1..] ==> e in t;
      CountOfNone(t[1..], p);
    }
  }

  /** A call that changes the comments of the issue or commit. */
  predicate IsPost(e: Effect) {
    e.Create? || e.Update? || e.CreateCommit?
  }

  predicate IsCreate(e: Effect) {
    e.Create?
  }

  /** A call to the remote, as opposed to a logged warning or error. */
  predicate IsRemoteCall(e: Effect) {
    !(e.Warn? || e.Error?)
  }

  /** The delete pass only lists, deletes and warns. */
  lemma DeletePassOnlyListsAndDeletes(rem: Remote, issue: int, watermark: string)
    requires Paginates(rem)
    ensures forall e :: e in DeletePass(rem, issue, watermark) ==> e.ListPage? || e.Delete? || e.Warn?
  {
    var requests := PageRequests(issue, LastPage(rem) + 1);
    assert forall e :: e in requests ==> e.ListPage?;
    match ExistingComments(rem, watermark)
    case Failure(_) =>
    case Success(cs) => DeleteAllDeletesEachOnce(cs, 0, rem);
  }

  lemma CaughtPostsNothing(r: Reply)
    ensures CountOf(Caught(r), IsPost) == 0 && CountOf(Caught(r), IsCreate) == 0
    ensures DeletedIds(Caught(r)) == []
  {
    if r.Failed? {
      assert Caught(r)[1..] == [];
    }
  }

  lemma SizeGuardPostsNothing(o: Options, body: string)
    ensures CountOf(SizeGuard(o, body), IsPost) == 0 && CountOf(SizeGuard(o, body), IsCreate) == 0
    ensures DeletedIds(SizeGuard(o, body)) == []
    ensures forall e :: e in SizeGuard(o, body) ==> e.Warn?
  {
    if |body| > MaxCommentLength {
      assert SizeGuard(o, body)[1..] == [];
    }
  }

  lemma CreateOnIssueCreatesOnce(issue: int, body: string, rem: Remote)
    ensures CountOf(CreateOnIssue(issue, body, rem), IsPost) == 1
    ensures CountOf(CreateOnIssue(issue, body, rem), IsCreate) == 1
    ensures DeletedIds(CreateOnIssue(issue, body, rem)) == []
  {
    CaughtPostsNothing(rem.createReply);
    CountOfAppend([Create(issue, body)], Caught(rem.createReply), IsPost);
    CountOfAppend([Create(issue, body)], Caught(rem.createReply), IsCreate);
    DeletedIdsAppend([Create(issue, body)], Caught(rem.createReply));
  }

  /** On `push`: one commit comment on the commit of the options, with the body;
      no listing, update, delete or issue comment. */
  lemma PushCreatesOnlyCommitComment(o: Options, body: string, ctx: Context, rem: Remote)
    requires ctx.eventName == "push"
    ensures Publish(o, body, ctx, rem) == SizeGuard(o, body) + [CreateCommit(o.commit, body)] + Caught(rem.commitCommentReply)
    ensures CountOf(Publish(o, body, ctx, rem), IsPost) == 1
    ensures forall e :: e in Publish(o, body, ctx, rem) && IsRemoteCall(e) ==> e == CreateCommit(o.commit, body)
  {
    SizeGuardPostsNothing(o, body);
    CaughtPostsNothing(rem.commitCommentReply);
    CountOfAppend(SizeGuard(o, body), PushTrace(o, body, rem), IsPost);
    CountOfAppend([CreateCommit(o.commit, body)], Caught(rem.commitCommentReply), IsPost);
  }

  /** On a pull request with `createNewComment` and `deleteOldComments`: the delete
      pass comes first, then one comment is created on the pull request ... */
  lemma DeleteThenCreate(o: Options, body: string, ctx: Context, rem: Remote)
    requires IsPullRequestEvent(ctx.eventName) && o.createNewComment && o.deleteOldComments
    requires Paginates(rem) && ExistingComments(rem, o.watermark).Success?
    ensures Publish(o, body, ctx, rem) == SizeGuard(o, body) + DeletePass(rem, ctx.issueNumber, o.watermark)
                                         + [Create(IssueNumber(ctx), body)] + Caught(rem.createReply)
  {
    var guard := SizeGuard(o, body);
    var pass := DeletePass(rem, ctx.issueNumber, o.watermark);
    var create := [Create(IssueNumber(ctx), body)];
    var caught := Caught(rem.createReply);
    calc {
      Publish(o, body, ctx, rem);
      == { DeleteThenCreateShape(o, body, ctx, rem); }
      guard + (pass + (create + caught));
      == { SeqAssoc(pass, create, caught); }
      guard + ((pass + create) + caught);
      == { SeqAssoc(guard, pass + create, caught); }
      (guard + (pass + create)) + caught;
      == { SeqAssoc(guard, pass, create); }
      ((guard + pass) + create) + caught;
    }
  }

  /** ... and the comments deleted are exactly the comments found, in order ... */
  lemma DeleteThenCreateDeletesFound(o: Options, body: string, ctx: Context, rem: Remote)
    requires IsPullRequestEvent(ctx.eventName) && o.createNewComment && o.deleteOldComments
    requires Paginates(rem) && ExistingComments(rem, o.watermark).Success?
    ensures DeletedIds(Publish(o, body, ctx, rem)) == Ids(ExistingComments(rem, o.watermark).value)
  {
    var guard := SizeGuard(o, body);
    var pass := DeletePass(rem, ctx.issueNumber, o.watermark);
    var tail := CreateOnIssue(IssueNumber(ctx), body, rem);
    SizeGuardPostsNothing(o, body);
    CreateOnIssueCreatesOnce(IssueNumber(ctx), body, rem);
    DeletePassCreatesNothing(rem, ctx.issueNumber, o.watermark);
    calc {
      DeletedIds(Publish(o, body, ctx, rem));
      == { DeleteThenCreateShape(o, body, ctx, rem); }
      DeletedIds(guard + (pass + tail));
      == { DeletedIdsAppend(guard, pass + tail); }
      DeletedIds(guard) + DeletedIds(pass + tail);
      == { DeletedIdsAppend(pass, tail); }
      DeletedIds(guard) + (DeletedIds(pass) + DeletedIds(tail));
      Ids(ExistingComments(rem, o.watermark).value);
    }
  }

  /** ... and exactly one comment is created. */
  lemma DeleteThenCreateCreatesOnce(o: Options, body: string, ctx: Context, rem: Remote)
    requires IsPullRequestEvent(ctx.eventName) && o.createNewComment && o.deleteOldComments
    requires Paginates(rem) && ExistingComments(rem, o.watermark).Success?
    ensures CountOf(Publish(o, body, ctx, rem), IsCreate) == 1
  {
    var guard := SizeGuard(o, body);
    var pass := DeletePass(rem, ctx.issueNumber, o.watermark);
    var tail := CreateOnIssue(IssueNumber(ctx), body, rem);
    SizeGuardPostsNothing(o, body);
    CreateOnIssueCreatesOnce(IssueNumber(ctx), body, rem);
    DeletePassCreatesNothing(rem, ctx.issueNumber, o.watermark);
    calc {
      CountOf(Publish(o, body, ctx, rem), IsCreate);
      == { DeleteThenCreateShape(o, body, ctx, rem); }
      CountOf(guard + (pass + tail), IsCreate);
      == { CountOfAppend(guard, pass + tail, IsCreate); }
      CountOf(guard, IsCreate) + CountOf(pass + tail, IsCreate);
      == { CountOfAppend(pass, tail, IsCreate); }
      CountOf(guard, IsCreate) + (CountOf(pass, IsCreate) + CountOf(tail, IsCreate));
      1;
    }
  }

  lemma DeleteThenCreateShape(o: Options, body: string, ctx: Context, rem: Remote)
    requires IsPullRequestEvent(ctx.eventName) && o.createNewComment && o.deleteOldComments
    requires Paginates(rem) && ExistingComments(rem, o.watermark).Success?
    ensures Publish(o, body, ctx, rem) == SizeGuard(o, body) + (DeletePass(rem, ctx.issueNumber, o.watermark)
                                         + CreateOnIssue(IssueNumber(ctx), body, rem))
  {
  }

  /** A successful delete pass deletes exactly the comments found, in order,
      and creates nothing. */
  lemma DeletePassCreatesNothing(rem: Remote, issue: int, watermark: string)
    requires Paginates(rem) && ExistingComments(rem, watermark).Success?
    ensures DeletedIds(DeletePass(rem, issue, watermark)) == Ids(ExistingComments(rem, watermark).value)
    ensures CountOf(DeletePass(rem, issue, watermark), IsCreate) == 0
  {
    var cs := ExistingComments(rem, watermark).value;
    var requests := PageRequests(issue, LastPage(rem) + 1);
    DeletePassOnlyListsAndDeletes(rem, issue, watermark);
    CountOfNone(DeletePass(rem, issue, watermark), IsCreate);
    DeletedIdsNone(requests);
    DeletedIdsAppend(requests, DeleteAll(cs, 0, rem));
    DeleteAllDeletesEachOnce(cs, 0, rem);
  }

  /** On a pull request with `createNewComment` but not `deleteOldComments`:
      only one comment is created on the pull request. */
  lemma CreateWithoutDelete(o: Options, body: string, ctx: Context, rem: Remote)
    requires IsPullRequestEvent(ctx.eventName) && o.createNewComment && !o.deleteOldComments
    ensures Publish(o, body, ctx, rem) == SizeGuard(o, body) + [Create(IssueNumber(ctx), body)] + Caught(rem.createReply)
    ensures forall e :: e in Publish(o, body, ctx, rem) && IsRemoteCall(e) ==> e == Create(IssueNumber(ctx), body)
  {
  }

  lemma {:induction false} DeletedIdsNone(t: seq<Effect>)
    requires forall k :: 0 <= k < |t| ==> !t[k].Delete?
    ensures DeletedIds(t) == []
    decreases |t|
  {
    if t != [] {
      DeletedIdsNone(t[1..]);
    }
  }

  /** On a pull request without `createNewComment`: one listing without paging;
      the first comment that is ours is updated and nothing is created, and only
      when there is none is one comment created. */
  lemma UpdateModeUpdatesFirstOurs(o: Options, body: string, ctx: Context, rem: Remote, cs: seq<Comment>)
    requires IsPullRequestEvent(ctx.eventName) && !o.createNewComment
    requires rem.listDefault == Success(cs)
    ensures Ours(cs, o.watermark) != [] ==>
      Publish(o, body, ctx, rem) == SizeGuard(o, body) + [ListDefault(IssueNumber(ctx)), Update(Ours(cs, o.watermark)[0].id, body)] + Caught(rem.updateReply)
    ensures Ours(cs, o.watermark) == [] ==>
      Publish(o, body, ctx, rem) == SizeGuard(o, body) + [ListDefault(IssueNumber(ctx)), Create(IssueNumber(ctx), body)] + Caught(rem.createReply)
  {
    FindOursIsFirstOurs(cs, o.watermark);
    var guard := SizeGuard(o, body);
    var list := ListDefault(IssueNumber(ctx));
    assert Publish(o, body, ctx, rem) == guard + UpdateModeTrace(o, body, ctx, rem);
    if Ours(cs, o.watermark) != [] {
      var update := Update(Ours(cs, o.watermark)[0].id, body);
      calc {
        UpdateModeTrace(o, body, ctx, rem);
        [list] + ([update] + Caught(rem.updateReply));
        == { TwoThen(list, update, Caught(rem.updateReply)); }
        [list, update] + Caught(rem.updateReply);
      }
      SeqAssoc(guard, [list, update], Caught(rem.updateReply));
    } else {
      var create := Create(IssueNumber(ctx), body);
      calc {
        UpdateModeTrace(o, body, ctx, rem);
        [list] + ([create] + Caught(rem.createReply));
        == { TwoThen(list, create, Caught(rem.createReply)); }
        [list, create] + Caught(rem.createReply);
      }
      SeqAssoc(guard, [list, create], Caught(rem.createReply));
    }
  }

  lemma {:induction false} OursNone(cs: seq<Comment>, watermark: string)
    requires forall j :: 0 <= j < |cs| ==> !IsOurs(cs[j], watermark)
    ensures Ours(cs, watermark) == []
    decreases |cs|
  {
    if cs != [] {
      OursNone(cs[1..], watermark);
    }
  }

  /** Exactly one comment of `cs`, the one at `i`, is ours. */
  lemma OnlyOurs(cs: seq<Comment>, watermark: string, i: nat)
    requires i < |cs| && IsOurs(cs[i], watermark)
    requires forall j :: 0 <= j < |cs| && j != i ==> !IsOurs(cs[j], watermark)
    ensures Ours(cs, watermark) == [cs[i]]
  {
    assert cs == cs[..i] + [cs[i]] + cs[i + 1..];
    OursAppend(cs[..i] + [cs[i]], cs[i + 1..], watermark);
    OursAppend(cs[..i], [cs[i]], watermark);
    OursNone(cs[..i], watermark);
    OursNone(cs[i + 1..], watermark);
    assert [cs[i]][1..] == [];
  }

  /** One comment of ours among others on the pull request: exactly one update,
      of that comment, and no create. */
  lemma UpdateModeSingleOursComment(o: Options, body: string, ctx: Context, rem: Remote, cs: seq<Comment>, i: nat)
    requires IsPullRequestEvent(ctx.eventName) && !o.createNewComment
    requires rem.listDefault == Success(cs)
    requires i < |cs| && IsOurs(cs[i], o.watermark)
    requires forall j :: 0 <= j < |cs| && j != i ==> !IsOurs(cs[j], o.watermark)
    ensures Update(cs[i].id, body) in Publish(o, body, ctx, rem)
    ensures CountOf(Publish(o, body, ctx, rem), IsPost) == 1
    ensures CountOf(Publish(o, body, ctx, rem), IsCreate) == 0
  {
    OnlyOurs(cs, o.watermark, i);
    UpdateModeUpdatesFirstOurs(o, body, ctx, rem, cs);
    var guard := SizeGuard(o, body);
    var mid := [ListDefault(IssueNumber(ctx)), Update(cs[i].id, body)];
    var caught := Caught(rem.updateReply);
    assert Publish(o, body, ctx, rem) == guard + mid + caught;
    assert mid[1] == Update(cs[i].id, body);
    SizeGuardPostsNothing(o, body);
    CaughtPostsNothing(rem.updateReply);
    ListThenUpdateCounts(IssueNumber(ctx), cs[i].id, body);
    CountOfAppend(guard + mid, caught, IsPost);
    CountOfAppend(guard, mid, IsPost);
    CountOfAppend(guard + mid, caught, IsCreate);
    CountOfAppend(guard, mid, IsCreate);
  }

  /** Listing then updating posts once and creates nothing. */
  lemma ListThenUpdateCounts(issue: int, id: nat, body: string)
    ensures CountOf([ListDefault(issue), Update(id, body)], IsPost) == 1
    ensures CountOf([ListDefault(issue), Update(id, body)], IsCreate) == 0
  {
    var list := [ListDefault(issue)];
    var update := [Update(id, body)];
    assert [ListDefault(issue), Update(id, body)] == list + update;
    assert list[1..] == [] && update[1..] == [];
    CountOfAppend(list, update, IsPost);
    CountOfAppend(list, update, IsCreate);
  }

  /** Any other event calls nothing; it warns that the event is unsupported
      unless the comment is hidden. */
  lemma OtherEventsCallNothing(o: Options, body: string, ctx: Context, rem: Remote)
    requires ctx.eventName != "push" && !IsPullRequestEvent(ctx.eventName)
    ensures Publish(o, body, ctx, rem) == SizeGuard(o, body) + (if o.hideComment then [] else [Warn(UnsupportedEvent(ctx.eventName))])
    ensures forall e :: e in Publish(o, body, ctx, rem) ==> e.Warn?
  {
    SizeGuardPostsNothing(o, body);
  }

  /** The oversize warning comes first exactly when the body is longer than
      65536 characters, and publishing goes on as for any other body. */
  lemma OversizeOnlyWarns(o: Options, body: string, ctx: Context, rem: Remote)
    requires NeedsPaging(o, ctx) ==> Paginates(rem)
    ensures |body| > MaxCommentLength ==>
      Publish(o, body, ctx, rem) == [Warn(CommentTooLong(OversizeLines(o)))] + Dispatch(o, body, ctx, rem)
    ensures |body| <= MaxCommentLength ==> Publish(o, body, ctx, rem) == Dispatch(o, body, ctx, rem)
  {
  }

  lemma NewCommentPostsOnce(o: Options, body: string, ctx: Context, rem: Remote)
    requires o.deleteOldComments ==> Paginates(rem)
    ensures CountOf(NewCommentTrace(o, body, ctx, rem), IsPost) <= 1
  {
    var tail := CreateOnIssue(IssueNumber(ctx), body, rem);
    CreateOnIssueCreatesOnce(IssueNumber(ctx), body, rem);
    if o.deleteOldComments {
      var pass := DeletePass(rem, ctx.issueNumber, o.watermark);
      DeletePassOnlyListsAndDeletes(rem, ctx.issueNumber, o.watermark);
      CountOfNone(pass, IsPost);
      match ExistingComments(rem, o.watermark)
      case Failure(e) =>
        CountOfAppend(pass, [Error(e)], IsPost);
      case Success(_) =>
        CountOfAppend(pass, tail, IsPost);
    }
  }

  lemma UpdateModePostsOnce(o: Options, body: string, ctx: Context, rem: Remote)
    ensures CountOf(UpdateModeTrace(o, body, ctx, rem), IsPost) <= 1
  {
    var t := UpdateModeTrace(o, body, ctx, rem);
    var rest := t[1..];
    assert t == [ListDefault(IssueNumber(ctx))] + rest;
    CountOfAppend([ListDefault(IssueNumber(ctx))], rest, IsPost);
    CaughtPostsNothing(rem.updateReply);
    CreateOnIssueCreatesOnce(IssueNumber(ctx), body, rem);
    match rem.listDefault
    case Failure(e) =>
    case Success(cs) =>
      match FindOurs(cs, o.watermark)
      case Some(c) => CountOfAppend([Update(c.id, body)], Caught(rem.updateReply), IsPost);
      case None =>
  }

  lemma DispatchPostsOnce(o: Options, body: string, ctx: Context, rem: Remote)
    requires NeedsPaging(o, ctx) ==> Paginates(rem)
    ensures CountOf(Dispatch(o, body, ctx, rem), IsPost) <= 1
  {
    if ctx.eventName == "push" {
      CaughtPostsNothing(rem.commitCommentReply);
      CountOfAppend([CreateCommit(o.commit, body)], Caught(rem.commitCommentReply), IsPost);
    } else if IsPullRequestEvent(ctx.eventName) {
      if o.createNewComment {
        NewCommentPostsOnce(o, body, ctx, rem);
      } else {
        UpdateModePostsOnce(o, body, ctx, rem);
      }
    } else {
      CountOfNone(OtherEventTrace(o, ctx), IsPost);
    }
  }

  /** At most one comment is created, updated or commit-commented per run. */
  lemma AtMostOnePost(o: Options, body: string, ctx: Context, rem: Remote)
    requires NeedsPaging(o, ctx) ==> Paginates(rem)
    ensures CountOf(Publish(o, body, ctx, rem), IsPost) <= 1
  {
    SizeGuardPostsNothing(o, body);
    DispatchPostsOnce(o, body, ctx, rem);
    CountOfAppend(SizeGuard(o, body), Dispatch(o, body, ctx, rem), IsPost);
  }

  /** No effect after a logged error. */
  predicate ErrorIsLast(t: seq<Effect>) {
    forall i :: 0 <= i < |t| && t[i].Error? ==> i == |t| - 1
  }

  lemma ErrorIsLastAppend(a: seq<Effect>, b: seq<Effect>)
    requires forall e :: e in a ==> !e.Error?
    requires ErrorIsLast(b)
    ensures ErrorIsLast(a + b)
  {
    forall i | 0 <= i < |a| ensures !(a + b)[i].Error? {
      assert (a + b)[i] == a[i] && a[i] in a;
    }
    forall i | |a| <= i < |a + b| ensures (a + b)[i] == b[i - |a|] {
    }
  }

  /** A caught error ends the run: nothing follows a logged error. */
  lemma ErrorEndsRun(o: Options, body: string, ctx: Context, rem: Remote)
    requires NeedsPaging(o, ctx) ==> Paginates(rem)
    ensures ErrorIsLast(Publish(o, body, ctx, rem))
  {
    SizeGuardPostsNothing(o, body);
    var d := Dispatch(o, body, ctx, rem);
    if NeedsPaging(o, ctx) {
      var pass := DeletePass(rem, ctx.issueNumber, o.watermark);
      DeletePassOnlyListsAndDeletes(rem, ctx.issueNumber, o.watermark);
      match ExistingComments(rem, o.watermark)
      case Failure(e) =>
        ErrorIsLastAppend(pass, [Error(e)]);
      case Success(_) =>
        ErrorIsLastAppend(pass, CreateOnIssue(IssueNumber(ctx), body, rem));
    } else if IsPullRequestEvent(ctx.eventName) && !o.createNewComment {
      var rest := d[1..];
      assert d == [ListDefault(IssueNumber(ctx))] + rest;
      assert ErrorIsLast(rest);
      ErrorIsLastAppend([ListDefault(IssueNumber(ctx))], rest);
    }
    assert ErrorIsLast(d);
    ErrorIsLastAppend(SizeGuard(o, body), d);
  }
}
