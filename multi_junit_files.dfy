/** The report over several JUnit files (src/multi-junit-files.ts): one table
    row per file that parses, and the counters of those files added up, except
    `succeeded`, which is the last parsed file's.

    Splitting a `title|file` line, reading and parsing a JUnit file and
    rendering a row are parameters: `parseLine`, `readJunit` and `renderRow`. */
module MultiJunit {
  import opened Wrappers
  import opened Text
  import opened Types

  /** What reading and parsing one JUnit file gives: its counters, nothing
      (`parseJunit` returned no report), or an exception with its message. */
  datatype FileOutcome = Parsed(junit: Junit) | NotParsed | Raised(message: string)

  /** The report, or none, and the errors logged on the way. */
  datatype MultiJunitOutcome = MultiJunitOutcome(report: Option<JunitReport>, errors: seq<string>)

  const NoFilesError := "Generating report for multiple JUnit files. No files are provided"
  const RaisedErrorPrefix := "Generating summary report for multiple JUnit files. "
  const HeaderRowRest := " Title | Tests | Skipped | Failures | Errors | Time |\n"
  const HeaderRow := "|" + HeaderRowRest
  const SeparatorRow := "| --- | --- | --- | --- | --- | --- |\n"

  const Zero := Junit(0, 0, 0, 0, 0, 0.0)

  // ---------------------------------------------------------------------------
  // The lines

  /** `multipleJunitFiles.map(parseLine).filter(notNull)`. */
  function Lines(files: seq<string>, parseLine: string -> Option<MultipleFilesLine>): seq<MultipleFilesLine>
    decreases |files|
  {
    if files == [] then []
    else (match parseLine(files[0]) case Some(l) => [l] case None => []) + Lines(files[1..], parseLine)
  }

  /** No line is left exactly when every input fails to split. */
  lemma {:induction false} LinesEmpty(files: seq<string>, parseLine: string -> Option<MultipleFilesLine>)
    ensures Lines(files, parseLine) == [] <==> forall k :: 0 <= k < |files| ==> parseLine(files[k]).None?
    decreases |files|
  {
    if files != [] {
      LinesEmpty(files[1..], parseLine);
      assert forall k :: 0 < k < |files| ==> files[k] == files[1..][k - 1];
    }
  }

  // ---------------------------------------------------------------------------
  // What the loop accumulates over the first n lines

  /** The counters one file adds: its own when it parses. */
  function ParsedOf(outcome: FileOutcome): seq<Junit> {
    match outcome
    case Parsed(j) => [j]
    case _ => []
  }

  /** The row one file adds: `| <title> <row>` when it parses. */
  function RowOf(line: MultipleFilesLine, outcome: FileOutcome, renderRow: Junit -> string): string {
    match outcome
    case Parsed(j) => "| " + line.title + " " + renderRow(j) + "\n"
    case _ => ""
  }

  /** The counters of the files among the first `n` lines that parse, in order. */
  function ParsedCounts(lines: seq<MultipleFilesLine>, n: nat, readJunit: string -> FileOutcome): seq<Junit>
    requires n <= |lines|
  {
    if n == 0 then [] else ParsedCounts(lines, n - 1, readJunit) + ParsedOf(readJunit(lines[n - 1].file))
  }

  /** One row per line whose file parses, in order. */
  function Rows(lines: seq<MultipleFilesLine>, readJunit: string -> FileOutcome, renderRow: Junit -> string): string
    decreases |lines|
  {
    if lines == [] then "" else RowOf(lines[0], readJunit(lines[0].file), renderRow) + Rows(lines[1..], readJunit, renderRow)
  }

  /** The message of the first exception among the first `n` lines. */
  function FirstRaised(lines: seq<MultipleFilesLine>, n: nat, readJunit: string -> FileOutcome): Option<string>
    requires n <= |lines|
  {
    if n == 0 then None
    else
      match FirstRaised(lines, n - 1, readJunit)
      case Some(m) => Some(m)
      case None =>
        match readJunit(lines[n - 1].file)
        case Raised(m) => Some(m)
        case _ => None
  }

  /** One parsed file's counters added to the running counters: each counter
      is summed, except `succeeded`, which is overwritten. */
  function Add(t: Junit, j: Junit): Junit {
    Junit(t.skipped + j.skipped, t.tests + j.tests, t.failures + j.failures,
          t.errors + j.errors, j.succeeded, t.time + j.time)
  }

  /** The counters after the first `n` lines. */
  function Totals(lines: seq<MultipleFilesLine>, n: nat, readJunit: string -> FileOutcome): Junit
    requires n <= |lines|
  {
    if n == 0 then Zero
    else
      match readJunit(lines[n - 1].file)
      case Parsed(j) => Add(Totals(lines, n - 1, readJunit), j)
      case _ => Totals(lines, n - 1, readJunit)
  }

  /** The table title: a heading when `junitTitle` is set. */
  function TableTitle(junitTitle: string): string {
    if junitTitle != "" then "# " + junitTitle + "\n\n" else ""
  }

  /** The table before any row: the title, the header row and the separator row. */
  function TableHead(junitTitle: string): string {
    TableTitle(junitTitle) + HeaderRow + SeparatorRow
  }

  /** What `getMultipleJunitReport` resolves to and logs. */
  function MultipleJunitReport(
    files: seq<string>, junitTitle: string,
    parseLine: string -> Option<MultipleFilesLine>,
    readJunit: string -> FileOutcome,
    renderRow: Junit -> string): MultiJunitOutcome
  {
    if files == [] then MultiJunitOutcome(None, [])
    else
      var lines := Lines(files, parseLine);
      if lines == [] then MultiJunitOutcome(None, [NoFilesError])
      else
        match FirstRaised(lines, |lines|, readJunit)
        case Some(m) => MultiJunitOutcome(None, [RaisedErrorPrefix + m])
        case None =>
          var parsed := ParsedCounts(lines, |lines|, readJunit);
          if parsed == [] then MultiJunitOutcome(None, [])
          else MultiJunitOutcome(Some(JunitReport(Totals(lines, |lines|, readJunit), TableHead(junitTitle) + Rows(lines, readJunit, renderRow))), [])
  }

  // ---------------------------------------------------------------------------
  // The loop

  /** An exception at line `n`, after none before it, is the first one of all lines. */
  lemma {:induction false} FirstRaisedStays(lines: seq<MultipleFilesLine>, n: nat, m: nat, readJunit: string -> FileOutcome)
    requires n <= m <= |lines| && FirstRaised(lines, n, readJunit).Some?
    ensures FirstRaised(lines, m, readJunit) == FirstRaised(lines, n, readJunit)
    decreases m - n
  {
    if n < m {
      FirstRaisedStays(lines, n, m - 1, readJunit);
    }
  }

  /** One parsed file in the loop: its row appended to the table and its
      counters added to the results. */
  method AddFile(table: string, results: Junit, line: MultipleFilesLine, parsed: Junit, renderRow: Junit -> string)
    returns (table': string, results': Junit)
    ensures table' == table + RowOf(line, Parsed(parsed), renderRow)
    ensures results' == Add(results, parsed)
  {
    var junitHtml := renderRow(parsed);
    table' := table + ("| " + line.title + " " + junitHtml + "\n");
    results' := results.(
      tests := results.tests + parsed.tests,
      skipped := results.skipped + parsed.skipped,
      failures := results.failures + parsed.failures,
      errors := results.errors + parsed.errors,
      time := results.time + parsed.time,
      succeeded := parsed.succeeded);
  }

  /** What one more line adds to the table ... */
  lemma NextRow(lines: seq<MultipleFilesLine>, i: nat, readJunit: string -> FileOutcome, renderRow: Junit -> string)
    requires i < |lines|
    ensures Rows(lines[..i + 1], readJunit, renderRow) == Rows(lines[..i], readJunit, renderRow) + RowOf(lines[i], readJunit(lines[i].file), renderRow)
  {
    assert lines[..i + 1] == lines[..i] + [lines[i]];
    RowsAppend(lines[..i], [lines[i]], readJunit, renderRow);
    SingleRow(lines[i], readJunit, renderRow);
  }

  lemma SingleRow(line: MultipleFilesLine, readJunit: string -> FileOutcome, renderRow: Junit -> string)
    ensures Rows([line], readJunit, renderRow) == RowOf(line, readJunit(line.file), renderRow)
  {
    assert [line][1..] == [];
  }

  /** ... to the parsed files' counters ... */
  lemma NextCounts(lines: seq<MultipleFilesLine>, i: nat, readJunit: string -> FileOutcome)
    requires i < |lines|
    ensures ParsedCounts(lines, i + 1, readJunit) == ParsedCounts(lines, i, readJunit) + ParsedOf(readJunit(lines[i].file))
  {
  }

  /** ... to the running counters ... */
  lemma NextTotals(lines: seq<MultipleFilesLine>, i: nat, readJunit: string -> FileOutcome)
    requires i < |lines|
    ensures Totals(lines, i + 1, readJunit) ==
      if readJunit(lines[i].file).Parsed? then Add(Totals(lines, i, readJunit), readJunit(lines[i].file).junit)
      else Totals(lines, i, readJunit)
  {
  }

  /** ... and to the first exception. */
  lemma NextRaised(lines: seq<MultipleFilesLine>, i: nat, readJunit: string -> FileOutcome)
    requires i < |lines|
    ensures FirstRaised(lines, i, readJunit).None? && !readJunit(lines[i].file).Raised? ==> FirstRaised(lines, i + 1, readJunit).None?
  {
  }

  /** The sums over the parsed files' counters, one outcome later. */
  lemma SumStep(before: seq<Junit>, outcome: FileOutcome, c: Counter)
    ensures Sum(before + ParsedOf(outcome), c) == Sum(before, c) + (if outcome.Parsed? then Count(outcome.junit, c) else 0)
  {
    SumSnocCount(before, ParsedOf(outcome), c);
    if outcome.Parsed? {
      assert [outcome.junit][1..] == [];
    }
  }

  lemma SumTimeStep(before: seq<Junit>, outcome: FileOutcome)
    ensures SumTime(before + ParsedOf(outcome)) == SumTime(before) + (if outcome.Parsed? then outcome.junit.time else 0.0)
  {
    SumSnocTime(before, ParsedOf(outcome));
    if outcome.Parsed? {
      assert [outcome.junit][1..] == [];
    }
  }

  /** The state of the loop after the first `i` lines, none of which threw. */
  predicate Scanned(lineReports: seq<MultipleFilesLine>, i: nat, head: string, readJunit: string -> FileOutcome, renderRow: Junit -> string,
                    table: string, results: Junit, atLeastOneFileExists: bool)
    requires i <= |lineReports|
  {
    FirstRaised(lineReports, i, readJunit).None? &&
    table == head + Rows(lineReports[..i], readJunit, renderRow) &&
    results == Totals(lineReports, i, readJunit) &&
    (atLeastOneFileExists <==> ParsedCounts(lineReports, i, readJunit) != [])
  }

  /** One line of the loop whose file does not throw: a parsed file adds its
      row and its counters, a file that does not parse adds nothing. */
  method ScanLine(lineReports: seq<MultipleFilesLine>, i: nat, head: string, readJunit: string -> FileOutcome, renderRow: Junit -> string,
                  table: string, results: Junit, atLeastOneFileExists: bool)
    returns (table': string, results': Junit, atLeastOneFileExists': bool)
    requires i < |lineReports| && !readJunit(lineReports[i].file).Raised?
    requires Scanned(lineReports, i, head, readJunit, renderRow, table, results, atLeastOneFileExists)
    ensures Scanned(lineReports, i + 1, head, readJunit, renderRow, table', results', atLeastOneFileExists')
  {
    var line := lineReports[i];
    var parsedXml := readJunit(line.file);
    NextRow(lineReports, i, readJunit, renderRow);
    NextCounts(lineReports, i, readJunit);
    NextTotals(lineReports, i, readJunit);
    NextRaised(lineReports, i, readJunit);
    if parsedXml.Parsed? {
      SeqAssoc(head, Rows(lineReports[..i], readJunit, renderRow), RowOf(line, parsedXml, renderRow));
      table', results' := AddFile(table, results, line, parsedXml.junit, renderRow);
      atLeastOneFileExists' := true;
    } else {
      assert RowOf(line, parsedXml, renderRow) == "";
      assert ParsedOf(parsedXml) == [];
      table', results', atLeastOneFileExists' := table, results, atLeastOneFileExists;
    }
  }

  /** The loop over the lines: it stops at the first exception, whose message
      it returns; otherwise it returns the table, the counters and whether any
      file parsed. */
  method ScanFiles(lineReports: seq<MultipleFilesLine>, head: string, readJunit: string -> FileOutcome, renderRow: Junit -> string)
    returns (raised: Option<string>, table: string, results: Junit, atLeastOneFileExists: bool)
    ensures raised == FirstRaised(lineReports, |lineReports|, readJunit)
    ensures raised.None? ==> table == head + Rows(lineReports, readJunit, renderRow)
    ensures raised.None? ==> results == Totals(lineReports, |lineReports|, readJunit)
    ensures raised.None? ==> (atLeastOneFileExists <==> ParsedCounts(lineReports, |lineReports|, readJunit) != [])
  {
    raised := None;
    results := Zero;
    atLeastOneFileExists := false;
    table := head;
    assert table == head + Rows(lineReports[..0], readJunit, renderRow);
    for i := 0 to |lineReports|
      invariant Scanned(lineReports, i, head, readJunit, renderRow, table, results, atLeastOneFileExists)
    {
      var parsedXml := readJunit(lineReports[i].file);
      if parsedXml.Raised? {
        FirstRaisedStays(lineReports, i + 1, |lineReports|, readJunit);
        raised := Some(parsedXml.message);
        return;
      }
      table, results, atLeastOneFileExists := ScanLine(lineReports, i, head, readJunit, renderRow, table, results, atLeastOneFileExists);
    }
    assert lineReports[..|lineReports|] == lineReports;
  }

  /** `getMultipleJunitReport`: an exception thrown while reading a file ends
      the loop and is logged by the `catch`. */
  method GetMultipleJunitReport(
    o: Options,
    parseLine: string -> Option<MultipleFilesLine>,
    readJunit: string -> FileOutcome,
    renderRow: Junit -> string) returns (r: MultiJunitOutcome)
    ensures r == MultipleJunitReport(o.multipleJunitFiles, o.junitTitle, parseLine, readJunit, renderRow)
  {
    if |o.multipleJunitFiles| == 0 {
      return MultiJunitOutcome(None, []);
    }
    var lineReports := Lines(o.multipleJunitFiles, parseLine);
    if |lineReports| == 0 {
      return MultiJunitOutcome(None, [NoFilesError]);
    }
    var tableTitle := if o.junitTitle != "" then "# " + o.junitTitle + "\n\n" else "";
    var raised, table, results, atLeastOneFileExists := ScanFiles(lineReports, tableTitle + HeaderRow + SeparatorRow, readJunit, renderRow);
    if raised.Some? {
      return MultiJunitOutcome(None, [RaisedErrorPrefix + raised.value]);
    }
    if atLeastOneFileExists {
      return MultiJunitOutcome(Some(JunitReport(results, table)), []);
    }
    return MultiJunitOutcome(None, []);
  }

  // ---------------------------------------------------------------------------
  // Properties

  /** A counter that is added up over the files. */
  datatype Counter = Tests | Skipped | Failures | Errors

  function Count(j: Junit, c: Counter): int {
    match c
    case Tests => j.tests
    case Skipped => j.skipped
    case Failures => j.failures
    case Errors => j.errors
  }

  /** The sum of a counter over the files, first to last. */
  function Sum(js: seq<Junit>, c: Counter): int
    decreases |js|
  {
    if js == [] then 0 else Count(js[0], c) + Sum(js[1..], c)
  }

  function SumTime(js: seq<Junit>): real
    decreases |js|
  {
    if js == [] then 0.0 else js[0].time + SumTime(js[1..])
  }

  lemma {:induction false} SumSnocCount(js: seq<Junit>, more: seq<Junit>, c: Counter)
    ensures Sum(js + more, c) == Sum(js, c) + Sum(more, c)
    decreases |js|
  {
    if js == [] {
      assert js + more == more;
    } else {
      assert (js + more)[1..] == js[1..] + more;
      SumSnocCount(js[1..], more, c);
    }
  }

  lemma {:induction false} SumSnocTime(js: seq<Junit>, more: seq<Junit>)
    ensures SumTime(js + more) == SumTime(js) + SumTime(more)
    decreases |js|
  {
    if js == [] {
      assert js + more == more;
    } else {
      assert (js + more)[1..] == js[1..] + more;
      SumSnocTime(js[1..], more);
    }
  }

  /** The counters after `n` lines are the sums over the files that parse,
      except `succeeded`, which is the last parsed file's (zero with none). */
  lemma TotalsAreSums(lines: seq<MultipleFilesLine>, n: nat, readJunit: string -> FileOutcome)
    requires n <= |lines|
    ensures var parsed := ParsedCounts(lines, n, readJunit);
      (forall c :: Count(Totals(lines, n, readJunit), c) == Sum(parsed, c)) &&
      Totals(lines, n, readJunit).time == SumTime(parsed) &&
      Totals(lines, n, readJunit).succeeded == LastSucceeded(parsed)
  {
    forall c: Counter ensures Count(Totals(lines, n, readJunit), c) == Sum(ParsedCounts(lines, n, readJunit), c) {
      CounterIsSum(lines, n, readJunit, c);
    }
    TimeIsSum(lines, n, readJunit);
    SucceededIsLast(lines, n, readJunit);
  }

  /** Adding a file's counters adds to each summed counter. */
  lemma CountAdd(t: Junit, j: Junit, c: Counter)
    ensures Count(Add(t, j), c) == Count(t, c) + Count(j, c)
  {
  }

  /** What one outcome adds to a summed counter. */
  function Added(outcome: FileOutcome, c: Counter): int {
    if outcome.Parsed? then Count(outcome.junit, c) else 0
  }

  lemma TotalsCountStep(lines: seq<MultipleFilesLine>, n: nat, readJunit: string -> FileOutcome, c: Counter)
    requires 0 < n <= |lines|
    ensures Count(Totals(lines, n, readJunit), c) == Count(Totals(lines, n - 1, readJunit), c) + Added(readJunit(lines[n - 1].file), c)
  {
    var outcome := readJunit(lines[n - 1].file);
    if outcome.Parsed? {
      CountAdd(Totals(lines, n - 1, readJunit), outcome.junit, c);
    }
  }

  lemma SumCountStep(lines: seq<MultipleFilesLine>, n: nat, readJunit: string -> FileOutcome, c: Counter)
    requires 0 < n <= |lines|
    ensures Sum(ParsedCounts(lines, n, readJunit), c) == Sum(ParsedCounts(lines, n - 1, readJunit), c) + Added(readJunit(lines[n - 1].file), c)
  {
    SumStep(ParsedCounts(lines, n - 1, readJunit), readJunit(lines[n - 1].file), c);
  }

  lemma AddSame(x: int, y: int, k: int)
    requires x == y
    ensures x + k == y + k
  {
  }

  lemma {:induction false} CounterIsSum(lines: seq<MultipleFilesLine>, n: nat, readJunit: string -> FileOutcome, c: Counter)
    requires n <= |lines|
    ensures Count(Totals(lines, n, readJunit), c) == Sum(ParsedCounts(lines, n, readJunit), c)
    decreases n
  {
    if n > 0 {
      var added := Added(readJunit(lines[n - 1].file), c);
      calc {
        Count(Totals(lines, n, readJunit), c);
        == { TotalsCountStep(lines, n, readJunit, c); }
        Count(Totals(lines, n - 1, readJunit), c) + added;
        == { CounterIsSum(lines, n - 1, readJunit, c);
             AddSame(Count(Totals(lines, n - 1, readJunit), c), Sum(ParsedCounts(lines, n - 1, readJunit), c), added); }
        Sum(ParsedCounts(lines, n - 1, readJunit), c) + added;
        == { SumCountStep(lines, n, readJunit, c); }
        Sum(ParsedCounts(lines, n, readJunit), c);
      }
    }
  }

  lemma {:induction false} TimeIsSum(lines: seq<MultipleFilesLine>, n: nat, readJunit: string -> FileOutcome)
    requires n <= |lines|
    ensures Totals(lines, n, readJunit).time == SumTime(ParsedCounts(lines, n, readJunit))
    decreases n
  {
    if n > 0 {
      var before := ParsedCounts(lines, n - 1, readJunit);
      var totals := Totals(lines, n - 1, readJunit);
      var outcome := readJunit(lines[n - 1].file);
      var added := if outcome.Parsed? then outcome.junit.time else 0.0;
      calc {
        Totals(lines, n, readJunit).time;
        == { NextTotals(lines, n - 1, readJunit); }
        totals.time + added;
        == { TimeIsSum(lines, n - 1, readJunit); }
        SumTime(before) + added;
        == { SumTimeStep(before, outcome); }
        SumTime(before + ParsedOf(outcome));
        == { NextCounts(lines, n - 1, readJunit); }
        SumTime(ParsedCounts(lines, n, readJunit));
      }
    }
  }

  /** The `succeeded` of the last parsed file, zero with none. */
  function LastSucceeded(parsed: seq<Junit>): int {
    if parsed == [] then 0 else parsed[|parsed| - 1].succeeded
  }

  lemma LastSucceededStep(before: seq<Junit>, outcome: FileOutcome)
    ensures LastSucceeded(before + ParsedOf(outcome)) == if outcome.Parsed? then outcome.junit.succeeded else LastSucceeded(before)
  {
    if outcome.Parsed? {
      var after := before + [outcome.junit];
      assert after[|after| - 1] == outcome.junit;
    } else {
      assert before + [] == before;
    }
  }

  lemma {:induction false} SucceededIsLast(lines: seq<MultipleFilesLine>, n: nat, readJunit: string -> FileOutcome)
    requires n <= |lines|
    ensures Totals(lines, n, readJunit).succeeded == LastSucceeded(ParsedCounts(lines, n, readJunit))
    decreases n
  {
    if n > 0 {
      var before := ParsedCounts(lines, n - 1, readJunit);
      var totals := Totals(lines, n - 1, readJunit);
      var outcome := readJunit(lines[n - 1].file);
      calc {
        Totals(lines, n, readJunit).succeeded;
        == { NextTotals(lines, n - 1, readJunit); }
        if outcome.Parsed? then outcome.junit.succeeded else totals.succeeded;
        == { SucceededIsLast(lines, n - 1, readJunit); }
        if outcome.Parsed? then outcome.junit.succeeded else LastSucceeded(before);
        == { LastSucceededStep(before, outcome); }
        LastSucceeded(before + ParsedOf(outcome));
        == { NextCounts(lines, n - 1, readJunit); }
        LastSucceeded(ParsedCounts(lines, n, readJunit));
      }
    }
  }

  /** The first `k` lines of `a + b` accumulate as the first `k` of `a`: the counters ... */
  lemma {:induction false} CountsPrefixStable(a: seq<MultipleFilesLine>, b: seq<MultipleFilesLine>, k: nat, readJunit: string -> FileOutcome)
    requires k <= |a|
    ensures ParsedCounts(a + b, k, readJunit) == ParsedCounts(a, k, readJunit)
    decreases k
  {
    if k > 0 {
      CountsPrefixStable(a, b, k - 1, readJunit);
      assert (a + b)[k - 1] == a[k - 1];
    }
  }

  /** ... and the first exception. */
  lemma {:induction false} RaisedPrefixStable(a: seq<MultipleFilesLine>, b: seq<MultipleFilesLine>, k: nat, readJunit: string -> FileOutcome)
    requires k <= |a|
    ensures FirstRaised(a + b, k, readJunit) == FirstRaised(a, k, readJunit)
    decreases k
  {
    if k > 0 {
      RaisedPrefixStable(a, b, k - 1, readJunit);
      assert (a + b)[k - 1] == a[k - 1];
    }
  }

  /** Accumulating over `a + b` is accumulating over `a`, then over `b`. */
  lemma {:induction false} CountsAppend(a: seq<MultipleFilesLine>, b: seq<MultipleFilesLine>, m: nat, readJunit: string -> FileOutcome)
    requires m <= |b|
    ensures ParsedCounts(a + b, |a| + m, readJunit) == ParsedCounts(a, |a|, readJunit) + ParsedCounts(b, m, readJunit)
    decreases m
  {
    if m == 0 {
      CountsPrefixStable(a, b, |a|, readJunit);
    } else {
      var countsA := ParsedCounts(a, |a|, readJunit);
      var countsB := ParsedCounts(b, m - 1, readJunit);
      var added := ParsedOf(readJunit(b[m - 1].file));
      calc {
        ParsedCounts(a + b, |a| + m, readJunit);
        == { LastCountsOfAppend(a, b, m, readJunit); }
        ParsedCounts(a + b, |a| + (m - 1), readJunit) + added;
        == { CountsAppend(a, b, m - 1, readJunit);
             SameSuffix(ParsedCounts(a + b, |a| + (m - 1), readJunit), countsA + countsB, added); }
        (countsA + countsB) + added;
        == { SeqAssoc(countsA, countsB, added); }
        countsA + (countsB + added);
        countsA + ParsedCounts(b, m, readJunit);
      }
    }
  }

  lemma LastCountsOfAppend(a: seq<MultipleFilesLine>, b: seq<MultipleFilesLine>, m: nat, readJunit: string -> FileOutcome)
    requires 0 < m <= |b|
    ensures ParsedCounts(a + b, |a| + m, readJunit) == ParsedCounts(a + b, |a| + (m - 1), readJunit) + ParsedOf(readJunit(b[m - 1].file))
  {
    assert (a + b)[|a| + m - 1] == b[m - 1];
  }

  /** The rows of a concatenation are the rows of its parts. */
  lemma {:induction false} RowsAppend(a: seq<MultipleFilesLine>, b: seq<MultipleFilesLine>,
                                      readJunit: string -> FileOutcome, renderRow: Junit -> string)
    ensures Rows(a + b, readJunit, renderRow) == Rows(a, readJunit, renderRow) + Rows(b, readJunit, renderRow)
    decreases |a|
  {
    if a == [] {
      assert a + b == b;
    } else {
      var row := RowOf(a[0], readJunit(a[0].file), renderRow);
      calc {
        Rows(a + b, readJunit, renderRow);
        == { assert (a + b)[0] == a[0]; assert (a + b)[1..] == a[1..] + b; }
        row + Rows(a[1..] + b, readJunit, renderRow);
        == { RowsAppend(a[1..], b, readJunit, renderRow); }
        row + (Rows(a[1..], readJunit, renderRow) + Rows(b, readJunit, renderRow));
        == { SeqAssoc(row, Rows(a[1..], readJunit, renderRow), Rows(b, readJunit, renderRow)); }
        (row + Rows(a[1..], readJunit, renderRow)) + Rows(b, readJunit, renderRow);
        Rows(a, readJunit, renderRow) + Rows(b, readJunit, renderRow);
      }
    }
  }

  lemma {:induction false} RaisedAppend(a: seq<MultipleFilesLine>, b: seq<MultipleFilesLine>, m: nat, readJunit: string -> FileOutcome)
    requires m <= |b|
    ensures FirstRaised(a + b, |a| + m, readJunit) ==
      if FirstRaised(a, |a|, readJunit).Some? then FirstRaised(a, |a|, readJunit) else FirstRaised(b, m, readJunit)
    decreases m
  {
    if m == 0 {
      RaisedPrefixStable(a, b, |a|, readJunit);
    } else {
      RaisedAppend(a, b, m - 1, readJunit);
      assert (a + b)[|a| + m - 1] == b[m - 1];
    }
  }

  /** A line whose file does not parse changes neither the counters, nor the
      table, nor which exception is logged. */
  lemma UnparsedLineChangesNothing(a: seq<MultipleFilesLine>, line: MultipleFilesLine, b: seq<MultipleFilesLine>,
                                   readJunit: string -> FileOutcome, renderRow: Junit -> string)
    requires readJunit(line.file) == NotParsed
    ensures var with := a + [line] + b; var without := a + b;
      ParsedCounts(with, |with|, readJunit) == ParsedCounts(without, |without|, readJunit) &&
      Totals(with, |with|, readJunit) == Totals(without, |without|, readJunit) &&
      Rows(with, readJunit, renderRow) == Rows(without, readJunit, renderRow) &&
      FirstRaised(with, |with|, readJunit) == FirstRaised(without, |without|, readJunit)
  {
    UnparsedCounts(a, line, b, readJunit);
    TotalsDependOnCounts(a + [line] + b, |a + [line] + b|, a + b, |a + b|, readJunit);
    UnparsedRows(a, line, b, readJunit, renderRow);
    UnparsedRaised(a, line, b, readJunit);
  }

  /** A last line whose file does not parse adds no counters. */
  lemma UnparsedLastCounts(a: seq<MultipleFilesLine>, line: MultipleFilesLine, readJunit: string -> FileOutcome)
    requires readJunit(line.file) == NotParsed
    ensures ParsedCounts(a + [line], |a| + 1, readJunit) == ParsedCounts(a, |a|, readJunit)
  {
    assert (a + [line])[|a|] == line;
    assert ParsedOf(readJunit(line.file)) == [];
    CountsPrefixStable(a, [line], |a|, readJunit);
  }

  lemma UnparsedCounts(a: seq<MultipleFilesLine>, line: MultipleFilesLine, b: seq<MultipleFilesLine>, readJunit: string -> FileOutcome)
    requires readJunit(line.file) == NotParsed
    ensures var with := a + [line] + b; var without := a + b;
      ParsedCounts(with, |with|, readJunit) == ParsedCounts(without, |without|, readJunit)
  {
    CountsAppend(a + [line], b, |b|, readJunit);
    UnparsedLastCounts(a, line, readJunit);
    CountsAppend(a, b, |b|, readJunit);
  }

  /** The counters are a function of the parsed files' counters. */
  lemma TotalsDependOnCounts(l1: seq<MultipleFilesLine>, n1: nat, l2: seq<MultipleFilesLine>, n2: nat, readJunit: string -> FileOutcome)
    requires n1 <= |l1| && n2 <= |l2|
    requires ParsedCounts(l1, n1, readJunit) == ParsedCounts(l2, n2, readJunit)
    ensures Totals(l1, n1, readJunit) == Totals(l2, n2, readJunit)
  {
    TotalsAreSums(l1, n1, readJunit);
    TotalsAreSums(l2, n2, readJunit);
    var t1 := Totals(l1, n1, readJunit);
    var t2 := Totals(l2, n2, readJunit);
    assert Count(t1, Tests) == Count(t2, Tests) && Count(t1, Skipped) == Count(t2, Skipped);
    assert Count(t1, Failures) == Count(t2, Failures) && Count(t1, Errors) == Count(t2, Errors);
  }

  lemma UnparsedRows(a: seq<MultipleFilesLine>, line: MultipleFilesLine, b: seq<MultipleFilesLine>,
                     readJunit: string -> FileOutcome, renderRow: Junit -> string)
    requires readJunit(line.file) == NotParsed
    ensures var with := a + [line] + b; var without := a + b;
      Rows(with, readJunit, renderRow) == Rows(without, readJunit, renderRow)
  {
    RowsAppend(a + [line], b, readJunit, renderRow);
    RowsAppend(a, [line], readJunit, renderRow);
    SingleRow(line, readJunit, renderRow);
    RowsAppend(a, b, readJunit, renderRow);
  }

  lemma UnparsedRaised(a: seq<MultipleFilesLine>, line: MultipleFilesLine, b: seq<MultipleFilesLine>, readJunit: string -> FileOutcome)
    requires readJunit(line.file) == NotParsed
    ensures var with := a + [line] + b; var without := a + b;
      FirstRaised(with, |with|, readJunit) == FirstRaised(without, |without|, readJunit)
  {
    RaisedAppend(a + [line], b, |b|, readJunit);
    RaisedAppend(a, [line], 1, readJunit);
    RaisedAppend(a, b, |b|, readJunit);
  }

  /** A report exists only when some file parses: it is never a report of zero
      files. Without inputs, without a line that splits, or after an exception
      there is none. */
  lemma ReportNeedsAParsedFile(files: seq<string>, junitTitle: string, parseLine: string -> Option<MultipleFilesLine>,
                               readJunit: string -> FileOutcome, renderRow: Junit -> string)
    ensures var r := MultipleJunitReport(files, junitTitle, parseLine, readJunit, renderRow);
      (r.report.Some? <==>
        Lines(files, parseLine) != [] &&
        FirstRaised(Lines(files, parseLine), |Lines(files, parseLine)|, readJunit).None? &&
        ParsedCounts(Lines(files, parseLine), |Lines(files, parseLine)|, readJunit) != []) &&
      (files == [] ==> r == MultiJunitOutcome(None, [])) &&
      (files != [] && Lines(files, parseLine) == [] ==> r == MultiJunitOutcome(None, [NoFilesError]))
  {
  }

  /** A report holds the counters of all lines (see `TotalsAreSums`) and the
      table of all lines under its head (see `TableStartsWithHash`), and some
      file parsed. */
  lemma ReportValue(files: seq<string>, junitTitle: string, parseLine: string -> Option<MultipleFilesLine>,
                    readJunit: string -> FileOutcome, renderRow: Junit -> string, report: JunitReport)
    requires MultipleJunitReport(files, junitTitle, parseLine, readJunit, renderRow).report == Some(report)
    ensures var lines := Lines(files, parseLine);
      ParsedCounts(lines, |lines|, readJunit) != [] &&
      report == JunitReport(Totals(lines, |lines|, readJunit), TableHead(junitTitle) + Rows(lines, readJunit, renderRow))
  {
  }

  /** The table starts with the title heading when there is a title ... */
  lemma TableStartTitled(junitTitle: string, rows: string)
    requires junitTitle != ""
    ensures StartsWith(TableHead(junitTitle) + rows, "# " + junitTitle + "\n\n")
  {
    StartsWithFirstOfFour("# " + junitTitle + "\n\n", HeaderRow, SeparatorRow, rows);
  }

  /** ... and with the header row otherwise ... */
  lemma TableStartUntitled(rows: string)
    ensures StartsWith(TableHead("") + rows, HeaderRow + SeparatorRow)
  {
    assert TableHead("") + rows == (HeaderRow + SeparatorRow) + rows;
    StartsWithConcat(HeaderRow + SeparatorRow, rows);
  }

  /** ... so it starts with `# ` exactly when a title is set. */
  lemma TableStartsWithHash(junitTitle: string, rows: string)
    ensures StartsWith(TableHead(junitTitle) + rows, "# ") <==> junitTitle != ""
  {
    var table := TableHead(junitTitle) + rows;
    if junitTitle != "" {
      TableStartTitled(junitTitle, rows);
      StartsWithConcat("# ", junitTitle);
      StartsWithExtend("# " + junitTitle, "# ", "\n\n");
      StartsWithTransitive(table, "# " + junitTitle + "\n\n", "# ");
    } else {
      assert table == "|" + HeaderRowRest + SeparatorRow + rows;
      StartsWithFirstOfFour("|", HeaderRowRest, SeparatorRow, rows);
      if StartsWith(table, "# ") {
        StartsWithFirst(table, "# ");
        StartsWithFirst(table, "|");
      }
    }
  }

}
