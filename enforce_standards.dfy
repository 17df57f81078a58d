/**
 * The logging-standards gate: each diagnostic's search output is filtered
 * line by line against allow-lists of path fragments, the remainder decides
 * the diagnostic's verdict and report, and the gate passes only when every
 * counted diagnostic passes.
 *
 * The searches themselves (grep runs) are inputs: each diagnostic receives
 * the text its search printed.
 */
module EnforceLoggingStandards {
  import opened Wrappers
  import opened Text

  /** Path fragments whose lines may use the logging module directly. */
  const AllowedDirectAccess: seq<string> :=
    ["log_config.py", "logging_diagnostic.py", "logger_monitor.py", "tools/", "tests/"]

  /** How many violations a report lists before summarising the rest. */
  const ListedLimit: nat := 10

  predicate Mentions(line: string, fragments: seq<string>) {
    exists f :: f in fragments && Contains(line, f)
  }

  /** A line is allowed when it mentions a diagnostic-specific fragment or a globally allowed one. */
  predicate Allowed(line: string, allowedIn: seq<string>) {
    Mentions(line, allowedIn) || Mentions(line, AllowedDirectAccess)
  }

  /** The lines that are not allowed, in their original order. */
  function Kept(lines: seq<string>, allowedIn: seq<string>): (r: seq<string>)
    ensures |r| <= |lines|
    decreases |lines|
  {
    if |lines| == 0 then []
    else Kept(lines[..|lines| - 1], allowedIn) + (if Allowed(lines[|lines| - 1], allowedIn) then [] else [lines[|lines| - 1]])
  }

  /** Exactly the lines that are not allowed survive. */
  lemma {:induction false} KeptMembers(lines: seq<string>, allowedIn: seq<string>)
    ensures forall l :: l in Kept(lines, allowedIn) <==> l in lines && !Allowed(l, allowedIn)
    decreases |lines|
  {
    if |lines| > 0 {
      var init := lines[..|lines| - 1];
      KeptMembers(init, allowedIn);
      assert lines == init + [lines[|lines| - 1]];
    }
  }

  /** Filtering works line by line: it distributes over concatenation, so the order is kept. */
  lemma {:induction false} KeptAppend(a: seq<string>, b: seq<string>, allowedIn: seq<string>)
    ensures Kept(a + b, allowedIn) == Kept(a, allowedIn) + Kept(b, allowedIn)
    decreases |b|
  {
    if |b| > 0 {
      var init := b[..|b| - 1];
      KeptAppend(a, init, allowedIn);
      assert (a + b)[..|a + b| - 1] == a + init;
      assert (a + b)[|a + b| - 1] == b[|b| - 1];
    } else {
      assert a + b == a;
    }
  }

  lemma {:induction false} KeptEmpty(lines: seq<string>, allowedIn: seq<string>)
    requires forall l :: l in lines ==> Allowed(l, allowedIn)
    ensures Kept(lines, allowedIn) == []
    decreases |lines|
  {
    if |lines| > 0 {
      var init := lines[..|lines| - 1];
      assert forall l :: l in init ==> l in lines;
      assert lines[|lines| - 1] in lines;
      KeptEmpty(init, allowedIn);
    }
  }

  /** Lines from the tools and tests directories are dropped whatever the diagnostic allows. */
  lemma ToolsAndTestsAlwaysDropped(lines: seq<string>, allowedIn: seq<string>, line: string)
    requires Contains(line, "tools/") || Contains(line, "tests/")
    ensures line !in Kept(lines, allowedIn)
  {
    assert "tools/" in AllowedDirectAccess && "tests/" in AllowedDirectAccess;
    KeptMembers(lines, allowedIn);
  }

  /** The text a diagnostic writes: empty output stays empty; otherwise the kept lines joined by newlines. */
  function Filtered(output: string, allowedIn: seq<string>): string {
    if output == "" then "" else Join(Kept(SplitLines(output), allowedIn), "\n")
  }

  /** One listed violation: its number, counting from 1, and the line. */
  datatype Numbered = Numbered(number: nat, line: string)

  datatype Report =
    | Passed(name: string)
    | Failed(name: string, listed: seq<Numbered>, more: Option<nat>, path: string)

  function Min(a: nat, b: nat): nat { if a <= b then a else b }

  /** A diagnostic passes when its filtered output is whitespace only. */
  predicate Passes(output: string, allowedIn: seq<string>) {
    IsBlank(Filtered(output, allowedIn))
  }

  /**
   * The report of a diagnostic whose filtered text `written` is not blank:
   * its first ten lines numbered from 1 and, when there are more, how many
   * more.
   */
  function FailureReport(name: string, outputFile: string, written: string): Report {
    var lines := SplitLines(written);
    Failed(name, Listing(lines, Min(|lines|, ListedLimit)),
           if |lines| > ListedLimit then Some(|lines| - ListedLimit) else None,
           "diagnostics/" + outputFile)
  }

  /** The first `n` lines, numbered from 1. */
  function Listing(lines: seq<string>, n: nat): (r: seq<Numbered>)
    requires n <= |lines|
    ensures |r| == n
  {
    if n == 0 then [] else Listing(lines, n - 1) + [Numbered(n, lines[n - 1])]
  }

  lemma {:induction false} ListingNumbers(lines: seq<string>, n: nat)
    requires n <= |lines|
    ensures forall i :: 0 <= i < n ==> Listing(lines, n)[i] == Numbered(i + 1, lines[i])
  {
    if n > 0 {
      ListingNumbers(lines, n - 1);
    }
  }

  /** A failed report lists at most ten lines, numbered from 1, and says how many more there are exactly when there are more. */
  lemma ReportListing(name: string, outputFile: string, written: string)
    ensures
      var r := FailureReport(name, outputFile, written);
      var lines := SplitLines(written);
      |r.listed| <= ListedLimit && |r.listed| <= |lines|
      && (|lines| >= ListedLimit ==> |r.listed| == ListedLimit)
      && (forall i :: 0 <= i < |r.listed| ==> r.listed[i].number == i + 1 && r.listed[i].line == lines[i])
      && (r.more.Some? <==> |lines| > ListedLimit)
      && (r.more.Some? ==> |r.listed| + r.more.value == |lines|)
  {
    var lines := SplitLines(written);
    ListingNumbers(lines, Min(|lines|, ListedLimit));
  }

  /** The report `run_diagnostic` returns for a search output. */
  function DiagnosticReport(output: string, outputFile: string, name: string, allowedIn: seq<string>): Report {
    if Passes(output, allowedIn) then Passed(name) else FailureReport(name, outputFile, Filtered(output, allowedIn))
  }

  /**
   * run_diagnostic on the text its search printed: drops the allowed lines,
   * passes iff what is left is whitespace only, and otherwise lists the first
   * ten remaining lines numbered from 1 and, when there are more, how many.
   */
  method RunDiagnostic(output: string, outputFile: string, name: string, allowedIn: seq<string>)
    returns (success: bool, written: string, report: Report)
    ensures written == Filtered(output, allowedIn)
    ensures success <==> Passes(output, allowedIn)
    ensures report == if success then Passed(name) else FailureReport(name, outputFile, written)
  {
    written := output;
    if output != "" {
      var lines := SplitLines(output);
      var kept: seq<string> := [];
      var i := 0;
      while i < |lines|
        invariant 0 <= i <= |lines|
        invariant kept == Kept(lines[..i], allowedIn)
      {
        assert lines[..i + 1][..i] == lines[..i];
        if !Allowed(lines[i], allowedIn) {
          kept := kept + [lines[i]];
        }
        i := i + 1;
      }
      assert lines[..i] == lines;
      written := Join(kept, "\n");
    }
    if IsBlank(written) {
      success := true;
      report := Passed(name);
    } else {
      success := false;
      var lines := SplitLines(written);
      var listed: seq<Numbered> := [];
      var i := 0;
      while i < |lines| && i < ListedLimit
        invariant 0 <= i <= Min(|lines|, ListedLimit)
        invariant listed == Listing(lines, i)
      {
        listed := listed + [Numbered(i + 1, lines[i])];
        i := i + 1;
      }
      var more := if |lines| > ListedLimit then Some(|lines| - ListedLimit) else None;
      report := Failed(name, listed, more, "diagnostics/" + outputFile);
    }
  }

  /** Output whose every line is allowed passes. */
  lemma AllAllowedPasses(output: string, allowedIn: seq<string>)
    requires forall l :: l in SplitLines(output) ==> Allowed(l, allowedIn)
    ensures Passes(output, allowedIn)
  {
    if output != "" {
      KeptEmpty(SplitLines(output), allowedIn);
    }
  }

  /** The sections of the gate's report after its header. */
  datatype Section =
    | Diagnostic(report: Report)
    | FactoryUsage(count: nat)
    | Entrypoint(configured: bool)
    | Runtime(result: Option<bool>)

  /** A counted diagnostic: the file it writes, its name and the fragments it allows. */
  datatype CheckSpec = CheckSpec(outputFile: string, name: string, allowedIn: seq<string>)

  const DirectGetLogger := CheckSpec("01_direct_getLogger.txt", "Direct stdlib API usage", ["log_config.py", "tests/", "tools/"])
  const DirectAddHandler := CheckSpec("03_direct_addHandler.txt", "Ad-hoc handler attachments", ["log_config.py", "tests/"])
  const InlineFormatter := CheckSpec("04_inline_Formatter.txt", "Inline formatter definitions", ["log_config.py", "tests/"])
  const BasicConfig := CheckSpec("05_basicConfig.txt", "basicConfig usage", ["tests/"])

  /** The report section of a counted check on its search output. */
  function CheckSection(output: string, c: CheckSpec): Section {
    Diagnostic(DiagnosticReport(output, c.outputFile, c.name, c.allowedIn))
  }

  /**
   * One counted check: runs the diagnostic, folds its verdict into the
   * running result and contributes its report.
   */
  method CountedCheck(passed: bool, output: string, c: CheckSpec)
    returns (passedAfter: bool, section: Section)
    ensures passedAfter <==> passed && Passes(output, c.allowedIn)
    ensures section.Diagnostic? && section.report.name == c.name
    ensures section == CheckSection(output, c)
  {
    var success, _, checkReport := RunDiagnostic(output, c.outputFile, c.name, c.allowedIn);
    passedAfter := passed && success;
    section := Diagnostic(checkReport);
  }

  /** A check that only contributes its filtered text to the report. */
  method InformationalCheck(output: string, outputFile: string, name: string) returns (written: string)
    ensures written == Filtered(output, [])
  {
    var _, w, _ := RunDiagnostic(output, outputFile, name, []);
    written := w;
  }

  /** The four counted checks, in order: whether all passed, and their sections. */
  method CountedChecks(getLoggerOut: string, addHandlerOut: string, formatterOut: string, basicConfigOut: string)
    returns (passed: bool, sections: seq<Section>)
    ensures passed <==>
      Passes(getLoggerOut, DirectGetLogger.allowedIn)
      && Passes(addHandlerOut, DirectAddHandler.allowedIn)
      && Passes(formatterOut, InlineFormatter.allowedIn)
      && Passes(basicConfigOut, BasicConfig.allowedIn)
    ensures sections == [CheckSection(getLoggerOut, DirectGetLogger), CheckSection(addHandlerOut, DirectAddHandler),
                         CheckSection(formatterOut, InlineFormatter), CheckSection(basicConfigOut, BasicConfig)]
  {
    var s1, s3, s4, s5;
    passed, s1 := CountedCheck(true, getLoggerOut, DirectGetLogger);
    passed, s3 := CountedCheck(passed, addHandlerOut, DirectAddHandler);
    passed, s4 := CountedCheck(passed, formatterOut, InlineFormatter);
    passed, s5 := CountedCheck(passed, basicConfigOut, BasicConfig);
    sections := [s1, s3, s4, s5];
  }

  /**
   * The gate's main routine: the search outputs of the five pattern checks
   * and the entry-point check, and the runtime validation's result (None
   * when it raised). The gate exits 0 iff checks 1, 3, 4 and 5 pass, the
   * entry-point search left something in its file, and the runtime
   * validation returned true; the second check only contributes a count to
   * the report. Each counted check's section is the report its diagnostic
   * returned.
   */
  method EnforceStandards(getLoggerOut: string, factoryOut: string, addHandlerOut: string, formatterOut: string,
                          basicConfigOut: string, entrypointOut: string, runtime: Option<bool>)
    returns (exitCode: int, report: seq<Section>)
    ensures exitCode == 0 || exitCode == 1
    ensures exitCode == 0 <==>
      Passes(getLoggerOut, DirectGetLogger.allowedIn)
      && Passes(addHandlerOut, DirectAddHandler.allowedIn)
      && Passes(formatterOut, InlineFormatter.allowedIn)
      && Passes(basicConfigOut, BasicConfig.allowedIn)
      && Filtered(entrypointOut, []) != ""
      && runtime == Some(true)
    ensures report == [CheckSection(getLoggerOut, DirectGetLogger),
                       FactoryUsage(|SplitLines(Filtered(factoryOut, []))|),
                       CheckSection(addHandlerOut, DirectAddHandler),
                       CheckSection(formatterOut, InlineFormatter),
                       CheckSection(basicConfigOut, BasicConfig),
                       Entrypoint(Filtered(entrypointOut, []) != ""),
                       Runtime(runtime)]
  {
    // The counted checks 1, 3, 4 and 5 run in the order of the source,
    // with the informational check 2 between the first and the third.
    var allPassed, sections := CountedChecks(getLoggerOut, addHandlerOut, formatterOut, basicConfigOut);

    var written2 := InformationalCheck(factoryOut, "02_central_factory_usage.txt",
      "Central factory method usage");

    var written6 := InformationalCheck(entrypointOut, "06_entrypoint_configure.txt",
      "Entry point configuration");
    var entrypointCheck := written6 != "";
    if !entrypointCheck {
      allPassed := false;
    }

    if runtime != Some(true) {
      allPassed := false;
    }

    report := [sections[0], FactoryUsage(|SplitLines(written2)|), sections[1], sections[2], sections[3],
               Entrypoint(entrypointCheck), Runtime(runtime)];
    exitCode := if allPassed then 0 else 1;
  }
}
