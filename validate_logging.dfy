/**
 * The logger compliance validator: walks the logger registry in order and
 * records, per real logger, a missing-handlers issue, or else a
 * non-standard-formatter issue and at most one plain-file-handler issue.
 * It returns whether no issue was found; in strict mode it raises instead
 * when there are issues.
 */
module ValidateLogging {
  import opened Wrappers
  import opened LogConfig

  datatype Issue =
    | NoHandlers(logger: string)
    | NonStandardFormatter(logger: string)
    | PlainFileHandler(logger: string)

  datatype Counts = Counts(loggers: nat, missing: nat, nonStandard: nat, wrongType: nat)

  /** The validator returns whether all checks passed, or raises (strict mode only). */
  datatype Outcome = Returned(allValid: bool) | Raised

  /** The issues one registry entry contributes. */
  function IssuesOf(name: string, e: Entry): seq<Issue> {
    match e
    case Placeholder => []
    case Logger(hs, _) =>
      if |hs| == 0 then [NoHandlers(name)]
      else
        (if HasStandardFormatter(hs) then [] else [NonStandardFormatter(name)])
        + (if HasPlainFile(hs) then [PlainFileHandler(name)] else [])
  }

  function CountsOf(e: Entry): Counts {
    match e
    case Placeholder => Counts(0, 0, 0, 0)
    case Logger(hs, _) =>
      if |hs| == 0 then Counts(1, 1, 0, 0)
      else Counts(1, 0, if HasStandardFormatter(hs) then 0 else 1, if HasPlainFile(hs) then 1 else 0)
  }

  function Add(a: Counts, b: Counts): Counts {
    Counts(a.loggers + b.loggers, a.missing + b.missing, a.nonStandard + b.nonStandard, a.wrongType + b.wrongType)
  }

  /** The issues of a registry, in registry order. */
  function Issues(reg: seq<(string, Entry)>): seq<Issue>
    decreases |reg|
  {
    if |reg| == 0 then []
    else Issues(reg[..|reg| - 1]) + IssuesOf(reg[|reg| - 1].0, reg[|reg| - 1].1)
  }

  function Tally(reg: seq<(string, Entry)>): Counts
    decreases |reg|
  {
    if |reg| == 0 then Counts(0, 0, 0, 0)
    else Add(Tally(reg[..|reg| - 1]), CountsOf(reg[|reg| - 1].1))
  }

  /** Every issue is counted exactly once in the three issue counters. */
  lemma {:induction false} TallyCountsIssues(reg: seq<(string, Entry)>)
    ensures Tally(reg).missing + Tally(reg).nonStandard + Tally(reg).wrongType == |Issues(reg)|
    ensures Tally(reg).missing <= Tally(reg).loggers && Tally(reg).wrongType <= Tally(reg).loggers
    ensures Tally(reg).nonStandard <= Tally(reg).loggers
    ensures Tally(reg).loggers <= |reg|
    decreases |reg|
  {
    if |reg| > 0 {
      TallyCountsIssues(reg[..|reg| - 1]);
    }
  }

  /** A logger raises no issue exactly when it has handlers, one in the standard format, and no plain file handler. */
  lemma NoIssueIffCompliant(name: string, hs: seq<Handler>, propagate: bool)
    ensures IssuesOf(name, Logger(hs, propagate)) == [] <==> |hs| > 0 && Compliant(hs)
  {
    if |hs| > 0 && !HasPlainFile(hs) {
      assert forall k :: 0 <= k < |hs| ==> hs[k].kind != PlainFile;
    }
  }

  /** A logger set up by the central logger class passes every check. */
  lemma CentralLoggerPasses(name: string)
    requires name != "root"
    ensures IssuesOf(name, CentralSetup(name, [])) == []
  {
    var e := CentralSetup(name, []);
    NoIssueIffCompliant(name, e.handlers, e.propagate);
  }

  /**
   * validate_logging_compliance over the registry's items in order:
   * the issues and counters it accumulates, and its outcome — true iff no
   * issue was recorded, or an exception in strict mode when there are
   * issues. The registry is given as its items in iteration order; the
   * names are those of `LogConfig.Registry`'s keys, each once, but the
   * method does not rely on that.
   */
  method ValidateLoggingCompliance(reg: seq<(string, Entry)>, strict: bool)
    returns (outcome: Outcome, counts: Counts, issues: seq<Issue>)
    ensures issues == Issues(reg)
    ensures counts == Tally(reg)
    ensures outcome == (if strict && issues != [] then Raised else Returned(issues == []))
  {
    var allValid := true;
    issues := [];
    counts := Counts(0, 0, 0, 0);
    var i := 0;
    while i < |reg|
      invariant 0 <= i <= |reg|
      invariant issues == Issues(reg[..i]) && counts == Tally(reg[..i])
      invariant allValid <==> issues == []
    {
      assert reg[..i + 1][..i] == reg[..i];
      var found, seen := CheckLogger(reg[i].0, reg[i].1);
      issues := issues + found;
      counts := Add(counts, seen);
      if found != [] {
        allValid := false;
      }
      i := i + 1;
    }
    assert reg[..i] == reg;
    if issues != [] && strict {
      outcome := Raised;
    } else {
      outcome := Returned(allValid);
    }
  }

  /** The checks on one registry entry: what it adds to the issues and to the counters. */
  method CheckLogger(name: string, e: Entry) returns (found: seq<Issue>, seen: Counts)
    ensures found == IssuesOf(name, e)
    ensures seen == CountsOf(e)
  {
    found := [];
    seen := Counts(0, 0, 0, 0);
    if e.Placeholder? {
      return;
    }
    seen := seen.(loggers := 1);
    var hs := e.handlers;
    if |hs| == 0 {
      found := [NoHandlers(name)];
      seen := seen.(missing := 1);
      return;
    }
    var standard := FindStandardFormatter(hs);
    if !standard {
      found := found + [NonStandardFormatter(name)];
      seen := seen.(nonStandard := 1);
    }
    var plain := FindPlainFile(hs);
    if plain {
      found := found + [PlainFileHandler(name)];
      seen := seen.(wrongType := 1);
    }
  }

  /** The formatter loop: skips null handlers and stops at the first standard format. */
  method FindStandardFormatter(hs: seq<Handler>) returns (found: bool)
    ensures found <==> HasStandardFormatter(hs)
  {
    found := false;
    var k := 0;
    while k < |hs|
      invariant 0 <= k <= |hs|
      invariant !found ==> forall j :: 0 <= j < k ==> !(hs[j].kind != NullSink && hs[j].format == Some(StandardFormat))
      invariant found ==> HasStandardFormatter(hs)
    {
      if hs[k].kind != NullSink && hs[k].format == Some(StandardFormat) {
        found := true;
        break;
      }
      k := k + 1;
    }
  }

  /** The handler-type loop: stops at the first file handler that does not prepend. */
  method FindPlainFile(hs: seq<Handler>) returns (found: bool)
    ensures found <==> HasPlainFile(hs)
  {
    found := false;
    var k := 0;
    while k < |hs|
      invariant 0 <= k <= |hs|
      invariant !found ==> forall j :: 0 <= j < k ==> hs[j].kind != PlainFile
      invariant found ==> HasPlainFile(hs)
    {
      if hs[k].kind == PlainFile {
        found := true;
        break;
      }
      k := k + 1;
    }
  }
}
