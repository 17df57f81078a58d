/**
 * The logging core of the pipeline: the newest-first file handler, the
 * single-line formatter, the per-logger file layout chosen when a logger is
 * created, and the process-wide logging state (the "configured" flag, the
 * set of configured alert loggers and the logger registry) together with
 * the operations that change or inspect it.
 *
 * A logger registry is a map from logger name to entry; the root logger is
 * not in it (as in Python's `Logger.manager.loggerDict`) and keeps its own
 * handler list.
 */
module LogConfig {
  import opened Wrappers
  import opened Text

  // ---------------------------------------------------------------------
  // Handlers, formatters and registry entries
  // ---------------------------------------------------------------------

  /** The handler classes the validators tell apart. */
  datatype Kind =
    | Stream        // logging.StreamHandler (console)
    | PlainFile     // a logging.FileHandler that is not a PrependFileHandler
    | PrependFile   // PrependFileHandler
    | NullSink      // logging.NullHandler
    | OtherKind

  /** A handler: its class, the file it writes (if any) and its formatter's format string (if any). */
  datatype Handler = Handler(kind: Kind, file: Option<string>, format: Option<string>)

  /** A registry entry: a placeholder for a dotted parent name, or a logger. */
  datatype Entry =
    | Placeholder
    | Logger(handlers: seq<Handler>, propagate: bool)

  type Registry = map<string, Entry>

  const StandardFormat: string := "%(asctime)s [%(levelname)s] %(name)s: %(message)s"
  const MessageFormat: string := "%(message)s"
  const SummaryPrefix: string := "summary."
  const AlertPrefix: string := "alert."
  /** Loggers that only get a console handler. */
  const ConsoleOnly: set<string> := {"root"}

  // ---------------------------------------------------------------------
  // PrependFileHandler.emit
  // ---------------------------------------------------------------------

  /**
   * The file content after one emit of the formatted message `msg`:
   * a record the filter rejects, or a failure before the file is opened for
   * writing (creating the directory or opening the file), leaves the file as
   * it was; a failed read treats the old content as empty; otherwise the new
   * line goes in front of the old content. Failures from here on are
   * caught; formatting the record happens before and is not part of this
   * function, which takes the formatted message as given.
   */
  function Emitted(content: string, msg: string, passes: bool, readFails: bool, writeFails: bool): (r: string)
    ensures !passes || writeFails ==> r == content
    ensures passes && !writeFails ==> StartsWith(r, msg + "\n")
    ensures passes && !writeFails && !readFails ==> r[|msg| + 1..] == content
    ensures passes && !writeFails && readFails ==> |r| == |msg| + 1
  {
    if !passes || writeFails then content
    else if readFails then msg + "\n"
    else msg + "\n" + content
  }

  /** A file handler that keeps the newest record at the top of its file. */
  class PrependFileHandler {
    const file: string
    var content: string

    constructor(file: string, content: string)
      ensures this.file == file && this.content == content
    {
      this.file := file;
      this.content := content;
    }

    method Emit(msg: string, passes: bool, readFails: bool, writeFails: bool)
      modifies this
      ensures content == Emitted(old(content), msg, passes, readFails, writeFails)
    {
      if passes {
        if !writeFails {
          var existing := "";
          if !readFails {
            existing := content;
          }
          content := msg + "\n" + existing;
        }
      }
    }
  }

  /** The content after emitting `msgs` in order, every emit succeeding, onto `content`. */
  function EmitAll(content: string, msgs: seq<string>): string
    decreases |msgs|
  {
    if |msgs| == 0 then content
    else Emitted(EmitAll(content, msgs[..|msgs| - 1]), msgs[|msgs| - 1], true, false, false)
  }

  function Reverse<T>(s: seq<T>): (r: seq<T>)
    ensures |r| == |s|
    decreases |s|
  {
    if |s| == 0 then [] else [s[|s| - 1]] + Reverse(s[..|s| - 1])
  }

  /**
   * Newest first: after single-line messages are emitted one by one, the
   * file's lines are the messages in reverse order, followed by the lines
   * the file held before.
   */
  lemma {:induction false} NewestFirst(content: string, msgs: seq<string>)
    requires forall k :: 0 <= k < |msgs| ==> '\n' !in msgs[k]
    ensures Split(EmitAll(content, msgs), '\n') == Reverse(msgs) + Split(content, '\n')
    decreases |msgs|
  {
    if |msgs| > 0 {
      var init := msgs[..|msgs| - 1];
      var m := msgs[|msgs| - 1];
      assert '\n' !in m;
      forall k | 0 <= k < |init|
        ensures '\n' !in init[k]
      {
        assert init[k] == msgs[k];
      }
      NewestFirst(content, init);
      EmitStep(content, msgs);
      SplitPrefix(m, '\n', EmitAll(content, init));
    }
  }

  lemma EmitStep(content: string, msgs: seq<string>)
    requires |msgs| > 0
    ensures EmitAll(content, msgs) == msgs[|msgs| - 1] + ['\n'] + EmitAll(content, msgs[..|msgs| - 1])
  {
  }

  /** Read back from an empty file, the lines are the messages newest first. */
  lemma ReadBackNewestFirst(msgs: seq<string>)
    requires forall k :: 0 <= k < |msgs| ==> '\n' !in msgs[k]
    ensures SplitLines(EmitAll("", msgs)) == Reverse(msgs)
  {
    if |msgs| > 0 {
      var s := EmitAll("", msgs);
      NewestFirst("", msgs);
      assert Split("", '\n') == [""];
      assert s != "" by {
        EmitStep("", msgs);
      }
      var parts := Split(s, '\n');
      assert parts == Reverse(msgs) + [""];
      assert parts[..|parts| - 1] == Reverse(msgs);
      assert SplitLines(s) == parts[..|parts| - 1];
    }
  }

  // ---------------------------------------------------------------------
  // SingleLineFormatter.format
  // ---------------------------------------------------------------------

  /** Splitting at the first newline and joining the halves again. */
  function FormatSingleLine(message: string): (r: string)
    ensures r == message
  {
    match FirstIndex(message, '\n')
    case None => message
    case Some(i) =>
      assert message == message[..i] + "\n" + message[i + 1..];
      message[..i] + "\n" + message[i + 1..]
  }

  // ---------------------------------------------------------------------
  // Logger names and file paths
  // ---------------------------------------------------------------------

  /** The logger `_central_getLogger(name)` hands out: the root logger for no name, "" or "root". */
  function ResolvedName(name: Option<string>): (r: string)
    ensures r == "root" <==> name.None? || name.value == "" || name.value == "root"
    ensures name.Some? && r != "root" ==> r == name.value
  {
    match name
    case None => "root"
    case Some(n) => if n == "" then "root" else n
  }

  /** The file a new logger writes: summary loggers under logs/summary, the rest with dots made underscores. */
  function LogPath(name: string): (r: string)
    ensures |r| >= 9
    ensures StartsWith(name, SummaryPrefix) ==> StartsWith(r, "logs/summary/")
    ensures !StartsWith(name, SummaryPrefix) ==> StartsWith(r, "logs/") && '.' !in r[5..|r| - 4]
    ensures r[|r| - 4..] == ".log"
    ensures StartsWith(name, SummaryPrefix) ==> r == "logs/summary/" + ReplaceAll(name, SummaryPrefix, "") + ".log"
    ensures !StartsWith(name, SummaryPrefix) ==> r == "logs/" + ReplaceChar(name, '.', '_') + ".log"
  {
    if StartsWith(name, SummaryPrefix) then
      "logs/summary/" + ReplaceAll(name, SummaryPrefix, "") + ".log"
    else
      var stem := ReplaceChar(name, '.', '_');
      var r := "logs/" + stem + ".log";
      assert r[5..|r| - 4] == stem;
      r
  }

  /** The file of an alert logger's own handler. */
  function AlertFile(name: string): (r: string)
    ensures StartsWith(r, "logs/alerts/") && r[|r| - 4..] == ".log"
    ensures r == "logs/alerts/" + ReplaceAll(name, AlertPrefix, "") + ".log"
  {
    "logs/alerts/" + ReplaceAll(name, AlertPrefix, "") + ".log"
  }

  lemma {:induction false} ReplaceAbsent(s: string, pat: string, rep: string)
    requires |pat| > 0 && !Contains(s, pat)
    ensures ReplaceAll(s, pat, rep) == s
    decreases |s|
  {
    if |s| > 0 {
      ReplaceAbsent(s[1..], pat, rep);
      assert [s[0]] + s[1..] == s;
    }
  }

  /** Removing every occurrence of a prefix that occurs only once leaves the rest. */
  lemma StripPrefix(prefix: string, rest: string)
    requires |prefix| > 0 && !Contains(rest, prefix)
    ensures ReplaceAll(prefix + rest, prefix, "") == rest
  {
    var s := prefix + rest;
    assert StartsWith(s, prefix);
    assert s[|prefix|..] == rest;
    ReplaceAbsent(rest, prefix, "");
  }

  lemma SummaryPath(rest: string)
    requires !Contains(rest, SummaryPrefix)
    ensures LogPath(SummaryPrefix + rest) == "logs/summary/" + rest + ".log"
  {
    StripPrefix(SummaryPrefix, rest);
    assert StartsWith(SummaryPrefix + rest, SummaryPrefix);
  }

  lemma AlertPath(rest: string)
    requires !Contains(rest, AlertPrefix)
    ensures AlertFile(AlertPrefix + rest) == "logs/alerts/" + rest + ".log"
  {
    StripPrefix(AlertPrefix, rest);
  }

  /** Two different loggers can share one file: "a.b" and "a_b" both write logs/a_b.log. */
  lemma DotAndUnderscoreShareFile()
    ensures LogPath("a.b") == LogPath("a_b") == "logs/a_b.log"
  {
    assert !StartsWith("a.b", SummaryPrefix);
    assert !StartsWith("a_b", SummaryPrefix);
    assert ReplaceChar("a.b", '.', '_') == "a_b";
    assert ReplaceChar("a_b", '.', '_') == "a_b";
  }

  // ---------------------------------------------------------------------
  // CentralLogger.__init__
  // ---------------------------------------------------------------------

  /** Some handler that is not a null handler carries the standard format. */
  predicate HasStandardFormatter(hs: seq<Handler>) {
    exists k :: 0 <= k < |hs| && hs[k].kind != NullSink && hs[k].format == Some(StandardFormat)
  }

  predicate HasPlainFile(hs: seq<Handler>) {
    exists k :: 0 <= k < |hs| && hs[k].kind == PlainFile
  }

  /** The handlers every logger must carry: the standard format somewhere, and no plain file handler. */
  predicate Compliant(hs: seq<Handler>) {
    HasStandardFormatter(hs) && !HasPlainFile(hs)
  }

  /**
   * A new logger: the root logger, or one that already has handlers, is
   * left alone; any other gets a console handler and, unless console-only,
   * a newest-first file handler, both in the standard format, and stops
   * propagating. A logger's handler list is always empty straight after
   * the base logger's constructor, so the `existing` branch cannot be
   * reached from `getLogger`; it is kept for the guard as written.
   */
  function CentralSetup(name: string, existing: seq<Handler>): (e: Entry)
    ensures e.Logger?
    ensures |existing| > 0 || name == "root" ==> e == Logger(existing, true)
    ensures |existing| == 0 && name != "root" ==>
      !e.propagate && Compliant(e.handlers) && |e.handlers| == 2 &&
      e.handlers[0] == Handler(Stream, None, Some(StandardFormat)) &&
      e.handlers[1] == Handler(PrependFile, Some(LogPath(name)), Some(StandardFormat))
  {
    if |existing| > 0 || name == "root" then Logger(existing, true)
    else
      var console := Handler(Stream, None, Some(StandardFormat));
      var file := if name in ConsoleOnly then [] else [Handler(PrependFile, Some(LogPath(name)), Some(StandardFormat))];
      assert ([console] + file)[0] == console;
      Logger([console] + file, false)
  }

  /** The registry after `getLogger(name)`: a missing or placeholder entry becomes a new CentralLogger. */
  function Register(reg: Registry, name: string): (r: Registry)
    ensures name != "root" ==> name in r && r[name].Logger?
    ensures name == "root" || (name in reg && reg[name].Logger?) ==> r == reg
    ensures r.Keys == reg.Keys + (if name == "root" then {} else {name})
    ensures forall n :: n in reg && n != name ==> r[n] == reg[n]
    ensures name != "root" && !(name in reg && reg[name].Logger?) ==> r[name] == CentralSetup(name, [])
  {
    if name == "root" || (name in reg && reg[name].Logger?) then reg
    else reg[name := CentralSetup(name, [])]
  }

  // ---------------------------------------------------------------------
  // validate_logger_count classification
  // ---------------------------------------------------------------------

  const ExpectedLoggers: set<string> := {
    "summary", "memory_monitor", "pure_json_fetch", "fetch_data",
    "merge_logic", "alerter_main", "orchestrator", "root",
    "summary_json", "logger_monitor"}
  const StandardLoggers: seq<string> := [
    "asyncio", "concurrent", "concurrent.futures",
    "aiohttp", "aiohttp.access", "aiohttp.client", "aiohttp.internal",
    "aiohttp.server", "aiohttp.web", "aiohttp.websocket",
    "dotenv", "dotenv.main", "urllib3", "requests", "chardet",
    "PIL", "parso", "jedi"]
  const ExpectedLoggerCount: nat := 40
  const MaxHandlers: nat := 4

  /** A logger name validate_logger_count does not report. */
  predicate Expected(name: string, alertLoggers: set<string>, testMode: bool) {
    name in ExpectedLoggers
    || StartsWith(name, SummaryPrefix)
    || StartsWith(name, AlertPrefix)
    || name in alertLoggers
    || name in ["orchestrate_complete", "alert_discovery", "alert"]
    || (exists std :: std in StandardLoggers && (name == std || StartsWith(name, std + ".")))
    || (testMode && (Contains(Lower(name), "test") || StartsWith(Lower(name), "test")))
  }

  function Unexpected(reg: Registry, alertLoggers: set<string>, testMode: bool): set<string> {
    set n | n in reg && !Expected(n, alertLoggers, testMode)
  }

  /** Unexpected names, or more loggers than the threshold allows. */
  predicate Flagged(reg: Registry, alertLoggers: set<string>, testMode: bool) {
    Unexpected(reg, alertLoggers, testMode) != {} || |reg| > ExpectedLoggerCount + 10
  }

  predicate HandlersWithinLimit(reg: Registry) {
    forall n :: n in reg && reg[n].Logger? ==> |reg[n].handlers| <= MaxHandlers
  }

  // ---------------------------------------------------------------------
  // Process-wide logging state
  // ---------------------------------------------------------------------

  class LoggingSystem {
    var configured: bool
    /** How many times the central dictionary configuration has been applied. */
    var configApplications: nat
    var alertLoggers: set<string>
    var registry: Registry
    var rootHandlers: seq<Handler>

    /**
     * The configuration is applied exactly once once configured, only a
     * configured system has alert loggers, and every configured alert
     * logger is a real logger (or the root logger).
     */
    ghost predicate Valid()
      reads this
    {
      configApplications == (if configured then 1 else 0)
      && (alertLoggers != {} ==> configured)
      && (forall n :: n in alertLoggers && ResolvedName(Some(n)) != "root" ==> n in registry && registry[n].Logger?)
    }

    constructor(registry: Registry)
      ensures Valid()
      ensures !configured && alertLoggers == {} && this.registry == registry && rootHandlers == []
    {
      configured := false;
      configApplications := 0;
      alertLoggers := {};
      this.registry := registry;
      rootHandlers := [];
    }

    /** configure_logging: applies the configuration the first time and is a no-op afterwards. */
    method ConfigureLogging()
      requires Valid()
      modifies this
      ensures Valid() && configured
      ensures old(configured) ==> configApplications == old(configApplications)
      ensures alertLoggers == old(alertLoggers) && registry == old(registry) && rootHandlers == old(rootHandlers)
    {
      if configured {
        return;
      }
      configApplications := configApplications + 1;
      configured := true;
    }

    /** `logging.getLogger(name)` once the central factory is in place. */
    method GetLogger(name: Option<string>) returns (resolved: string)
      requires Valid()
      modifies this
      ensures Valid() && configured
      ensures resolved == ResolvedName(name)
      ensures registry == Register(old(registry), resolved)
      ensures old(configured) ==> configApplications == old(configApplications)
      ensures alertLoggers == old(alertLoggers) && rootHandlers == old(rootHandlers)
    {
      if !configured {
        ConfigureLogging();
      }
      resolved := ResolvedName(name);
      if resolved != "root" && !(resolved in registry && registry[resolved].Logger?) {
        registry := registry[resolved := CentralSetup(resolved, [])];
      }
    }

    /**
     * configure_alert_logger: the first time a name is seen its logger gets
     * one newest-first handler writing the alert file; after that the call
     * changes nothing.
     */
    method ConfigureAlertLogger(name: string) returns (resolved: string)
      requires Valid()
      modifies this
      ensures Valid()
      ensures resolved == ResolvedName(Some(name))
      ensures alertLoggers == old(alertLoggers) + {name}
      ensures name in old(alertLoggers) ==>
        registry == old(registry) && rootHandlers == old(rootHandlers) && configApplications == old(configApplications)
      ensures name !in old(alertLoggers) && resolved == "root" ==>
        registry == old(registry) && rootHandlers == old(rootHandlers) + [AlertHandler(name)]
      ensures name !in old(alertLoggers) && resolved != "root" ==>
        rootHandlers == old(rootHandlers) &&
        var reg := Register(old(registry), resolved);
        registry == reg[resolved := reg[resolved].(handlers := reg[resolved].handlers + [AlertHandler(name)])]
    {
      if name in alertLoggers {
        resolved := GetLogger(Some(name));
        return;
      }
      resolved := GetLogger(Some(name));
      if resolved == "root" {
        rootHandlers := rootHandlers + [AlertHandler(name)];
      } else {
        var e := registry[resolved];
        registry := registry[resolved := e.(handlers := e.handlers + [AlertHandler(name)])];
      }
      alertLoggers := alertLoggers + {name};
    }

    /** cleanup_handlers: every registered logger is left without handlers; the root logger is not touched. */
    method CleanupHandlers()
      requires Valid()
      modifies this
      ensures Valid()
      ensures registry == Cleared(old(registry))
      ensures configured == old(configured) && alertLoggers == old(alertLoggers) && rootHandlers == old(rootHandlers)
    {
      ghost var before := registry;
      var todo := registry.Keys;
      while todo != {}
        invariant todo <= before.Keys && registry.Keys == before.Keys
        invariant forall n :: n in registry ==> registry[n] == (if n in todo then before[n] else Cleared(before)[n])
        invariant configured == old(configured) && configApplications == old(configApplications)
        invariant alertLoggers == old(alertLoggers) && rootHandlers == old(rootHandlers)
        decreases |todo|
      {
        var n :| n in todo;
        if registry[n].Logger? {
          registry := registry[n := registry[n].(handlers := [])];
        }
        todo := todo - {n};
      }
      assert registry == Cleared(before);
    }

    /**
     * validate_logger_count: fails when some logger has more than four
     * handlers, and in strict mode also when an unexpected logger exists or
     * there are more than fifty entries; outside strict mode those are only
     * warnings.
     */
    method ValidateLoggerCount(strict: bool, testMode: bool) returns (ok: bool)
      ensures ok <==> !(strict && Flagged(registry, alertLoggers, testMode)) && HandlersWithinLimit(registry)
    {
      var unexpected: set<string> := {};
      var todo := registry.Keys;
      while todo != {}
        invariant todo <= registry.Keys
        invariant unexpected == set n | n in registry && n !in todo && !Expected(n, alertLoggers, testMode)
        decreases |todo|
      {
        var n :| n in todo;
        if !Expected(n, alertLoggers, testMode) {
          unexpected := unexpected + {n};
        }
        todo := todo - {n};
      }
      if unexpected != {} || |registry| > ExpectedLoggerCount + 10 {
        if strict {
          return false;
        }
      }
      todo := registry.Keys;
      while todo != {}
        invariant todo <= registry.Keys
        invariant forall n :: n in registry && n !in todo && registry[n].Logger? ==> |registry[n].handlers| <= MaxHandlers
        decreases |todo|
      {
        var n :| n in todo;
        if registry[n].Logger? && |registry[n].handlers| > MaxHandlers {
          return false;
        }
        todo := todo - {n};
      }
      return true;
    }
  }

  function AlertHandler(name: string): Handler {
    Handler(PrependFile, Some(AlertFile(name)), Some(MessageFormat))
  }

  /** Every registered logger's handlers removed; placeholders and propagation untouched. */
  function Cleared(reg: Registry): (r: Registry)
    ensures r.Keys == reg.Keys
    ensures forall n :: n in r ==> r[n].Logger? == reg[n].Logger?
    ensures forall n :: n in r && r[n].Logger? ==> r[n].handlers == [] && r[n].propagate == reg[n].propagate
  {
    map n | n in reg :: if reg[n].Logger? then reg[n].(handlers := []) else reg[n]
  }

  /** An alert logger configured on a fresh name keeps a compliant handler list. */
  lemma AlertLoggerCompliant(name: string)
    requires name != "root"
    ensures Compliant(CentralSetup(name, []).handlers + [AlertHandler(name)])
  {
    var hs := CentralSetup(name, []).handlers;
    assert (hs + [AlertHandler(name)])[0] == hs[0];
  }
}
