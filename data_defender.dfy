/**
 * The entry point of DataDefender: the options it declares, the parsed
 * command line, the gated dispatch of `main` to exactly one workflow, and
 * the normalisation of table names.
 *
 * Everything `main` does to the outside world (the lock, help text,
 * property checks and loads, the database factory, the workflows, the
 * elapsed-time report, System.exit) is recorded as an Event in a trace.
 * Collaborators that may throw are described by the set of events that
 * throw when performed; a throw ends the trace with Crash.
 */
module DataDefender {
  import opened Wrappers
  import opened JavaStrings

  const FileDiscoveryCommand := "file-discovery"
  const DatabaseDiscoveryCommand := "database-discovery"
  const AnonymizeCommand := "anonymize"
  const GenerateCommand := "generate"

  const DefaultDatabaseProperties := "db.properties"
  const DefaultFileDiscoveryProperties := "filediscovery.properties"
  const DefaultAnonymizerProperties := "anonymizer.properties"
  const DefaultColumnProperties := "columndiscovery.properties"
  const DefaultDataProperties := "datadiscovery.properties"
  const RequirementFile := "Sample-Requirement.xml"
  const IncludeTablesKey := "include-tables"

  // ---------------------------------------------------------------------
  // Options and the parsed command line
  // ---------------------------------------------------------------------

  /** One entry of the Apache Commons CLI option set. */
  datatype OptionSpec = OptionSpec(name: string, longName: Option<string>, hasArg: bool)

  /** The options that take a property-file name as their value. */
  const ValueOptions: set<string> := {"A", "C", "D", "P", "F"}

  /** The documented options: each short name with its long name (debug has none). */
  const LongNames: map<string, Option<string>> := map[
    "h" := Some("help"), "A" := Some("anonymizer-properties"), "c" := Some("columns"),
    "C" := Some("column-properties"), "d" := Some("data"), "D" := Some("data-properties"),
    "r" := Some("requirement"), "P" := Some("database properties"),
    "F" := Some("file discovery properties"), "debug" := None]


  /**
   * Exactly the documented options, each under its own short name with
   * its long name, and taking a value exactly when it names a
   * property file.
   */
  predicate Documented(options: map<string, OptionSpec>) {
    options.Keys == LongNames.Keys &&
    forall n :: n in options ==> options[n] == OptionSpec(n, LongNames[n], n in ValueOptions)
  }

  /** A documented option set holds ten options, so the ten short names are distinct. */
  lemma TenOptions(options: map<string, OptionSpec>)
    requires Documented(options)
    ensures |options| == 10
  {
    LongNamesSize();
    assert |options| == |options.Keys|;
  }

  lemma LongNamesSize()
    ensures |LongNames.Keys| == 10
  {
  }

  /**
   * createOptions: builds the option set one addOption call at a time. An
   * Options object keeps its options by short name, so a second addOption
   * with the same name would replace the first; ten entries at the end
   * means the ten names are distinct.
   */
  method CreateOptions() returns (options: map<string, OptionSpec>)
    ensures Documented(options)
  {
    options := map[];
    options := options["h" := OptionSpec("h", Some("help"), false)];
    options := options["A" := OptionSpec("A", Some("anonymizer-properties"), true)];
    options := options["c" := OptionSpec("c", Some("columns"), false)];
    options := options["C" := OptionSpec("C", Some("column-properties"), true)];
    options := options["d" := OptionSpec("d", Some("data"), false)];
    options := options["D" := OptionSpec("D", Some("data-properties"), true)];
    options := options["r" := OptionSpec("r", Some("requirement"), false)];
    options := options["P" := OptionSpec("P", Some("database properties"), true)];
    options := options["F" := OptionSpec("F", Some("file discovery properties"), true)];
    options := options["debug" := OptionSpec("debug", None, false)];
  }

  /**
   * What the parser made of the arguments: the flags main asks about, the
   * values given to the property-file options, and the positional
   * arguments (the command followed by table names).
   */
  datatype CommandLine = CommandLine(
    help: bool,
    debug: bool,
    columns: bool,
    data: bool,
    requirement: bool,
    values: map<char, string>,
    args: seq<string>)
  {
    /** CommandLine.getOptionValue(opt, default). */
    function OptionValue(opt: char, default: string): string {
      if opt in values then values[opt] else default
    }
  }

  // ---------------------------------------------------------------------
  // Events and the abstract input of main
  // ---------------------------------------------------------------------

  datatype Level = Debug | Info

  datatype Workflow =
    | FileDiscoverer
    | DatabaseAnonymizer
    | DataGenerator
    | ColumnDiscoverer
    | DatabaseDiscoverer

  datatype Event =
    | ShowHelp
    | SetLogLevel(level: Level)
    | CheckProperties(command: string, mode: char)
    | CheckDatabaseProperties(file: string)
    | ShowErrors(errors: seq<string>)
    | LoadFromClassPath(file: string)
    | LoadDatabaseProperties(file: string)  // the -P file, before the factory opens
    | Load(file: string)                    // a command's own -A, -C or -D file
    | OpenDb
    | CloseDb
    | Invoke(workflow: Workflow)
    | CreateRequirement(file: string)
    | ReportTime
    | Exit(status: int)
    | Crash

  /**
   * Everything main depends on: whether another instance holds the lock,
   * the number of raw arguments, the parse outcome (None when parsing
   * failed), the answers of the two property checks, and which effects
   * throw.
   */
  datatype Invocation = Invocation(
    lockActive: bool,
    argCount: nat,
    parsed: Option<CommandLine>,
    propertyCheck: (string, char) -> seq<string>,
    databasePropertyCheck: string -> seq<string>,
    throwing: set<Event>)

  /** Events that touch the database layer. */
  predicate IsDatabaseEvent(e: Event) {
    e.CheckDatabaseProperties? || e.LoadDatabaseProperties? || e == OpenDb || e == CloseDb
  }

  /** Every occurrence of b in t comes after some occurrence of a. */
  ghost predicate Before(t: seq<Event>, a: Event, b: Event) {
    forall j :: 0 <= j < |t| && t[j] == b ==> exists i :: 0 <= i < j && t[i] == a
  }

  // ---------------------------------------------------------------------
  // The dispatch table main implements, stated on its own
  // ---------------------------------------------------------------------

  predicate HelpRequested(argCount: nat, line: CommandLine) {
    line.help || argCount == 0 || |line.args| < 1
  }

  /** main gets past the lock, the parse and the help gate. */
  predicate Dispatches(inv: Invocation) {
    !inv.lockActive && inv.parsed.Some? && !HelpRequested(inv.argCount, inv.parsed.value)
  }

  function Cmd(inv: Invocation): string
    requires Dispatches(inv)
  {
    inv.parsed.value.args[0]
  }

  predicate IsCommand(cmd: string) {
    cmd in {FileDiscoveryCommand, DatabaseDiscoveryCommand, AnonymizeCommand, GenerateCommand}
  }

  function DatabasePropertiesFile(line: CommandLine): string {
    line.OptionValue('P', DefaultDatabaseProperties)
  }

  /** The database property check passes and loading the properties and opening the factory do not throw. */
  predicate DatabaseReady(inv: Invocation, line: CommandLine) {
    FactoryOpens(inv, DatabasePropertiesFile(line))
  }

  predicate FactoryOpens(inv: Invocation, file: string) {
    |inv.databasePropertyCheck(file)| == 0 && LoadDatabaseProperties(file) !in inv.throwing && OpenDb !in inv.throwing
  }

  /** What a command needs: its check mode, its property-file option and default, and its workflow. */
  datatype Route = Route(mode: char, fileOption: char, defaultFile: string, workflow: Workflow)

  function RouteOf(cmd: string, line: CommandLine): Option<Route> {
    if cmd == FileDiscoveryCommand then
      Some(Route(' ', 'F', DefaultFileDiscoveryProperties, FileDiscoverer))
    else if cmd == AnonymizeCommand then
      Some(Route(' ', 'A', DefaultAnonymizerProperties, DatabaseAnonymizer))
    else if cmd == GenerateCommand then
      Some(Route(' ', 'A', DefaultAnonymizerProperties, DataGenerator))
    else if cmd == DatabaseDiscoveryCommand && line.columns then
      Some(Route('c', 'C', DefaultColumnProperties, ColumnDiscoverer))
    else if cmd == DatabaseDiscoveryCommand && line.data then
      Some(Route('d', 'D', DefaultDataProperties, DatabaseDiscoverer))
    else
      None
  }

  /** The load of a command's own property file (file discovery reads from the class path). */
  function RouteLoad(cmd: string, line: CommandLine, r: Route): Event {
    var file := line.OptionValue(r.fileOption, r.defaultFile);
    if cmd == FileDiscoveryCommand then LoadFromClassPath(file) else Load(file)
  }

  /** The workflow main runs for an invocation, if any. */
  function ExpectedWorkflow(inv: Invocation): Option<Workflow> {
    if !Dispatches(inv) then None else CommandWorkflow(inv, inv.parsed.value, Cmd(inv))
  }

  /**
   * The workflow a command runs: it has a route, the database is ready for
   * it (file discovery needs no database), its property check passes and
   * its property file loads.
   */
  function CommandWorkflow(inv: Invocation, line: CommandLine, cmd: string): Option<Workflow> {
    match RouteOf(cmd, line)
    case None => None
    case Some(r) =>
      if cmd != FileDiscoveryCommand && !DatabaseReady(inv, line) then None
      else if |inv.propertyCheck(cmd, r.mode)| > 0 then None
      else if RouteLoad(cmd, line, r) in inv.throwing then None
      else Some(r.workflow)
  }

  // ---------------------------------------------------------------------
  // getCommandLine and main
  // ---------------------------------------------------------------------

  /**
   * getCommandLine: a parse failure shows help and yields null; a
   * successful parse is returned as it is.
   */
  method GetCommandLine(trace: seq<Event>, parsed: Option<CommandLine>)
    returns (after: seq<Event>, line: Option<CommandLine>)
    ensures line == parsed
    ensures after == if parsed.None? then trace + [ShowHelp] else trace
  {
    after := trace;
    line := parsed;
    if parsed.None? {
      after := after + [ShowHelp];
    }
  }

  function LevelOf(line: CommandLine): Level {
    if line.debug then Debug else Info
  }

  // How a stage of main ends. Outside the try block: the time is reported, or
  // the exception propagates. Inside it the factory is closed on the way out:
  // a return has already reported the time, a throw propagates after the
  // close, and leaving the switch reports the time after the close.
  const Reported: seq<Event> := [ReportTime]
  const Thrown: seq<Event> := [Crash]
  const ReturnedInside: seq<Event> := [ReportTime, CloseDb]
  const ThrownInside: seq<Event> := [CloseDb, Crash]
  const LeftInside: seq<Event> := [CloseDb, ReportTime]

  /**
   * The trace main produces, stage by stage: the lock gate, the parse, the
   * help gate, the log level, then the command.
   */
  function Trace(inv: Invocation): seq<Event> {
    if inv.lockActive then [ReportTime, Exit(1)]
    else if inv.parsed.None? then [ShowHelp] + Thrown
    else if HelpRequested(inv.argCount, inv.parsed.value) then [ShowHelp] + Reported
    else
      var line := inv.parsed.value;
      [SetLogLevel(LevelOf(line))] + CommandTrace(inv, line, line.args[0])
  }

  /** From the choice of command on. */
  function CommandTrace(inv: Invocation, line: CommandLine, cmd: string): seq<Event> {
    if cmd == FileDiscoveryCommand then FileDiscoveryTrace(inv, line)
    else DatabaseTrace(inv, line, cmd)
  }

  function FileDiscoveryTrace(inv: Invocation, line: CommandLine): seq<Event> {
    var errors := inv.propertyCheck(FileDiscoveryCommand, ' ');
    var load := LoadFromClassPath(line.OptionValue('F', DefaultFileDiscoveryProperties));
    var check := [CheckProperties(FileDiscoveryCommand, ' ')];
    if |errors| > 0 then check + [ShowErrors(errors)] + Reported
    else if load in inv.throwing then check + [load] + Thrown
    else if Invoke(FileDiscoverer) in inv.throwing then check + [load, Invoke(FileDiscoverer)] + Thrown
    else check + [load, Invoke(FileDiscoverer)] + Reported
  }

  /** Every command but file discovery: the database gate, the properties, the factory, then the switch. */
  function DatabaseTrace(inv: Invocation, line: CommandLine, cmd: string): seq<Event> {
    FactoryTrace(inv, DatabasePropertiesFile(line), SwitchTrace(inv, line, cmd))
  }

  /** The database gate and the opening of the factory, around what happens while it is open. */
  function FactoryTrace(inv: Invocation, file: string, inside: seq<Event>): seq<Event> {
    var errors := inv.databasePropertyCheck(file);
    var check := [CheckDatabaseProperties(file)];
    if |errors| > 0 then check + [ShowErrors(errors)] + Reported
    else if LoadDatabaseProperties(file) in inv.throwing then check + [LoadDatabaseProperties(file)] + Thrown
    else if OpenDb in inv.throwing then check + [LoadDatabaseProperties(file), OpenDb] + Thrown
    else check + [LoadDatabaseProperties(file), OpenDb] + inside
  }

  /** The switch inside the try-with-resources block, and the way out of the block. */
  function SwitchTrace(inv: Invocation, line: CommandLine, cmd: string): seq<Event> {
    if cmd == AnonymizeCommand || cmd == GenerateCommand then
      var workflow := if cmd == AnonymizeCommand then DatabaseAnonymizer else DataGenerator;
      CheckedRunTrace(inv, cmd, ' ', Load(line.OptionValue('A', DefaultAnonymizerProperties)), workflow, false)
    else if cmd == DatabaseDiscoveryCommand then
      if line.columns then
        CheckedRunTrace(inv, cmd, 'c', Load(line.OptionValue('C', DefaultColumnProperties)),
                        ColumnDiscoverer, line.requirement)
      else if line.data then
        CheckedRunTrace(inv, cmd, 'd', Load(line.OptionValue('D', DefaultDataProperties)),
                        DatabaseDiscoverer, line.requirement)
      else LeftInside
    else [ShowHelp] + LeftInside
  }

  /**
   * One case of the switch: check the command's properties, take the
   * case's steps, then leave the try block.
   */
  function CheckedRunTrace(inv: Invocation, cmd: string, mode: char, load: Event,
                           workflow: Workflow, requirement: bool): seq<Event>
  {
    [CheckProperties(cmd, mode)] + CaseSteps(inv, cmd, mode, load, workflow, requirement)
      + CaseExit(inv, cmd, mode, load, workflow, requirement)
  }

  /**
   * The steps of a case after its property check: the errors when there are
   * any; otherwise load the file, run the workflow, and write the requirement
   * file when asked to, each step only when the one before did not throw.
   */
  function CaseSteps(inv: Invocation, cmd: string, mode: char, load: Event,
                     workflow: Workflow, requirement: bool): seq<Event>
  {
    var errors := inv.propertyCheck(cmd, mode);
    if |errors| > 0 then [ShowErrors(errors)]
    else if load in inv.throwing then [load]
    else if Invoke(workflow) in inv.throwing || !requirement then [load, Invoke(workflow)]
    else [load, Invoke(workflow), CreateRequirement(RequirementFile)]
  }

  /** How a case leaves the try block: returning on errors, by an exception, or by the break. */
  function CaseExit(inv: Invocation, cmd: string, mode: char, load: Event,
                    workflow: Workflow, requirement: bool): seq<Event>
  {
    if |inv.propertyCheck(cmd, mode)| > 0 then ReturnedInside
    else if load in inv.throwing || Invoke(workflow) in inv.throwing
         || (requirement && CreateRequirement(RequirementFile) in inv.throwing) then ThrownInside
    else LeftInside
  }


  /** main, step by step; the stages after the choice of command are the methods below. */
  method Run(inv: Invocation) returns (trace: seq<Event>)
    ensures trace == Trace(inv)
  {
    // new ApplicationLock("DataDefender").isAppActive(); System.exit ends the process
    if inv.lockActive {
      trace := [ReportTime, Exit(1)];
      return;
    }

    var options := CreateOptions();  // only used by the parser and the help text
    var parsed;
    trace, parsed := GetCommandLine([], inv.parsed);
    if parsed.None? {
      trace := trace + [Crash];  // line.getArgList() on a null line
      return;
    }
    var line := parsed.value;
    var unparsedArgs := line.args;

    if line.help || inv.argCount == 0 || |unparsedArgs| < 1 {
      trace := trace + [ShowHelp, ReportTime];
      return;
    }

    trace := trace + [SetLogLevel(if line.debug then Debug else Info)];

    var cmd := unparsedArgs[0];
    unparsedArgs := unparsedArgs[1..];  // the table names, not used again here

    var events;
    if cmd == FileDiscoveryCommand {
      events := FileDiscovery(inv, line);
    } else {
      events := DatabaseCommand(inv, line, cmd);
    }
    assert events == CommandTrace(inv, line, cmd);
    trace := trace + events;
  }

  /** The file-discovery branch of main. */
  method FileDiscovery(inv: Invocation, line: CommandLine) returns (events: seq<Event>)
    ensures events == FileDiscoveryTrace(inv, line)
  {
    var cmd := FileDiscoveryCommand;
    var errors := inv.propertyCheck(cmd, ' ');
    events := [CheckProperties(cmd, ' ')];
    if |errors| > 0 {
      events := events + [ShowErrors(errors), ReportTime];
      return;
    }
    var file := line.OptionValue('F', DefaultFileDiscoveryProperties);
    events := events + [LoadFromClassPath(file)];
    if LoadFromClassPath(file) in inv.throwing {
      events := events + [Crash];
      return;
    }
    events := events + [Invoke(FileDiscoverer)];
    if Invoke(FileDiscoverer) in inv.throwing {
      events := events + [Crash];
      return;
    }
    events := events + [ReportTime];
  }

  /** The rest of main for every other command: the database gate and the factory. */
  method DatabaseCommand(inv: Invocation, line: CommandLine, cmd: string) returns (events: seq<Event>)
    ensures events == DatabaseTrace(inv, line, cmd)
  {
    var dbPropertiesFile := line.OptionValue('P', DefaultDatabaseProperties);
    var errors := inv.databasePropertyCheck(dbPropertiesFile);
    events := [CheckDatabaseProperties(dbPropertiesFile)];
    if |errors| > 0 {
      events := events + [ShowErrors(errors), ReportTime];
      return;
    }
    events := events + [LoadDatabaseProperties(dbPropertiesFile)];
    if LoadDatabaseProperties(dbPropertiesFile) in inv.throwing {
      events := events + [Crash];
      return;
    }

    // try (IDBFactory dbFactory = IDBFactory.get(props)) { switch (cmd) { ... } }
    events := events + [OpenDb];
    if OpenDb in inv.throwing {
      events := events + [Crash];
      return;
    }
    var inner := Switch(inv, line, cmd);
    events := events + inner;
  }

  /** The switch inside the try-with-resources block, and the way out of the block. */
  method Switch(inv: Invocation, line: CommandLine, cmd: string) returns (events: seq<Event>)
    ensures events == SwitchTrace(inv, line, cmd)
  {
    match cmd {
      case "anonymize" =>
        events := CheckedRun(inv, cmd, ' ', line.OptionValue('A', DefaultAnonymizerProperties),
                             DatabaseAnonymizer, false);
      case "generate" =>
        events := CheckedRun(inv, cmd, ' ', line.OptionValue('A', DefaultAnonymizerProperties),
                             DataGenerator, false);
      case "database-discovery" =>
        if line.columns {
          events := CheckedRun(inv, cmd, 'c', line.OptionValue('C', DefaultColumnProperties),
                               ColumnDiscoverer, line.requirement);
        } else if line.data {
          events := CheckedRun(inv, cmd, 'd', line.OptionValue('D', DefaultDataProperties),
                               DatabaseDiscoverer, line.requirement);
        } else {
          events := [CloseDb, ReportTime];  // break: close, then report
        }
      case _ =>
        events := [ShowHelp, CloseDb, ReportTime];  // help(options); break
    }
  }

  /**
   * The body shared by the cases of the switch: check the command's
   * properties, load its file, run the workflow and, for the discoverers,
   * write the requirement file when -r is set.
   */
  method CheckedRun(inv: Invocation, cmd: string, mode: char, file: string,
                    workflow: Workflow, requirement: bool) returns (events: seq<Event>)
    ensures events == CheckedRunTrace(inv, cmd, mode, Load(file), workflow, requirement)
  {
    var errors := inv.propertyCheck(cmd, mode);
    events := [CheckProperties(cmd, mode)];
    if |errors| > 0 {
      events := events + [ShowErrors(errors), ReportTime, CloseDb];  // return, then close
      return;
    }
    events := events + [Load(file)];
    if Load(file) in inv.throwing {
      events := events + [CloseDb, Crash];
      return;
    }
    events := events + [Invoke(workflow)];
    if Invoke(workflow) in inv.throwing {
      events := events + [CloseDb, Crash];
      return;
    }
    if requirement {
      events := events + [CreateRequirement(RequirementFile)];
      if CreateRequirement(RequirementFile) in inv.throwing {
        events := events + [CloseDb, Crash];
        return;
      }
    }
    events := events + [CloseDb, ReportTime];  // break: close, then report
  }

  // ---------------------------------------------------------------------
  // getTableNames
  // ---------------------------------------------------------------------

  /**
   * The names getTableNames works from: the given list when it is not
   * empty, otherwise the include-tables property split on commas, or
   * nothing when that property is absent.
   */
  function SourceNames(tableNames: seq<string>, dbProperties: map<string, string>): seq<string> {
    if |tableNames| > 0 then tableNames
    else if IncludeTablesKey in dbProperties then Split(dbProperties[IncludeTablesKey], ',')
    else []
  }

  /** The lower-cased names, duplicates merged. */
  function LowerAll(names: seq<string>): set<string> {
    set s | s in names :: ToLower(s)
  }

  /** getTableNames: the lower-cased, deduplicated table names. */
  function GetTableNames(tableNames: seq<string>, dbProperties: map<string, string>): (tables: set<string>)
    ensures forall t :: t in tables ==> IsLowerCase(t)
    ensures forall t :: t in tables <==> exists s :: s in SourceNames(tableNames, dbProperties) && ToLower(s) == t
  {
    LowerAll(SourceNames(tableNames, dbProperties))
  }

  /** Merging duplicates never adds names: at most one table per source name. */
  lemma {:induction false} LowerAllSize(names: seq<string>)
    ensures |LowerAll(names)| <= |names|
  {
    if names != [] {
      var init := names[..|names| - 1];
      LowerAllSize(init);
      assert names == init + [names[|names| - 1]];
      assert LowerAll(names) == LowerAll(init) + {ToLower(names[|names| - 1])};
    }
  }

  lemma TableNamesBound(tableNames: seq<string>, dbProperties: map<string, string>)
    ensures |GetTableNames(tableNames, dbProperties)| <= |SourceNames(tableNames, dbProperties)|
    ensures |tableNames| > 0 ==> |GetTableNames(tableNames, dbProperties)| <= |tableNames|
  {
    LowerAllSize(SourceNames(tableNames, dbProperties));
  }

  /** A non-empty argument list decides alone: the include-tables property is not read. */
  lemma ArgumentsWin(tableNames: seq<string>, dbProperties: map<string, string>)
    requires |tableNames| > 0
    ensures GetTableNames(tableNames, dbProperties) == GetTableNames(tableNames, map[])
    ensures forall s :: s in tableNames ==> ToLower(s) in GetTableNames(tableNames, dbProperties)
  {
  }

  /** With no argument list, the include-tables property split on commas, or nothing when it is absent. */
  lemma PropertyFallback(dbProperties: map<string, string>)
    ensures IncludeTablesKey !in dbProperties ==> GetTableNames([], dbProperties) == {}
    ensures IncludeTablesKey in dbProperties ==>
      GetTableNames([], dbProperties) == LowerAll(Split(dbProperties[IncludeTablesKey], ','))
  {
  }

  /** A name read from the property never holds a comma, and is already its own lower case. */
  lemma PropertyNamesSeparated(dbProperties: map<string, string>)
    ensures forall t :: t in GetTableNames([], dbProperties) ==> ',' !in t && ToLower(t) == t
  {
    if IncludeTablesKey in dbProperties {
      var parts := Split(dbProperties[IncludeTablesKey], ',');
      forall t | t in GetTableNames([], dbProperties)
        ensures ',' !in t && ToLower(t) == t
      {
        var s :| s in parts && ToLower(s) == t;
        ToLowerKeeps(s, ',');
        ToLowerFixesLowerCase(t);
      }
    }
  }

  /**
   * An empty include-tables property yields one empty table name, not an
   * empty set, since a string without the separator splits to itself.
   */
  lemma EmptyPropertyGivesEmptyName()
    ensures GetTableNames([], map[IncludeTablesKey := ""]) == {""}
  {
    assert Split("", ',') == [""];
    assert ToLower("") == "";
  }
}
