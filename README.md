# DataDefender entry point and e-mail detector, in Dafny

DataDefender is a command-line tool. Its `main` takes one of four commands:

- `file-discovery`
- `anonymize`
- `generate`
- `database-discovery`, with `-c` for columns or `-d` for data, and `-r` to write a requirement file

This project models four things:

- how `main` gates and dispatches those commands;
- the option set it declares;
- how it reads the command line;
- how `getTableNames` normalises table names.

It also models the two `EmailDetector.detectEmail` overloads. Each one marks a match carrier as an e-mail match when the validator accepts a text.

Files:

- `wrappers.dfy`: `Option`, which stands in for a Java reference that may be null.
- `java_strings.dfy` (module `JavaStrings`): the two `String` operations `getTableNames` uses.
  - `toLowerCase(Locale.ENGLISH)` on ASCII letters.
  - `split(",")`. When the separator is absent, the result is the whole string. Otherwise trailing empty pieces are dropped.
- `data_defender.dfy` (module `DataDefender`):
  - `createOptions`, `getCommandLine`, `main` and `getTableNames`.
  - `main` is the method `Run`. Its stages are the methods `FileDiscovery`, `DatabaseCommand`, `Switch` and `CheckedRun`.
  - `Run` builds the trace of events that `main` causes. Each method is proved to build the trace that a specification function gives: `Trace`, `FileDiscoveryTrace`, `DatabaseTrace`/`FactoryTrace`, `SwitchTrace` and `CheckedRunTrace`.
  - `ExpectedWorkflow` states the dispatch table on its own, independently of the trace.
- `dispatch_properties.dfy` (module `DispatchProperties`): what `main` promises, proved as lemmas about `Trace`.
  - Outside the lock gate, every run either reports the elapsed time once or crashes once, a crash being its last event, and `System.exit` is never called.
  - The workflow that runs is the one the dispatch table names, and it runs once.
  - Each workflow runs after its own property check and property load.
  - The database factory is opened before any command check and is closed on every way out of the try block.
  - `-c` wins over `-d`.
  - The requirement file is written only after a discoverer runs.
- `metadata.dfy` (module `Metadata`): the two match carriers as classes with mutable fields.
- `email_detector.dfy` (module `EmailDetector`): both `detectEmail` overloads, as methods that update the carrier in place.

## How the model reads the source

- **Input record.** `Invocation` holds everything `main` depends on:
  - whether the lock is held;
  - `args.length`;
  - the parsed command line, or `None` when parsing failed;
  - the error lists of `PropertyCheck.check` and `PropertyCheck.checkDtabaseProperties`, as functions of their arguments;
  - the set of effects that throw.
- **Exceptions.** A throwing effect ends the trace with `Crash`.
  - Inside the try-with-resources block, the factory is closed first: `CloseDb, Crash`.
  - An early `return` inside the block reports the time and then closes the factory: `ReportTime, CloseDb`.
  - Leaving the switch closes the factory and then reports the time: `CloseDb, ReportTime`.
- **Parse failure.** `getCommandLine` shows help and returns null. `main` then calls `getArgList()` on that null, so the model ends the run with `ShowHelp, Crash`.
- **Table names.** `getTableNames` copies its list. When the list is empty, it falls back to `include-tables` split on `,`. The pieces are not trimmed, although its doc comment speaks of a "space separated" list: the model follows the code. An empty `include-tables` yields the one table name `""`.

## Model

| member | source | states |
|---|---|---|
| DataDefender.CreateOptions | src/main/java/com/strider/datadefender/DataDefender.java:70-93 | the option set holds exactly the documented short names h, A, c, C, d, D, r, P, F and debug, each with the long name its addOption call gives; an option takes a value iff it is A, C, D, P or F |
| DataDefender.TenOptions | src/main/java/com/strider/datadefender/DataDefender.java:72-90 | the option set has ten entries, so no addOption call replaced an earlier one |
| DataDefender.GetCommandLine | src/main/java/com/strider/datadefender/DataDefender.java:296-307 | a parse failure shows help and yields null; a successful parse is returned unchanged |
| DataDefender.Run | src/main/java/com/strider/datadefender/DataDefender.java:122-287 | main, step by step with its early returns, produces exactly the trace `Trace` specifies |
| DataDefender.FileDiscovery | src/main/java/com/strider/datadefender/DataDefender.java:163-181 | the file-discovery branch produces `FileDiscoveryTrace` |
| DataDefender.DatabaseCommand | src/main/java/com/strider/datadefender/DataDefender.java:183-286 | the database gate, property load, factory and switch produce `DatabaseTrace` |
| DataDefender.Switch | src/main/java/com/strider/datadefender/DataDefender.java:198-283 | the switch, including `-c` before `-d` and the default help, produces `SwitchTrace` |
| DataDefender.CheckedRun | src/main/java/com/strider/datadefender/DataDefender.java:236-254 | one case body: check, return on errors, load, run, optional requirement file; produces `CheckedRunTrace` |
| DataDefender.GetTableNames | src/main/java/com/strider/datadefender/DataDefender.java:324-346 | every table name is lower case; a name is in the result exactly when it lower-cases some source name |
| DataDefender.LowerAllSize | src/main/java/com/strider/datadefender/DataDefender.java:339-341 | lower-casing into a set never gives more names than the list had |
| DataDefender.TableNamesBound | src/main/java/com/strider/datadefender/DataDefender.java:324-346 | the result is no larger than the source list, or than the argument list when that is non-empty |
| DataDefender.ArgumentsWin | src/main/java/com/strider/datadefender/DataDefender.java:325-329 | a non-empty argument list alone decides the result; the database properties are ignored |
| DataDefender.PropertyFallback | src/main/java/com/strider/datadefender/DataDefender.java:329-336 | an empty list falls back to `include-tables` split on `,`, or to the empty set when it is absent |
| DataDefender.PropertyNamesSeparated | src/main/java/com/strider/datadefender/DataDefender.java:332-342 | names from the property hold no comma and are their own lower case |
| DataDefender.EmptyPropertyGivesEmptyName | src/main/java/com/strider/datadefender/DataDefender.java:332-336 | `include-tables=""` yields `{""}`, not the empty set |
| JavaStrings.LowerChar | src/main/java/com/strider/datadefender/DataDefender.java:340 | an ASCII capital moves to its small letter; every other character stays |
| JavaStrings.ToLower | src/main/java/com/strider/datadefender/DataDefender.java:340 | same length, lower case, character by character `LowerChar` |
| JavaStrings.ToLowerKeeps | src/main/java/com/strider/datadefender/DataDefender.java:340 | lower-casing adds no non-letter character, such as a comma |
| JavaStrings.ToLowerIdempotent | src/main/java/com/strider/datadefender/DataDefender.java:340 | lower-casing twice is lower-casing once |
| JavaStrings.ToLowerFixesLowerCase | src/main/java/com/strider/datadefender/DataDefender.java:340 | a lower-case string is its own lower case |
| JavaStrings.SplitAll | src/main/java/com/strider/datadefender/DataDefender.java:333 | at least one piece; no piece holds the separator; without a separator the string is its only piece |
| JavaStrings.JoinSplitAll | src/main/java/com/strider/datadefender/DataDefender.java:333 | joining the pieces with the separator rebuilds the string |
| JavaStrings.DropTrailingEmpty | src/main/java/com/strider/datadefender/DataDefender.java:333 | the result is a prefix; only empty pieces were dropped; its last piece is not empty |
| JavaStrings.Split | src/main/java/com/strider/datadefender/DataDefender.java:333 | the pieces hold no separator; they are a prefix of `SplitAll`'s pieces (which rebuild the string) followed only by empty pieces; with a separator present the last piece is non-empty; without one the string is the only piece |
| DispatchProperties.LockGate | src/main/java/com/strider/datadefender/DataDefender.java:129-135 | with the lock held: report the time, exit with status 1, nothing else |
| DispatchProperties.ExitOnlyOnLock | src/main/java/com/strider/datadefender/DataDefender.java:129-135 | `Exit(s)` occurs iff the lock is held and s is 1 |
| DispatchProperties.ParseFailureCrashes | src/main/java/com/strider/datadefender/DataDefender.java:139-142 | a failed parse shows help and then crashes on the null line |
| DispatchProperties.HelpGate | src/main/java/com/strider/datadefender/DataDefender.java:144-149 | `-h`, no arguments or no command: help, then the time, nothing else |
| DispatchProperties.Dispatched | src/main/java/com/strider/datadefender/DataDefender.java:151-163 | past the gates the log level is set first, then the command runs |
| DispatchProperties.TimeReportedOnce | src/main/java/com/strider/datadefender/DataDefender.java:122-287 | every run reports the time exactly once or crashes exactly once, and a crash is the last event |
| DispatchProperties.WorkflowMatchesDispatchTable | src/main/java/com/strider/datadefender/DataDefender.java:157-283 | each workflow runs once if `ExpectedWorkflow` names it and never otherwise |
| DispatchProperties.WorkflowAfterItsProperties | src/main/java/com/strider/datadefender/DataDefender.java:163-274 | a workflow that runs comes after its command's property check and the load of its F/A/C/D file |
| DispatchProperties.FileDiscoveryAvoidsDatabase | src/main/java/com/strider/datadefender/DataDefender.java:163-181 | file-discovery never checks or loads the database properties and never opens or closes the factory |
| DispatchProperties.DatabaseGateFirst | src/main/java/com/strider/datadefender/DataDefender.java:183-193 | failing database properties stop every other command before any load, factory or command check |
| DispatchProperties.FactoryBeforeCommandWork | src/main/java/com/strider/datadefender/DataDefender.java:195-200 | every command check and every workflow of a database command comes after the factory is opened |
| DispatchProperties.FactoryClosedOnEveryExit | src/main/java/com/strider/datadefender/DataDefender.java:197-286 | the factory is opened at most once; it is closed once, after opening, unless opening threw; after the close only the time report or the crash follows |
| DispatchProperties.FailedCheckShown | src/main/java/com/strider/datadefender/DataDefender.java:163-263 | a failed command check is made and its errors are shown |
| DispatchProperties.FailedCheckRunsNothing | src/main/java/com/strider/datadefender/DataDefender.java:199-263 | a failed command check runs no workflow |
| DispatchProperties.RequirementAfterDiscovery | src/main/java/com/strider/datadefender/DataDefender.java:235-277 | the requirement file is written iff database-discovery ran its discoverer with `-r` and the discoverer did not throw, and always after it |
| DispatchProperties.HelpShownWhen | src/main/java/com/strider/datadefender/DataDefender.java:137-282 | help appears iff parsing failed, the help gate fired, or an unknown command got past the database gate |
| DispatchProperties.UnknownCommandOpensFactory | src/main/java/com/strider/datadefender/DataDefender.java:279-286 | an unknown command loads the database properties, opens the factory, shows help and closes it |
| DispatchProperties.DiscoveryWithoutModeDoesNothing | src/main/java/com/strider/datadefender/DataDefender.java:235-277 | database-discovery without `-c`/`-d` opens and closes the factory and runs nothing |
| DispatchProperties.ColumnsTakePrecedence | src/main/java/com/strider/datadefender/DataDefender.java:236-255 | with `-c`, no `'d'` check is made and the data discoverer never runs |
| DispatchProperties.TableNamesNotForwarded | src/main/java/com/strider/datadefender/DataDefender.java:157-159 | the positional arguments after the command do not change the trace |
| DispatchProperties.CheckedRunInside | src/main/java/com/strider/datadefender/DataDefender.java:199-274 | a case body ends once, closes the factory once and never opens it, shows help or exits |
| DispatchProperties.CheckedRunChecks | src/main/java/com/strider/datadefender/DataDefender.java:199-274 | a case body makes only its own check, as its first event |
| DispatchProperties.CheckedRunInvokes | src/main/java/com/strider/datadefender/DataDefender.java:199-274 | a case body runs its workflow once when the check passes and the load does not throw |
| DispatchProperties.CheckedRunOrder | src/main/java/com/strider/datadefender/DataDefender.java:236-254 | check before load, load before the workflow, workflow before the requirement file |
| DispatchProperties.CheckedRunSteps | src/main/java/com/strider/datadefender/DataDefender.java:236-254 | the load happens iff the check passes; errors are shown; the requirement file is written iff all before it succeeded and `-r` is set |
| DispatchProperties.CheckedRunClosedLast | src/main/java/com/strider/datadefender/DataDefender.java:197-286 | in a case body the factory is closed after every step of the case; only the time report or the crash follows |
| DispatchProperties.SwitchClosedLast | src/main/java/com/strider/datadefender/DataDefender.java:197-286 | leaving the switch closes the factory after all its work; only the time report or the crash follows |
| DispatchProperties.SwitchInside | src/main/java/com/strider/datadefender/DataDefender.java:198-283 | the switch ends once, closes the factory once, never opens it and never exits |
| DispatchProperties.SwitchHelp | src/main/java/com/strider/datadefender/DataDefender.java:198-283 | the switch shows help iff the command matches none of its cases |
| DispatchProperties.SwitchInvokes | src/main/java/com/strider/datadefender/DataDefender.java:198-283 | with the database ready, the switch runs exactly the workflow `CommandWorkflow` names |
| DispatchProperties.SwitchRoute | src/main/java/com/strider/datadefender/DataDefender.java:198-275 | each routed command reaches the case body with its mode, file option, default and workflow |
| DispatchProperties.SwitchChecks | src/main/java/com/strider/datadefender/DataDefender.java:198-275 | the only check the switch makes is the one its route names |
| DispatchProperties.SwitchOrder | src/main/java/com/strider/datadefender/DataDefender.java:198-275 | the routed case checks, loads, runs and writes the requirement file in that order |
| DispatchProperties.FactoryNoExit | src/main/java/com/strider/datadefender/DataDefender.java:183-197 | the database gate never exits the JVM |
| DispatchProperties.FactoryEnds | src/main/java/com/strider/datadefender/DataDefender.java:183-197 | the database gate keeps "time reported once or crashed once" |
| DispatchProperties.FactoryCounts | src/main/java/com/strider/datadefender/DataDefender.java:183-197 | the factory opens once iff the check passes and the load does not throw; it closes iff it opened without throwing |
| DispatchProperties.FactoryClosedLast | src/main/java/com/strider/datadefender/DataDefender.java:183-197 | the database gate adds nothing after the close made inside the factory |
| DispatchProperties.FactoryOrder | src/main/java/com/strider/datadefender/DataDefender.java:195-200 | what happens inside the open factory keeps its order and follows the opening |
| DispatchProperties.FactoryInvokes | src/main/java/com/strider/datadefender/DataDefender.java:183-197 | workflows run only once the factory is open |
| DispatchProperties.FactoryKeeps | src/main/java/com/strider/datadefender/DataDefender.java:195-197 | once the factory is open, everything done inside appears |
| DispatchProperties.FactoryOnlyInside | src/main/java/com/strider/datadefender/DataDefender.java:183-197 | command checks, loads of a command's own A/C/D file, workflows and the requirement file happen only inside the open factory |
| DispatchProperties.DatabaseFactory | src/main/java/com/strider/datadefender/DataDefender.java:183-286 | the database commands end once, never exit, and close exactly the factory they opened, after everything done inside it |
| DispatchProperties.DatabaseGuards | src/main/java/com/strider/datadefender/DataDefender.java:195-275 | every command check and workflow follows the opening of the factory |
| DispatchProperties.DatabaseInvokes | src/main/java/com/strider/datadefender/DataDefender.java:183-283 | a database command runs exactly the workflow `CommandWorkflow` names |
| DispatchProperties.DatabaseSteps | src/main/java/com/strider/datadefender/DataDefender.java:183-275 | with the database ready, a routed command makes its check and shows its errors; its own file is loaded iff the check passed; the requirement file is written iff database-discovery with `-r` got past its discoverer |
| DispatchProperties.DatabaseOrder | src/main/java/com/strider/datadefender/DataDefender.java:183-275 | in a routed database command the check and the load come before the workflow, and the workflow before the requirement file |
| DispatchProperties.DatabaseIdle | src/main/java/com/strider/datadefender/DataDefender.java:183-283 | without a route or a ready database, no check, workflow or requirement file happens |
| DispatchProperties.FileDiscoveryEnds | src/main/java/com/strider/datadefender/DataDefender.java:163-181 | file-discovery reports the time once or crashes once |
| DispatchProperties.FileDiscoveryEvents | src/main/java/com/strider/datadefender/DataDefender.java:163-181 | file-discovery shows no help, writes no requirement file, exits nowhere and touches no database event |
| DispatchProperties.FileDiscoveryInvokes | src/main/java/com/strider/datadefender/DataDefender.java:163-181 | the file discoverer runs once exactly when `CommandWorkflow` names it |
| DispatchProperties.FileDiscoverySteps | src/main/java/com/strider/datadefender/DataDefender.java:163-181 | only the file-discovery check is made and its errors are shown; the class-path load of the F file happens iff the check passed |
| DispatchProperties.FileDiscoveryOrder | src/main/java/com/strider/datadefender/DataDefender.java:163-181 | the check comes before the class-path load of the F file, and both come before the discoverer |
| EmailDetector.EmailValue | src/main/java/com/strider/datadefender/specialcase/EmailDetector.java:44-48 | the validated string is the text when present (empty or not), and `""` for null |
| EmailDetector.NullLikeEmpty | src/main/java/com/strider/datadefender/specialcase/EmailDetector.java:44-48 | null and `""` are validated as the same string |
| EmailDetector.DetectEmailInFile | src/main/java/com/strider/datadefender/specialcase/EmailDetector.java:43-61 | non-null iff the validator accepts; then it is the same carrier with probability 1.0 and model "email"; otherwise no field changes; the file name never changes |
| EmailDetector.DetectEmailInColumn | src/main/java/com/strider/datadefender/specialcase/EmailDetector.java:63-78 | the same contract on the column carrier; schema, table and column never change |
| EmailDetector.OverloadsAgree | src/main/java/com/strider/datadefender/specialcase/EmailDetector.java:43-78 | for any text and any carriers, both overloads find an address in the same cases and set the same model |
| EmailDetector.DetectTwiceInFile | src/main/java/com/strider/datadefender/specialcase/EmailDetector.java:43-61 | a second file detection with the same text returns the same and leaves the carrier as one detection did |
| EmailDetector.DetectTwiceInColumn | src/main/java/com/strider/datadefender/specialcase/EmailDetector.java:63-78 | a second column detection with the same text returns the same and leaves the carrier as one detection did |
| Metadata.MatchMetaData.SetAverageProbability | src/main/java/com/strider/datadefender/specialcase/EmailDetector.java:72 | the setter writes only the probability |
| Metadata.MatchMetaData.SetModel | src/main/java/com/strider/datadefender/specialcase/EmailDetector.java:73 | the setter writes only the model |
| Metadata.FileMatchMetaData.SetAverageProbability | src/main/java/com/strider/datadefender/specialcase/EmailDetector.java:53 | the setter writes only the probability |
| Metadata.FileMatchMetaData.SetModel | src/main/java/com/strider/datadefender/specialcase/EmailDetector.java:54 | the setter writes only the model |

## Left out

- `ApplicationLock`: the lock is the boolean `lockActive`. Acquiring and releasing it is not part of this model.
- Apache Commons CLI:
  - Parsing is an input. The parse outcome is `parsed` and the argument count is `argCount`.
  - The help text is the one event `ShowHelp`.
  - `CreateOptions` drops the option descriptions. The options are a map from short name to option, as an `Options` object keeps them, so the order of the addOption calls, which only shapes the help text, is not modelled.
- `displayExecutionTime`: the wall clock, the division and the formatting are left out. The time report is the event `ReportTime`.
- Logging: the log4j messages are left out. The level choice is the event `SetLogLevel`.
- Collaborators are left out:
  - `PropertyCheck` is modelled as error lists.
  - `loadProperties`, `loadPropertiesFromClassPath`, `IDBFactory.get`/`close` and the workflows are modelled as recorded calls that may throw.
  - The properties they load and the `vendor` value passed to the discoverers are not modelled.
- DataDefender.Run: an exception thrown by `dbFactory.close()` itself is not modelled.
- DataDefender.Run: suppressed exceptions are not modelled.
- Constructing a workflow object is not modelled, since constructors are taken to have no visible effect.
- The Java sources of `MatchMetaData` and `FileMatchMetaData` are not part of this model; `metadata.dfy` declares the two classes with the fields the detector touches. Their identity fields here (schema, table and column; directory and file name) are representative, and a null model is `None`.
- `CommonUtils.isEmptyString` is not part of this model. It is taken to mean null or `""`.
- EmailDetector.DetectEmailInFile: `isValidEmail` is an uninterpreted parameter. Apache Commons `EmailValidator` is not part of this model, and no e-mail standard is claimed. The same holds for `DetectEmailInColumn`.
- EmailDetector.DetectEmailInFile: a null carrier is not modelled, because the carrier parameters are non-null class references. In the source the file overload dereferences the carrier first and so throws at once; the column overload returns null without touching a null carrier when the text is rejected, and throws only on a match. The same holds for `DetectEmailInColumn`.
- EmailDetector.DetectEmailInFile: the unused `EMAIL_REGEX`, `pattern` and `matcher` are not modelled.
- The doc comment on `isValidEmail` describes a different check. It is ignored.
- JavaStrings.ToLower: covers ASCII `A`-`Z` only. Java's full Unicode case mapping under `Locale.ENGLISH` is not modelled.
- JavaStrings.Split: models `String.split` for a separator that is one ordinary character, as `","` is. The regular-expression machinery is not modelled.
- `averageProbability` is a `real`. Only the constant 1.0 is ever written, so no floating-point arithmetic is modelled.
