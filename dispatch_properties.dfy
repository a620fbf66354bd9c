/**
 * What main promises, proved of the trace it produces (DataDefender.Trace,
 * which DataDefender.Run is proved to build).
 */
module DispatchProperties {
  import opened Wrappers
  import opened DataDefender

  /** A run ends either by reporting the time or by crashing, exactly once, and a crash is the last event. */
  predicate Ends(t: seq<Event>) {
    multiset(t)[ReportTime] + multiset(t)[Crash] == 1 &&
    (Crash in t ==> t[|t| - 1] == Crash)
  }

  lemma EndsAfter(prefix: seq<Event>, t: seq<Event>)
    requires Ends(t)
    requires ReportTime !in prefix && Crash !in prefix
    ensures Ends(prefix + t)
  {
    assert (prefix + t)[|prefix + t| - 1] == t[|t| - 1];
  }

  lemma BeforeAfter(prefix: seq<Event>, t: seq<Event>, a: Event, b: Event)
    requires b !in prefix
    requires a in prefix || Before(t, a, b)
    ensures Before(prefix + t, a, b)
  {
    var s := prefix + t;
    forall j | 0 <= j < |s| && s[j] == b
      ensures exists i :: 0 <= i < j && s[i] == a
    {
      assert forall k :: 0 <= k < |prefix| ==> s[k] == prefix[k];
      if a in prefix {
        var i :| 0 <= i < |prefix| && prefix[i] == a;
        assert s[i] == a;
      } else {
        assert t[j - |prefix|] == b;
        var i :| 0 <= i < j - |prefix| && t[i] == a;
        assert s[i + |prefix|] == a;
      }
    }
  }

  lemma EndingsEnd()
    ensures Ends(Reported) && Ends(Thrown) && Ends(ReturnedInside) && Ends(ThrownInside) && Ends(LeftInside)
  {
  }

  /** No event of t terminates the JVM. */
  ghost predicate NoExit(t: seq<Event>) {
    forall status :: Exit(status) !in t
  }

  lemma BeforeAbsent(t: seq<Event>, a: Event, b: Event)
    requires b !in t
    ensures Before(t, a, b)
  {
  }

  /** a occurs at position i and b does not occur up to there. */
  lemma BeforeAt(t: seq<Event>, i: nat, a: Event, b: Event)
    requires i < |t| && t[i] == a
    requires forall j :: 0 <= j <= i ==> t[j] != b
    ensures Before(t, a, b)
  {
  }

  /** An event that neither ends a run nor touches the factory, the help text or the exit status. */
  predicate Plain(e: Event) {
    e != ReportTime && e != Crash && e != OpenDb && e != CloseDb && e != ShowHelp && !e.Exit?
  }

  /** Once the factory is closed, only the time report or the crash can follow. */
  ghost predicate ClosedLast(t: seq<Event>) {
    forall i, j :: 0 <= i < j < |t| && t[i] == CloseDb ==> t[j] == ReportTime || t[j] == Crash
  }

  lemma ClosedLastAfter(prefix: seq<Event>, t: seq<Event>)
    requires CloseDb !in prefix && ClosedLast(t)
    ensures ClosedLast(prefix + t)
  {
    var s := prefix + t;
    forall i, j | 0 <= i < j < |s| && s[i] == CloseDb
      ensures s[j] == ReportTime || s[j] == Crash
    {
      assert forall k :: 0 <= k < |prefix| ==> s[k] == prefix[k];
      assert s[i] == t[i - |prefix|] && s[j] == t[j - |prefix|];
    }
  }

  /** What every way out of the try block has in common. */
  ghost predicate LeavesInside(t: seq<Event>) {
    Ends(t) && multiset(t)[CloseDb] == 1 && OpenDb !in t && ShowHelp !in t && NoExit(t)
  }

  lemma InsideEnding(body: seq<Event>, ending: seq<Event>)
    requires forall e :: e in body ==> Plain(e)
    requires ending == ReturnedInside || ending == ThrownInside || ending == LeftInside
    ensures LeavesInside(body + ending)
  {
    EndingsEnd();
    EndsAfter(body, ending);
    var t := body + ending;
    assert CloseDb !in body && OpenDb !in body && ShowHelp !in body;
    assert multiset(t)[CloseDb] == multiset(body)[CloseDb] + multiset(ending)[CloseDb];
  }

  /** The switch case body stays inside the open factory, and closes it once. */
  lemma CheckedRunInside(inv: Invocation, cmd: string, mode: char, load: Event, workflow: Workflow, requirement: bool)
    requires load.Load?
    ensures LeavesInside(CheckedRunTrace(inv, cmd, mode, load, workflow, requirement))
  {
    var body := [CheckProperties(cmd, mode)] + CaseSteps(inv, cmd, mode, load, workflow, requirement);
    assert forall e :: e in body ==> Plain(e);
    InsideEnding(body, CaseExit(inv, cmd, mode, load, workflow, requirement));
  }


  /** The only property check a switch case makes is its own, and it comes first. */
  lemma CheckedRunChecks(inv: Invocation, cmd: string, mode: char, load: Event, workflow: Workflow, requirement: bool)
    requires load.Load?
    ensures var t := CheckedRunTrace(inv, cmd, mode, load, workflow, requirement);
      t[0] == CheckProperties(cmd, mode) &&
      forall c, m :: CheckProperties(c, m) in t ==> c == cmd && m == mode
  {
  }

  lemma CheckedRunInvokes(inv: Invocation, cmd: string, mode: char, load: Event, workflow: Workflow, requirement: bool)
    requires load.Load?
    ensures var t := CheckedRunTrace(inv, cmd, mode, load, workflow, requirement);
      var runs := |inv.propertyCheck(cmd, mode)| == 0 && load !in inv.throwing;
      forall w :: multiset(t)[Invoke(w)] == if runs && w == workflow then 1 else 0
  {
    var steps := CaseSteps(inv, cmd, mode, load, workflow, requirement);
    var body := [CheckProperties(cmd, mode)] + steps;
    InvokesOf(body, CaseExit(inv, cmd, mode, load, workflow, requirement));
    assert multiset(body) == multiset([CheckProperties(cmd, mode)]) + multiset(steps);
    StepsInvokes(inv, cmd, mode, load, workflow, requirement);
  }

  lemma StepsInvokes(inv: Invocation, cmd: string, mode: char, load: Event, workflow: Workflow, requirement: bool)
    requires load.Load?
    ensures var steps := CaseSteps(inv, cmd, mode, load, workflow, requirement);
      var runs := |inv.propertyCheck(cmd, mode)| == 0 && load !in inv.throwing;
      forall w :: multiset(steps)[Invoke(w)] == if runs && w == workflow then 1 else 0
  {
    var steps := CaseSteps(inv, cmd, mode, load, workflow, requirement);
    if |inv.propertyCheck(cmd, mode)| > 0 || load in inv.throwing {
      assert forall w :: Invoke(w) !in steps;
    } else {
      assert steps == [load, Invoke(workflow)] || steps == [load, Invoke(workflow), CreateRequirement(RequirementFile)];
    }
  }


  /** The endings of a switch case run no workflow. */
  lemma InvokesOf(body: seq<Event>, ending: seq<Event>)
    requires ending == ReturnedInside || ending == ThrownInside || ending == LeftInside
    ensures forall w :: multiset(body + ending)[Invoke(w)] == multiset(body)[Invoke(w)]
  {
    assert multiset(body + ending) == multiset(body) + multiset(ending);
  }

  lemma CheckedRunOrder(inv: Invocation, cmd: string, mode: char, load: Event, workflow: Workflow, requirement: bool)
    requires load.Load?
    ensures var t := CheckedRunTrace(inv, cmd, mode, load, workflow, requirement);
      var create := CreateRequirement(RequirementFile);
      Before(t, CheckProperties(cmd, mode), load) &&
      Before(t, load, Invoke(workflow)) &&
      Before(t, Invoke(workflow), create)
  {
    var t := CheckedRunTrace(inv, cmd, mode, load, workflow, requirement);
    var errors := inv.propertyCheck(cmd, mode);
    var create := CreateRequirement(RequirementFile);
    var check := CheckProperties(cmd, mode);
    if |errors| > 0 {
      BeforeAbsent(t, check, load);
      BeforeAbsent(t, load, Invoke(workflow));
      BeforeAbsent(t, Invoke(workflow), create);
    } else {
      BeforeAt(t, 0, check, load);
      if load in inv.throwing {
        BeforeAbsent(t, load, Invoke(workflow));
        BeforeAbsent(t, Invoke(workflow), create);
      } else {
        BeforeAt(t, 1, load, Invoke(workflow));
        if Invoke(workflow) in inv.throwing || !requirement {
          BeforeAbsent(t, Invoke(workflow), create);
        } else {
          BeforeAt(t, 2, Invoke(workflow), create);
        }
      }
    }
  }

  /** Which steps of a switch case happen. */
  lemma CheckedRunSteps(inv: Invocation, cmd: string, mode: char, load: Event, workflow: Workflow, requirement: bool)
    requires load.Load?
    ensures var t := CheckedRunTrace(inv, cmd, mode, load, workflow, requirement);
      var errors := inv.propertyCheck(cmd, mode);
      (load in t <==> |errors| == 0) &&
      (|errors| > 0 ==> ShowErrors(errors) in t) &&
      (CreateRequirement(RequirementFile) in t <==>
         |errors| == 0 && load !in inv.throwing && Invoke(workflow) !in inv.throwing && requirement)
  {
  }

  // ---------------------------------------------------------------------
  // The switch
  // ---------------------------------------------------------------------

  /** The commands the switch has a case for. */
  predicate SwitchCase(cmd: string) {
    cmd == AnonymizeCommand || cmd == GenerateCommand || cmd == DatabaseDiscoveryCommand
  }

  lemma SwitchInside(inv: Invocation, line: CommandLine, cmd: string)
    requires cmd != FileDiscoveryCommand
    ensures var t := SwitchTrace(inv, line, cmd);
      Ends(t) && multiset(t)[CloseDb] == 1 && OpenDb !in t && NoExit(t)
  {
    match RouteOf(cmd, line)
    case Some(r) =>
      SwitchRoute(inv, line, cmd, r);
      CheckedRunInside(inv, cmd, r.mode, RouteLoad(cmd, line, r), r.workflow,
                       cmd == DatabaseDiscoveryCommand && line.requirement);
    case None =>
      EndingsEnd();
      if cmd != DatabaseDiscoveryCommand {
        EndsAfter([ShowHelp], LeftInside);
      }
  }

  /** A case body closes the factory only as its last step before the time report or the crash. */
  lemma CheckedRunClosedLast(inv: Invocation, cmd: string, mode: char, load: Event, workflow: Workflow, requirement: bool)
    requires load.Load?
    ensures ClosedLast(CheckedRunTrace(inv, cmd, mode, load, workflow, requirement))
  {
    var body := [CheckProperties(cmd, mode)] + CaseSteps(inv, cmd, mode, load, workflow, requirement);
    assert CloseDb !in body;
    ClosedLastAfter(body, CaseExit(inv, cmd, mode, load, workflow, requirement));
  }

  /** Whichever way the switch goes, nothing but the time report or the crash follows the close. */
  lemma SwitchClosedLast(inv: Invocation, line: CommandLine, cmd: string)
    requires cmd != FileDiscoveryCommand
    ensures ClosedLast(SwitchTrace(inv, line, cmd))
  {
    match RouteOf(cmd, line)
    case Some(r) =>
      SwitchRoute(inv, line, cmd, r);
      CheckedRunClosedLast(inv, cmd, r.mode, RouteLoad(cmd, line, r), r.workflow,
                           cmd == DatabaseDiscoveryCommand && line.requirement);
    case None =>
      if cmd != DatabaseDiscoveryCommand {
        ClosedLastAfter([ShowHelp], LeftInside);
      }
  }

  /** The switch shows help exactly when no case matches the command. */
  lemma SwitchHelp(inv: Invocation, line: CommandLine, cmd: string)
    requires cmd != FileDiscoveryCommand
    ensures ShowHelp in SwitchTrace(inv, line, cmd) <==> !SwitchCase(cmd)
  {
    match RouteOf(cmd, line)
    case Some(r) =>
      SwitchRoute(inv, line, cmd, r);
      CheckedRunInside(inv, cmd, r.mode, RouteLoad(cmd, line, r), r.workflow,
                       cmd == DatabaseDiscoveryCommand && line.requirement);
    case None =>
  }

  /** The switch runs the workflow CommandWorkflow names, once, and nothing else. */
  lemma SwitchInvokes(inv: Invocation, line: CommandLine, cmd: string)
    requires cmd != FileDiscoveryCommand && DatabaseReady(inv, line)
    ensures forall w :: multiset(SwitchTrace(inv, line, cmd))[Invoke(w)] ==
                        if CommandWorkflow(inv, line, cmd) == Some(w) then 1 else 0
  {
    match RouteOf(cmd, line)
    case Some(r) =>
      SwitchRoute(inv, line, cmd, r);
      CheckedRunInvokes(inv, cmd, r.mode, RouteLoad(cmd, line, r), r.workflow,
                        cmd == DatabaseDiscoveryCommand && line.requirement);
    case None =>
  }

  /** The case a command reaches, stated through its route. */
  lemma SwitchRoute(inv: Invocation, line: CommandLine, cmd: string, r: Route)
    requires cmd != FileDiscoveryCommand && RouteOf(cmd, line) == Some(r)
    ensures SwitchTrace(inv, line, cmd) ==
            CheckedRunTrace(inv, cmd, r.mode, RouteLoad(cmd, line, r), r.workflow,
                            cmd == DatabaseDiscoveryCommand && line.requirement)
  {
  }

  /** A property check in the switch is the one of the command's route. */
  lemma SwitchChecks(inv: Invocation, line: CommandLine, cmd: string)
    requires cmd != FileDiscoveryCommand
    ensures forall c, m :: CheckProperties(c, m) in SwitchTrace(inv, line, cmd) ==>
              RouteOf(cmd, line).Some? && c == cmd && m == RouteOf(cmd, line).value.mode
  {
    match RouteOf(cmd, line)
    case None =>
      assert SwitchTrace(inv, line, cmd) == LeftInside || SwitchTrace(inv, line, cmd) == [ShowHelp] + LeftInside;
    case Some(r) =>
      SwitchRoute(inv, line, cmd, r);
      CheckedRunChecks(inv, cmd, r.mode, RouteLoad(cmd, line, r), r.workflow,
                       cmd == DatabaseDiscoveryCommand && line.requirement);
  }

  /** A switch case checks its properties, loads its file, runs its workflow and may write the requirement, in that order. */
  lemma SwitchOrder(inv: Invocation, line: CommandLine, cmd: string, r: Route)
    requires cmd != FileDiscoveryCommand && RouteOf(cmd, line) == Some(r)
    ensures var t := SwitchTrace(inv, line, cmd);
      var errors := inv.propertyCheck(cmd, r.mode);
      var load := RouteLoad(cmd, line, r);
      CheckProperties(cmd, r.mode) in t &&
      (|errors| > 0 ==> ShowErrors(errors) in t) &&
      (load in t <==> |errors| == 0) &&
      (CreateRequirement(RequirementFile) in t <==>
         cmd == DatabaseDiscoveryCommand && line.requirement && |errors| == 0 &&
         load !in inv.throwing && Invoke(r.workflow) !in inv.throwing) &&
      Before(t, CheckProperties(cmd, r.mode), load) &&
      Before(t, load, Invoke(r.workflow)) &&
      Before(t, Invoke(r.workflow), CreateRequirement(RequirementFile))
  {
    var load := RouteLoad(cmd, line, r);
    var requirement := cmd == DatabaseDiscoveryCommand && line.requirement;
    SwitchRoute(inv, line, cmd, r);
    CheckedRunChecks(inv, cmd, r.mode, load, r.workflow, requirement);
    CheckedRunSteps(inv, cmd, r.mode, load, r.workflow, requirement);
    CheckedRunOrder(inv, cmd, r.mode, load, r.workflow, requirement);
  }

  // ---------------------------------------------------------------------
  // The database commands: gate, properties, factory, switch
  // ---------------------------------------------------------------------

  lemma FactoryNoExit(inv: Invocation, file: string, inside: seq<Event>)
    requires NoExit(inside)
    ensures NoExit(FactoryTrace(inv, file, inside))
  {
  }

  lemma FactoryEnds(inv: Invocation, file: string, inside: seq<Event>)
    requires Ends(inside)
    ensures Ends(FactoryTrace(inv, file, inside))
  {
    var errors := inv.databasePropertyCheck(file);
    var check := [CheckDatabaseProperties(file)];
    EndingsEnd();
    if |errors| > 0 {
      EndsAfter(check + [ShowErrors(errors)], Reported);
    } else if LoadDatabaseProperties(file) in inv.throwing {
      EndsAfter(check + [LoadDatabaseProperties(file)], Thrown);
    } else if OpenDb in inv.throwing {
      EndsAfter(check + [LoadDatabaseProperties(file), OpenDb], Thrown);
    } else {
      EndsAfter(check + [LoadDatabaseProperties(file), OpenDb], inside);
    }
  }

  /** The factory is opened at most once, and closed exactly when it was opened. */
  lemma FactoryCounts(inv: Invocation, file: string, inside: seq<Event>)
    requires multiset(inside)[CloseDb] == 1 && OpenDb !in inside
    ensures var t := FactoryTrace(inv, file, inside);
      multiset(t)[OpenDb] == (if |inv.databasePropertyCheck(file)| == 0 && LoadDatabaseProperties(file) !in inv.throwing then 1 else 0) &&
      multiset(t)[CloseDb] == (if FactoryOpens(inv, file) then 1 else 0) &&
      (ShowHelp in t <==> FactoryOpens(inv, file) && ShowHelp in inside)
  {
    var t := FactoryTrace(inv, file, inside);
    if FactoryOpens(inv, file) {
      var prefix := [CheckDatabaseProperties(file), LoadDatabaseProperties(file), OpenDb];
      assert multiset(t) == multiset(prefix) + multiset(inside);
    }
  }

  /** What happens while the factory is open comes after it was opened, and in its own order. */
  lemma FactoryOrder(inv: Invocation, file: string, inside: seq<Event>, a: Event, b: Event)
    requires b.CheckProperties? || b.Invoke? || b.CreateRequirement? || b == CloseDb
    requires a == OpenDb || Before(inside, a, b)
    ensures Before(FactoryTrace(inv, file, inside), a, b)
  {
    var t := FactoryTrace(inv, file, inside);
    if FactoryOpens(inv, file) {
      BeforeAfter([CheckDatabaseProperties(file)] + [LoadDatabaseProperties(file), OpenDb], inside, a, b);
    } else {
      BeforeAbsent(t, a, b);
    }
  }

  lemma DatabaseFactory(inv: Invocation, line: CommandLine, cmd: string)
    requires cmd != FileDiscoveryCommand
    ensures var t := DatabaseTrace(inv, line, cmd);
      var file := DatabasePropertiesFile(line);
      Ends(t) && NoExit(t) &&
      multiset(t)[OpenDb] == (if |inv.databasePropertyCheck(file)| == 0 && LoadDatabaseProperties(file) !in inv.throwing then 1 else 0) &&
      multiset(t)[CloseDb] == (if DatabaseReady(inv, line) then 1 else 0) &&
      Before(t, OpenDb, CloseDb) && ClosedLast(t) &&
      (ShowHelp in t <==> DatabaseReady(inv, line) && !SwitchCase(cmd))
  {
    var file, inside := DatabasePropertiesFile(line), SwitchTrace(inv, line, cmd);
    SwitchInside(inv, line, cmd);
    SwitchHelp(inv, line, cmd);
    FactoryEnds(inv, file, inside);
    FactoryNoExit(inv, file, inside);
    FactoryCounts(inv, file, inside);
    FactoryOrder(inv, file, inside, OpenDb, CloseDb);
    SwitchClosedLast(inv, line, cmd);
    FactoryClosedLast(inv, file, inside);
  }

  /** The database gate adds no close of its own, so a close stays last. */
  lemma FactoryClosedLast(inv: Invocation, file: string, inside: seq<Event>)
    requires ClosedLast(inside)
    ensures ClosedLast(FactoryTrace(inv, file, inside))
  {
    if FactoryOpens(inv, file) {
      ClosedLastAfter([CheckDatabaseProperties(file)] + [LoadDatabaseProperties(file), OpenDb], inside);
    }
  }

  /** A workflow runs only once the factory is open, as often as it runs inside. */
  lemma FactoryInvokes(inv: Invocation, file: string, inside: seq<Event>)
    ensures forall w :: multiset(FactoryTrace(inv, file, inside))[Invoke(w)] ==
                        if FactoryOpens(inv, file) then multiset(inside)[Invoke(w)] else 0
  {
    if FactoryOpens(inv, file) {
      var prefix := [CheckDatabaseProperties(file)] + [LoadDatabaseProperties(file), OpenDb];
      assert multiset(FactoryTrace(inv, file, inside)) == multiset(prefix) + multiset(inside);
    }
  }

  /** Once the factory is open, everything that happens inside shows in the trace. */
  lemma FactoryKeeps(inv: Invocation, file: string, inside: seq<Event>, e: Event)
    requires FactoryOpens(inv, file) && e in inside
    ensures e in FactoryTrace(inv, file, inside)
  {
  }

  /** Every property check and every workflow of a database command comes after the factory is opened. */
  lemma DatabaseGuards(inv: Invocation, line: CommandLine, cmd: string)
    ensures var t := DatabaseTrace(inv, line, cmd);
      (forall c, m :: Before(t, OpenDb, CheckProperties(c, m))) &&
      (forall w :: Before(t, OpenDb, Invoke(w)))
  {
    var file, inside := DatabasePropertiesFile(line), SwitchTrace(inv, line, cmd);
    forall c, m
      ensures Before(FactoryTrace(inv, file, inside), OpenDb, CheckProperties(c, m))
    {
      FactoryOrder(inv, file, inside, OpenDb, CheckProperties(c, m));
    }
    forall w
      ensures Before(FactoryTrace(inv, file, inside), OpenDb, Invoke(w))
    {
      FactoryOrder(inv, file, inside, OpenDb, Invoke(w));
    }
  }

  lemma DatabaseInvokes(inv: Invocation, line: CommandLine, cmd: string)
    requires cmd != FileDiscoveryCommand
    ensures forall w :: multiset(DatabaseTrace(inv, line, cmd))[Invoke(w)] ==
                        if CommandWorkflow(inv, line, cmd) == Some(w) then 1 else 0
  {
    FactoryInvokes(inv, DatabasePropertiesFile(line), SwitchTrace(inv, line, cmd));
    if DatabaseReady(inv, line) {
      SwitchInvokes(inv, line, cmd);
    }
  }

  /** The database gate, the factory, then the switch case of the command's route, in that order. */
  lemma DatabaseSteps(inv: Invocation, line: CommandLine, cmd: string, r: Route)
    requires cmd != FileDiscoveryCommand && RouteOf(cmd, line) == Some(r) && DatabaseReady(inv, line)
    ensures var t := DatabaseTrace(inv, line, cmd);
      var errors := inv.propertyCheck(cmd, r.mode);
      var load := RouteLoad(cmd, line, r);
      CheckProperties(cmd, r.mode) in t &&
      (|errors| > 0 ==> ShowErrors(errors) in t) &&
      (load in t <==> |errors| == 0) &&
      (CreateRequirement(RequirementFile) in t <==>
         cmd == DatabaseDiscoveryCommand && line.requirement && |errors| == 0 &&
         load !in inv.throwing && Invoke(r.workflow) !in inv.throwing)
  {
    var file, inside := DatabasePropertiesFile(line), SwitchTrace(inv, line, cmd);
    var errors := inv.propertyCheck(cmd, r.mode);
    var create := CreateRequirement(RequirementFile);
    SwitchOrder(inv, line, cmd, r);
    FactoryKeeps(inv, file, inside, CheckProperties(cmd, r.mode));
    if |errors| > 0 {
      FactoryKeeps(inv, file, inside, ShowErrors(errors));
    } else {
      FactoryKeeps(inv, file, inside, RouteLoad(cmd, line, r));
    }
    if create in inside {
      FactoryKeeps(inv, file, inside, create);
    }
    FactoryOnlyInside(inv, file, inside, create);
    FactoryOnlyInside(inv, file, inside, RouteLoad(cmd, line, r));
  }

  lemma DatabaseOrder(inv: Invocation, line: CommandLine, cmd: string, r: Route)
    requires cmd != FileDiscoveryCommand && RouteOf(cmd, line) == Some(r) && DatabaseReady(inv, line)
    ensures var t := DatabaseTrace(inv, line, cmd);
      Before(t, CheckProperties(cmd, r.mode), Invoke(r.workflow)) &&
      Before(t, RouteLoad(cmd, line, r), Invoke(r.workflow)) &&
      Before(t, Invoke(r.workflow), CreateRequirement(RequirementFile))
  {
    var file, inside := DatabasePropertiesFile(line), SwitchTrace(inv, line, cmd);
    var load := RouteLoad(cmd, line, r);
    SwitchOrder(inv, line, cmd, r);
    assert Before(inside, CheckProperties(cmd, r.mode), Invoke(r.workflow)) by {
      if Invoke(r.workflow) in inside {
        BeforeTransitive(inside, CheckProperties(cmd, r.mode), load, Invoke(r.workflow));
      } else {
        BeforeAbsent(inside, CheckProperties(cmd, r.mode), Invoke(r.workflow));
      }
    }
    FactoryOrder(inv, file, inside, CheckProperties(cmd, r.mode), Invoke(r.workflow));
    FactoryOrder(inv, file, inside, load, Invoke(r.workflow));
    FactoryOrder(inv, file, inside, Invoke(r.workflow), CreateRequirement(RequirementFile));
  }


  lemma BeforeTransitive(t: seq<Event>, a: Event, b: Event, c: Event)
    requires Before(t, a, b) && Before(t, b, c)
    ensures Before(t, a, c)
  {
    forall j | 0 <= j < |t| && t[j] == c
      ensures exists i :: 0 <= i < j && t[i] == a
    {
      var k :| 0 <= k < j && t[k] == b;
      var i :| 0 <= i < k && t[i] == a;
    }
  }

  // ---------------------------------------------------------------------
  // file-discovery
  // ---------------------------------------------------------------------

  lemma FileDiscoveryEnds(inv: Invocation, line: CommandLine)
    ensures Ends(FileDiscoveryTrace(inv, line))
  {
    var errors := inv.propertyCheck(FileDiscoveryCommand, ' ');
    var load := LoadFromClassPath(line.OptionValue('F', DefaultFileDiscoveryProperties));
    var check := [CheckProperties(FileDiscoveryCommand, ' ')];
    EndingsEnd();
    if |errors| > 0 {
      EndsAfter(check + [ShowErrors(errors)], Reported);
    } else if load in inv.throwing {
      EndsAfter(check + [load], Thrown);
    } else if Invoke(FileDiscoverer) in inv.throwing {
      EndsAfter(check + [load, Invoke(FileDiscoverer)], Thrown);
    } else {
      EndsAfter(check + [load, Invoke(FileDiscoverer)], Reported);
    }
  }

  /** File discovery never touches the database, the help text, the requirement file or the exit status. */
  lemma FileDiscoveryEvents(inv: Invocation, line: CommandLine)
    ensures var t := FileDiscoveryTrace(inv, line);
      NoExit(t) && ShowHelp !in t && CreateRequirement(RequirementFile) !in t &&
      forall e :: e in t ==> !IsDatabaseEvent(e)
  {
  }

  lemma FileDiscoveryInvokes(inv: Invocation, line: CommandLine)
    ensures forall w :: multiset(FileDiscoveryTrace(inv, line))[Invoke(w)] ==
                        if CommandWorkflow(inv, line, FileDiscoveryCommand) == Some(w) then 1 else 0
  {
  }

  lemma FileDiscoverySteps(inv: Invocation, line: CommandLine)
    ensures var t := FileDiscoveryTrace(inv, line);
      var errors := inv.propertyCheck(FileDiscoveryCommand, ' ');
      var load := LoadFromClassPath(line.OptionValue('F', DefaultFileDiscoveryProperties));
      CheckProperties(FileDiscoveryCommand, ' ') in t &&
      (|errors| > 0 ==> ShowErrors(errors) in t) &&
      (load in t <==> |errors| == 0) &&
      (forall c, m :: CheckProperties(c, m) in t ==> c == FileDiscoveryCommand && m == ' ')
  {
  }

  lemma FileDiscoveryOrder(inv: Invocation, line: CommandLine)
    ensures var t := FileDiscoveryTrace(inv, line);
      var load := LoadFromClassPath(line.OptionValue('F', DefaultFileDiscoveryProperties));
      var check := CheckProperties(FileDiscoveryCommand, ' ');
      Before(t, check, load) &&
      Before(t, check, Invoke(FileDiscoverer)) &&
      Before(t, load, Invoke(FileDiscoverer))
  {
    var t := FileDiscoveryTrace(inv, line);
    var errors := inv.propertyCheck(FileDiscoveryCommand, ' ');
    var load := LoadFromClassPath(line.OptionValue('F', DefaultFileDiscoveryProperties));
    var check := CheckProperties(FileDiscoveryCommand, ' ');
    if |errors| > 0 {
      BeforeAbsent(t, check, load);
    } else {
      BeforeAt(t, 0, check, load);
    }
    if |errors| > 0 || load in inv.throwing {
      BeforeAbsent(t, check, Invoke(FileDiscoverer));
      BeforeAbsent(t, load, Invoke(FileDiscoverer));
    } else {
      BeforeAt(t, 0, check, Invoke(FileDiscoverer));
      BeforeAt(t, 1, load, Invoke(FileDiscoverer));
    }
  }


  // ---------------------------------------------------------------------
  // What main promises
  // ---------------------------------------------------------------------

  /** Another instance holds the lock: the time is reported and the JVM exits with status 1, and nothing else happens. */
  lemma LockGate(inv: Invocation)
    requires inv.lockActive
    ensures Trace(inv) == [ReportTime, Exit(1)]
  {
  }

  /** A command line that fails to parse shows help, then main dereferences null. */
  lemma ParseFailureCrashes(inv: Invocation)
    requires !inv.lockActive && inv.parsed.None?
    ensures Trace(inv) == [ShowHelp, Crash]
  {
  }

  /** -h, no arguments or no command: help, the time, and nothing else. */
  lemma HelpGate(inv: Invocation)
    requires !inv.lockActive && inv.parsed.Some? && HelpRequested(inv.argCount, inv.parsed.value)
    ensures Trace(inv) == [ShowHelp, ReportTime]
  {
  }

  /** Past the gates, the log level is set first and the rest is the command's. */
  lemma Dispatched(inv: Invocation)
    requires Dispatches(inv)
    ensures Trace(inv) == [SetLogLevel(LevelOf(inv.parsed.value))] + CommandTrace(inv, inv.parsed.value, Cmd(inv))
  {
  }

  /** Every run that does not crash reports the elapsed time exactly once; a crash reports nothing and ends the trace. */
  lemma TimeReportedOnce(inv: Invocation)
    ensures Ends(Trace(inv))
  {
    EndingsEnd();
    if inv.lockActive {
    } else if inv.parsed.None? {
      EndsAfter([ShowHelp], Thrown);
    } else if HelpRequested(inv.argCount, inv.parsed.value) {
      EndsAfter([ShowHelp], Reported);
    } else {
      var line, cmd := inv.parsed.value, Cmd(inv);
      if cmd == FileDiscoveryCommand {
        FileDiscoveryEnds(inv, line);
      } else {
        DatabaseFactory(inv, line, cmd);
      }
      Dispatched(inv);
      EndsAfter([SetLogLevel(LevelOf(line))], CommandTrace(inv, line, cmd));
    }
  }

  /** main calls System.exit exactly when the lock is held, and always with status 1. */
  lemma ExitOnlyOnLock(inv: Invocation)
    ensures forall status :: Exit(status) in Trace(inv) <==> inv.lockActive && status == 1
  {
    if Dispatches(inv) {
      var line, cmd := inv.parsed.value, Cmd(inv);
      if cmd == FileDiscoveryCommand {
        FileDiscoveryEvents(inv, line);
      } else {
        DatabaseFactory(inv, line, cmd);
      }
      Dispatched(inv);
    }
  }

  /** The workflow main runs, and how often, is exactly what the dispatch table gives. */
  lemma WorkflowMatchesDispatchTable(inv: Invocation)
    ensures forall w :: multiset(Trace(inv))[Invoke(w)] == if ExpectedWorkflow(inv) == Some(w) then 1 else 0
  {
    if Dispatches(inv) {
      var line, cmd := inv.parsed.value, Cmd(inv);
      if cmd == FileDiscoveryCommand {
        FileDiscoveryInvokes(inv, line);
      } else {
        DatabaseInvokes(inv, line, cmd);
      }
      Dispatched(inv);
      assert multiset(Trace(inv)) == multiset([SetLogLevel(LevelOf(line))]) + multiset(CommandTrace(inv, line, cmd));
    }
  }

  /** A workflow runs only after its command's property check and the load of its property file. */
  lemma WorkflowAfterItsProperties(inv: Invocation, w: Workflow)
    requires ExpectedWorkflow(inv) == Some(w)
    ensures var line, cmd := inv.parsed.value, Cmd(inv);
      var r := RouteOf(cmd, line).value;
      var t := Trace(inv);
      RouteLoad(cmd, line, r) in t &&
      Before(t, CheckProperties(cmd, r.mode), Invoke(w)) &&
      Before(t, RouteLoad(cmd, line, r), Invoke(w))
  {
    var line, cmd := inv.parsed.value, Cmd(inv);
    var r := RouteOf(cmd, line).value;
    var load := RouteLoad(cmd, line, r);
    if cmd == FileDiscoveryCommand {
      FileDiscoverySteps(inv, line);
      FileDiscoveryOrder(inv, line);
    } else {
      DatabaseSteps(inv, line, cmd, r);
      DatabaseOrder(inv, line, cmd, r);
    }
    Dispatched(inv);
    var prefix := [SetLogLevel(LevelOf(line))];
    BeforeAfter(prefix, CommandTrace(inv, line, cmd), CheckProperties(cmd, r.mode), Invoke(w));
    BeforeAfter(prefix, CommandTrace(inv, line, cmd), load, Invoke(w));
  }

  /** file-discovery neither checks nor loads the database properties, nor opens the factory. */
  lemma FileDiscoveryAvoidsDatabase(inv: Invocation)
    requires Dispatches(inv) && Cmd(inv) == FileDiscoveryCommand
    ensures forall e :: e in Trace(inv) ==> !IsDatabaseEvent(e)
  {
    FileDiscoveryEvents(inv, inv.parsed.value);
    Dispatched(inv);
  }

  /** A failing database property check stops every other command before anything is loaded or opened. */
  lemma DatabaseGateFirst(inv: Invocation)
    requires Dispatches(inv) && Cmd(inv) != FileDiscoveryCommand
    requires var file := DatabasePropertiesFile(inv.parsed.value); |inv.databasePropertyCheck(file)| > 0
    ensures var line := inv.parsed.value;
      var file := DatabasePropertiesFile(line);
      Trace(inv) == [SetLogLevel(LevelOf(line)), CheckDatabaseProperties(file),
                     ShowErrors(inv.databasePropertyCheck(file)), ReportTime]
  {
  }

  /** Every command-specific check and every workflow of a database command comes after the factory opens. */
  lemma FactoryBeforeCommandWork(inv: Invocation)
    requires Dispatches(inv) && Cmd(inv) != FileDiscoveryCommand
    ensures forall c, m :: Before(Trace(inv), OpenDb, CheckProperties(c, m))
    ensures forall w :: Before(Trace(inv), OpenDb, Invoke(w))
  {
    var line, cmd := inv.parsed.value, Cmd(inv);
    var prefix, rest := [SetLogLevel(LevelOf(line))], CommandTrace(inv, line, cmd);
    DatabaseGuards(inv, line, cmd);
    Dispatched(inv);
    forall c, m
      ensures Before(Trace(inv), OpenDb, CheckProperties(c, m))
    {
      BeforeAfter(prefix, rest, OpenDb, CheckProperties(c, m));
    }
    forall w
      ensures Before(Trace(inv), OpenDb, Invoke(w))
    {
      BeforeAfter(prefix, rest, OpenDb, Invoke(w));
    }
  }

  /** The factory is opened at most once and, unless opening it throws, closed once after it. */
  lemma FactoryClosedOnEveryExit(inv: Invocation)
    ensures var t := Trace(inv);
      multiset(t)[OpenDb] <= 1 &&
      multiset(t)[CloseDb] == (if OpenDb in t && OpenDb !in inv.throwing then 1 else 0) &&
      Before(t, OpenDb, CloseDb) &&
      ClosedLast(t)
  {
    if Dispatches(inv) {
      var line, cmd := inv.parsed.value, Cmd(inv);
      var prefix, rest := [SetLogLevel(LevelOf(line))], CommandTrace(inv, line, cmd);
      if cmd == FileDiscoveryCommand {
        FileDiscoveryEvents(inv, line);
        assert OpenDb !in rest && CloseDb !in rest;
      } else {
        DatabaseFactory(inv, line, cmd);
      }
      Dispatched(inv);
      assert multiset(Trace(inv)) == multiset(prefix) + multiset(rest);
      BeforeAfter(prefix, rest, OpenDb, CloseDb);
      ClosedLastAfter(prefix, rest);
    }
  }

  /** Outside the open factory only the gate happens: no command check, command file load, workflow or requirement file. */
  lemma FactoryOnlyInside(inv: Invocation, file: string, inside: seq<Event>, e: Event)
    requires e.CheckProperties? || e.Load? || e.Invoke? || e.CreateRequirement?
    ensures e in FactoryTrace(inv, file, inside) ==> FactoryOpens(inv, file) && e in inside
  {
  }

  /** Without a route, or without the database, a database command checks and runs nothing. */
  lemma DatabaseIdle(inv: Invocation, line: CommandLine, cmd: string, e: Event)
    requires cmd != FileDiscoveryCommand
    requires RouteOf(cmd, line).None? || !DatabaseReady(inv, line)
    requires e.CheckProperties? || e.Invoke? || e.CreateRequirement?
    ensures e !in DatabaseTrace(inv, line, cmd)
  {
    var inside := SwitchTrace(inv, line, cmd);
    if DatabaseReady(inv, line) {
      assert inside == LeftInside || inside == [ShowHelp] + LeftInside;
    }
    FactoryOnlyInside(inv, DatabasePropertiesFile(line), inside, e);
  }

  /** A failed command check is made and its errors are shown. */
  lemma FailedCheckShown(inv: Invocation, r: Route)
    requires Dispatches(inv) && RouteOf(Cmd(inv), inv.parsed.value) == Some(r)
    requires Cmd(inv) == FileDiscoveryCommand || DatabaseReady(inv, inv.parsed.value)
    requires |inv.propertyCheck(Cmd(inv), r.mode)| > 0
    ensures CheckProperties(Cmd(inv), r.mode) in Trace(inv)
    ensures ShowErrors(inv.propertyCheck(Cmd(inv), r.mode)) in Trace(inv)
  {
    var line, cmd := inv.parsed.value, Cmd(inv);
    if cmd == FileDiscoveryCommand {
      FileDiscoverySteps(inv, line);
      FileDiscoveryOrder(inv, line);
    } else {
      DatabaseSteps(inv, line, cmd, r);
    }
    Dispatched(inv);
  }

  /** A failed command check runs no workflow. */
  lemma FailedCheckRunsNothing(inv: Invocation, r: Route)
    requires Dispatches(inv) && RouteOf(Cmd(inv), inv.parsed.value) == Some(r)
    requires |inv.propertyCheck(Cmd(inv), r.mode)| > 0
    ensures forall w :: Invoke(w) !in Trace(inv)
  {
    assert ExpectedWorkflow(inv) == None;
    WorkflowMatchesDispatchTable(inv);
  }

  /** The requirement file is written exactly for database-discovery with -r, after its discoverer ran. */
  lemma RequirementAfterDiscovery(inv: Invocation)
    ensures CreateRequirement(RequirementFile) in Trace(inv) <==>
      Dispatches(inv) && Cmd(inv) == DatabaseDiscoveryCommand && inv.parsed.value.requirement &&
      ExpectedWorkflow(inv).Some? && Invoke(ExpectedWorkflow(inv).value) !in inv.throwing
    ensures ExpectedWorkflow(inv).Some? ==>
      Before(Trace(inv), Invoke(ExpectedWorkflow(inv).value), CreateRequirement(RequirementFile))
  {
    var create := CreateRequirement(RequirementFile);
    if Dispatches(inv) {
      var line, cmd := inv.parsed.value, Cmd(inv);
      var prefix, rest := [SetLogLevel(LevelOf(line))], CommandTrace(inv, line, cmd);
      Dispatched(inv);
      if cmd == FileDiscoveryCommand {
        FileDiscoveryEvents(inv, line);
        BeforeAbsent(Trace(inv), Invoke(FileDiscoverer), create);
      } else if RouteOf(cmd, line).Some? && DatabaseReady(inv, line) {
        var r := RouteOf(cmd, line).value;
        DatabaseSteps(inv, line, cmd, r);
        DatabaseOrder(inv, line, cmd, r);
        BeforeAfter(prefix, rest, Invoke(r.workflow), create);
      } else {
        DatabaseIdle(inv, line, cmd, create);
        BeforeAbsent(Trace(inv), Invoke(FileDiscoverer), create);
      }
    }
  }

  /** Help is shown by the help gate, after a parse failure, and for an unknown command once the factory is open. */
  lemma HelpShownWhen(inv: Invocation)
    ensures ShowHelp in Trace(inv) <==>
      !inv.lockActive &&
      (inv.parsed.None? || HelpRequested(inv.argCount, inv.parsed.value) ||
       (Dispatches(inv) && !IsCommand(Cmd(inv)) && DatabaseReady(inv, inv.parsed.value)))
  {
    if Dispatches(inv) {
      var line, cmd := inv.parsed.value, Cmd(inv);
      if cmd == FileDiscoveryCommand {
        FileDiscoveryEvents(inv, line);
      } else {
        DatabaseFactory(inv, line, cmd);
      }
      Dispatched(inv);
    }
  }

  /** An unknown command passes the database gate, opens the factory, shows help and closes it. */
  lemma UnknownCommandOpensFactory(inv: Invocation)
    requires Dispatches(inv) && !IsCommand(Cmd(inv)) && DatabaseReady(inv, inv.parsed.value)
    ensures var line := inv.parsed.value;
      var file := DatabasePropertiesFile(line);
      Trace(inv) == [SetLogLevel(LevelOf(line)), CheckDatabaseProperties(file), LoadDatabaseProperties(file), OpenDb,
                     ShowHelp, CloseDb, ReportTime]
  {
  }

  /** database-discovery without -c or -d opens and closes the factory and does nothing else. */
  lemma DiscoveryWithoutModeDoesNothing(inv: Invocation)
    requires Dispatches(inv) && Cmd(inv) == DatabaseDiscoveryCommand
    requires !inv.parsed.value.columns && !inv.parsed.value.data && DatabaseReady(inv, inv.parsed.value)
    ensures var line := inv.parsed.value;
      var file := DatabasePropertiesFile(line);
      Trace(inv) == [SetLogLevel(LevelOf(line)), CheckDatabaseProperties(file), LoadDatabaseProperties(file), OpenDb,
                     CloseDb, ReportTime]
  {
  }

  /** With -c, database-discovery never makes the data check nor runs the data discoverer, whatever -d says. */
  lemma ColumnsTakePrecedence(inv: Invocation)
    requires Dispatches(inv) && Cmd(inv) == DatabaseDiscoveryCommand && inv.parsed.value.columns
    ensures forall c :: CheckProperties(c, 'd') !in Trace(inv)
    ensures Invoke(DatabaseDiscoverer) !in Trace(inv)
  {
    var line, cmd := inv.parsed.value, Cmd(inv);
    var file, inside := DatabasePropertiesFile(line), SwitchTrace(inv, line, cmd);
    Dispatched(inv);
    SwitchChecks(inv, line, cmd);
    forall c
      ensures CheckProperties(c, 'd') !in Trace(inv)
    {
      FactoryOnlyInside(inv, file, inside, CheckProperties(c, 'd'));
    }
    WorkflowMatchesDispatchTable(inv);
  }

  /** Only the command itself is taken from the positional arguments: the table names after it change nothing. */
  lemma TableNamesNotForwarded(inv: Invocation, args: seq<string>)
    requires Dispatches(inv) && |args| >= 1 && args[0] == Cmd(inv)
    ensures Trace(inv.(parsed := Some(inv.parsed.value.(args := args)))) == Trace(inv)
  {
    var line := inv.parsed.value;
    SameCommand(inv, inv.(parsed := Some(line.(args := args))), line, args, Cmd(inv));
  }

  /** inv2 agrees with inv on everything the command's own steps depend on. */
  ghost predicate SameWorld(inv: Invocation, inv2: Invocation) {
    inv2.propertyCheck == inv.propertyCheck && inv2.databasePropertyCheck == inv.databasePropertyCheck &&
    inv2.throwing == inv.throwing
  }

  lemma SameCase(inv: Invocation, inv2: Invocation, cmd: string, mode: char, load: Event, workflow: Workflow, requirement: bool)
    requires SameWorld(inv, inv2)
    ensures CheckedRunTrace(inv2, cmd, mode, load, workflow, requirement) == CheckedRunTrace(inv, cmd, mode, load, workflow, requirement)
  {
    assert CaseSteps(inv2, cmd, mode, load, workflow, requirement) == CaseSteps(inv, cmd, mode, load, workflow, requirement);
    assert CaseExit(inv2, cmd, mode, load, workflow, requirement) == CaseExit(inv, cmd, mode, load, workflow, requirement);
  }

  lemma SameCommand(inv: Invocation, inv2: Invocation, line: CommandLine, args: seq<string>, cmd: string)
    requires SameWorld(inv, inv2)
    ensures CommandTrace(inv2, line.(args := args), cmd) == CommandTrace(inv, line, cmd)
  {
    var line2 := line.(args := args);
    if cmd == FileDiscoveryCommand {
      assert FileDiscoveryTrace(inv2, line2) == FileDiscoveryTrace(inv, line);
    } else {
      forall mode, load, workflow, requirement
        ensures CheckedRunTrace(inv2, cmd, mode, load, workflow, requirement) == CheckedRunTrace(inv, cmd, mode, load, workflow, requirement)
      {
        SameCase(inv, inv2, cmd, mode, load, workflow, requirement);
      }
      assert SwitchTrace(inv2, line2, cmd) == SwitchTrace(inv, line, cmd);
      var file := DatabasePropertiesFile(line);
      assert DatabasePropertiesFile(line2) == file;
      assert FactoryTrace(inv2, file, SwitchTrace(inv, line, cmd)) == FactoryTrace(inv, file, SwitchTrace(inv, line, cmd));
    }
  }

}
