/** FrameworkService: the base class of the dotnet and node services. It
    assembles command lines, creates the AppProcess for a command, classifies
    standard-error lines and turns a process exit into a status. */
module FrameworkService {
  import opened Wrappers
  import opened Text
  import opened Models

  /** FrameworkCommands.Any, the wildcard action key. */
  const AnyCommand: string := "*"

  /** What a concrete framework service (dotnet, node) supplies to the base
      class: the executable path, the FrameworkOptions table (which may be
      null) and the FrameworkWarningIndicators (empty unless overridden). */
  datatype FrameworkProfile = FrameworkProfile(
    exePath: string,
    frameworkOptions: Option<map<string, seq<string>>>,
    warningIndicators: seq<string>)

  /** The constructor's argument check: a null or white-space executable path
      throws ArgumentException. */
  function NewFrameworkService(exePath: Option<string>, frameworkOptions: Option<map<string, seq<string>>>,
                               warningIndicators: seq<string>): (r: Result<FrameworkProfile>)
    ensures r.Err? <==> IsNullOrWhiteSpace(exePath)
    ensures r.Err? ==> r.error == ArgumentException
    ensures r.Ok? ==> r.value.exePath == exePath.value && r.value.frameworkOptions == frameworkOptions
                      && r.value.warningIndicators == warningIndicators
  {
    if IsNullOrWhiteSpace(exePath) then Err(ArgumentException)
    else Ok(FrameworkProfile(exePath.value, frameworkOptions, warningIndicators))
  }

  // ---------------------------------------------------------------------------
  // Command construction

  /** A StringBuilder: text appended piece by piece. */
  class StringBuilder {
    var text: string

    constructor ()
      ensures text == ""
    {
      text := "";
    }

    method Append(s: string)
      modifies this
      ensures text == old(text) + s
    {
      text := text + s;
    }
  }

  /** The command after the project's override: project.Commands[command] when
      the project has an entry for it. */
  function ResolveCommand(command: string, project: Project): string {
    if command in project.commands then project.commands[command] else command
  }

  /** What one option entry contributes for the substituted command: ' ' and its
      values joined by ' ' when its key is "*" or the command, nothing otherwise. */
  function OptionPiece(command: string, entry: OptionEntry): string {
    if entry.0 == "*" || entry.0 == command then " " + Join(" ", entry.1) else ""
  }

  /** The text the foreach over project.Options appends. */
  function ProjectOptionsText(command: string, entries: seq<OptionEntry>): string {
    if |entries| == 0 then "" else OptionPiece(command, entries[0]) + ProjectOptionsText(command, entries[1..])
  }

  /** The text ApplyFrameworkOptions appends: the command's default list, then
      the wildcard list, and only if the table is non-null and non-empty. */
  function FrameworkOptionsText(command: string, frameworkOptions: Option<map<string, seq<string>>>): string {
    if frameworkOptions.None? || |frameworkOptions.value| == 0 then ""
    else
      var table := frameworkOptions.value;
      (if command in table then " " + Join(" ", table[command]) else "")
      + (if AnyCommand in table then " " + Join(" ", table[AnyCommand]) else "")
  }

  /** FormatAdditionalArguments: the remaining arguments joined by ' '. */
  function FormatAdditionalArguments(args: seq<string>): string {
    Join(" ", args)
  }

  /** The text appended for the remaining arguments: ' ' and their join, when
      there is at least one. */
  function RemainingText(args: seq<string>): string {
    if |args| > 0 then " " + FormatAdditionalArguments(args) else ""
  }

  /** The command line BuildCommand produces. */
  function CommandLine(command: string, project: Project, profile: FrameworkProfile, options: CommandOptions): string {
    var cmd := ResolveCommand(command, project);
    cmd + ProjectOptionsText(cmd, project.options) + FrameworkOptionsText(cmd, profile.frameworkOptions)
    + RemainingText(options.remainingArguments)
  }

  /** ApplyFrameworkOptions: append the framework's default options for the command. */
  method ApplyFrameworkOptions(builder: StringBuilder, command: string, profile: FrameworkProfile)
    modifies builder
    ensures builder.text == old(builder.text) + FrameworkOptionsText(command, profile.frameworkOptions)
  {
    var frameworkOptions := profile.frameworkOptions;
    if frameworkOptions.Some? && |frameworkOptions.value| > 0 {
      var table := frameworkOptions.value;
      if command in table {
        builder.Append(" ");
        builder.Append(Join(" ", table[command]));
      }
      if AnyCommand in table {
        builder.Append(" ");
        builder.Append(Join(" ", table[AnyCommand]));
      }
    }
  }

  /** The foreach over project.Options: for each entry whose key is "*" or the
      command, append ' ' and its values joined by ' '. */
  method AppendProjectOptions(builder: StringBuilder, command: string, entries: seq<OptionEntry>)
    modifies builder
    ensures builder.text == old(builder.text) + ProjectOptionsText(command, entries)
  {
    ghost var start := builder.text;
    var i := 0;
    while i < |entries|
      invariant 0 <= i <= |entries|
      invariant builder.text == start + ProjectOptionsText(command, entries[..i])
    {
      var entry := entries[i];
      ghost var done := ProjectOptionsText(command, entries[..i]);
      AppendOptionEntry(builder, command, entry);
      assert builder.text == (start + done) + OptionPiece(command, entry);
      assert entries[..i + 1] == entries[..i] + [entry];
      ProjectOptionsTextSnoc(command, entries[..i], entry);
      AppendAssociative(start, done, OptionPiece(command, entry));
      i := i + 1;
    }
    assert entries[..|entries|] == entries;
  }

  /** The body of that foreach for one entry. */
  method AppendOptionEntry(builder: StringBuilder, command: string, entry: OptionEntry)
    modifies builder
    ensures builder.text == old(builder.text) + OptionPiece(command, entry)
  {
    if entry.0 == "*" || entry.0 == command {
      builder.Append(" ");
      builder.Append(Join(" ", entry.1));
    }
  }

  /** BuildCommand: the substituted command, the matching project options in
      enumeration order, the framework defaults, the remaining arguments. */
  method BuildCommand(command: string, project: Project, profile: FrameworkProfile, options: CommandOptions)
    returns (r: string)
    ensures r == CommandLine(command, project, profile, options)
  {
    var cmd := command;
    if command in project.commands {
      cmd := project.commands[command];
    }
    assert cmd == ResolveCommand(command, project);
    var builder := new StringBuilder();
    builder.Append(cmd);
    assert builder.text == cmd;
    if |project.options| > 0 {
      AppendProjectOptions(builder, cmd, project.options);
    } else {
      assert cmd + ProjectOptionsText(cmd, project.options) == cmd;
    }
    ghost var withOptions := builder.text;
    assert withOptions == cmd + ProjectOptionsText(cmd, project.options);
    ApplyFrameworkOptions(builder, cmd, profile);
    ghost var withDefaults := builder.text;
    if |options.remainingArguments| > 0 {
      builder.Append(" ");
      builder.Append(FormatAdditionalArguments(options.remainingArguments));
      AppendAssociative(withDefaults, " ", FormatAdditionalArguments(options.remainingArguments));
    } else {
      assert withDefaults + RemainingText(options.remainingArguments) == withDefaults;
    }
    assert builder.text == withDefaults + RemainingText(options.remainingArguments);
    r := builder.text;
  }

  lemma AppendAssociative(a: string, b: string, c: string)
    ensures (a + b) + c == a + (b + c)
  {
  }

  /** One more entry appends its own piece. */
  lemma ProjectOptionsTextSnoc(command: string, entries: seq<OptionEntry>, entry: OptionEntry)
    ensures ProjectOptionsText(command, entries + [entry])
            == ProjectOptionsText(command, entries) + OptionPiece(command, entry)
  {
    ProjectOptionsTextAppend(command, entries, [entry]);
    assert ProjectOptionsText(command, [entry]) == OptionPiece(command, entry) + ProjectOptionsText(command, []);
  }

  /** Project options contribute entry by entry, in enumeration order. */
  lemma {:induction false} ProjectOptionsTextAppend(command: string, a: seq<OptionEntry>, b: seq<OptionEntry>)
    ensures ProjectOptionsText(command, a + b) == ProjectOptionsText(command, a) + ProjectOptionsText(command, b)
  {
    if |a| > 0 {
      assert (a + b)[1..] == a[1..] + b;
      ProjectOptionsTextAppend(command, a[1..], b);
    } else {
      assert a + b == b;
    }
  }

  /** An option entry whose key is neither "*" nor the command adds nothing:
      the project options text is that of the matching entries alone. */
  lemma {:induction false} ProjectOptionsTextMatchingOnly(command: string, entries: seq<OptionEntry>)
    ensures ProjectOptionsText(command, entries)
            == ProjectOptionsText(command, MatchingEntries(command, entries))
  {
    if |entries| > 0 {
      ProjectOptionsTextMatchingOnly(command, entries[1..]);
      var e := entries[0];
      if e.0 == "*" || e.0 == command {
        assert MatchingEntries(command, entries) == [e] + MatchingEntries(command, entries[1..]);
        ProjectOptionsTextAppend(command, [e], MatchingEntries(command, entries[1..]));
      }
    }
  }

  /** `a` is `b` with some elements dropped, the rest kept in order. */
  predicate IsSubsequence<T(==)>(a: seq<T>, b: seq<T>)
    decreases |b|
  {
    if |a| == 0 then true
    else if |b| == 0 then false
    else if a[0] == b[0] then IsSubsequence(a[1..], b[1..])
    else IsSubsequence(a, b[1..])
  }

  /** The entries whose key is "*" or the command, in order: every matching
      entry is kept, every other one dropped. */
  function MatchingEntries(command: string, entries: seq<OptionEntry>): (r: seq<OptionEntry>)
    ensures forall k :: 0 <= k < |r| ==> r[k].0 == "*" || r[k].0 == command
    ensures forall k :: 0 <= k < |entries| && (entries[k].0 == "*" || entries[k].0 == command) ==> entries[k] in r
    ensures IsSubsequence(r, entries) && |r| <= |entries|
  {
    if |entries| == 0 then []
    else
      var rest := MatchingEntries(command, entries[1..]);
      assert forall k :: 1 <= k < |entries| ==> entries[k] == entries[1..][k - 1];
      if entries[0].0 == "*" || entries[0].0 == command then
        assert ([entries[0]] + rest)[1..] == rest;
        [entries[0]] + rest
      else
        assert |rest| > 0 ==> rest[0] != entries[0];
        rest
  }

  /** With no matching entry the project options add nothing. */
  lemma {:induction false} ProjectOptionsTextNoMatch(command: string, entries: seq<OptionEntry>)
    requires forall k :: 0 <= k < |entries| ==> entries[k].0 != "*" && entries[k].0 != command
    ensures ProjectOptionsText(command, entries) == ""
  {
    if |entries| > 0 {
      ProjectOptionsTextNoMatch(command, entries[1..]);
    }
  }

  /** The command line begins with the project's override for the command
      when there is one, and with the command itself otherwise. */
  lemma CommandLineBegins(command: string, project: Project, profile: FrameworkProfile, options: CommandOptions)
    ensures var head := if command in project.commands then project.commands[command] else command;
            |head| <= |CommandLine(command, project, profile, options)|
            && CommandLine(command, project, profile, options)[..|head|] == head
  {
  }

  /** With no override, no matching option entry, no framework default for the
      command or "*" and no remaining argument, the command line is the command. */
  lemma CommandLineBare(command: string, project: Project, profile: FrameworkProfile, options: CommandOptions)
    requires command !in project.commands
    requires forall k :: 0 <= k < |project.options| ==> project.options[k].0 != "*" && project.options[k].0 != command
    requires profile.frameworkOptions.Some? ==>
               command !in profile.frameworkOptions.value && AnyCommand !in profile.frameworkOptions.value
    requires options.remainingArguments == []
    ensures CommandLine(command, project, profile, options) == command
  {
    ProjectOptionsTextNoMatch(command, project.options);
  }

  /** The remaining arguments come last, space-joined, and only when there is one. */
  lemma CommandLineRemainingLast(command: string, project: Project, profile: FrameworkProfile, options: CommandOptions)
    ensures var bare := CommandLine(command, project, profile, options.(remainingArguments := []));
            CommandLine(command, project, profile, options)
            == if options.remainingArguments == [] then bare
               else bare + " " + Join(" ", options.remainingArguments)
  {
  }

  /** The framework defaults are looked up with the substituted command and are
      appended after the project options: the command's list, then the wildcard
      list. Without a (non-empty) table nothing is appended. */
  lemma CommandLineFrameworkDefaults(command: string, project: Project, profile: FrameworkProfile, options: CommandOptions)
    requires options.remainingArguments == []
    ensures var cmd := ResolveCommand(command, project);
            var withoutDefaults := CommandLine(command, project, profile.(frameworkOptions := None), options);
            CommandLine(command, project, profile, options)
            == withoutDefaults
               + (if profile.frameworkOptions.Some? && cmd in profile.frameworkOptions.value
                  then " " + Join(" ", profile.frameworkOptions.value[cmd]) else "")
               + (if profile.frameworkOptions.Some? && AnyCommand in profile.frameworkOptions.value
                  then " " + Join(" ", profile.frameworkOptions.value[AnyCommand]) else "")
  {
  }

  /** Both a wildcard entry and an entry for the action are appended, in
      enumeration order: an action-specific entry does not suppress "*". */
  lemma ActionEntryKeepsWildcard(command: string, anyValues: seq<string>, actionValues: seq<string>,
                                 project: Project, profile: FrameworkProfile, options: CommandOptions)
    requires command !in project.commands
    requires project.options == [(AnyCommand, anyValues), (command, actionValues)]
    requires profile.frameworkOptions.None?
    requires options.remainingArguments == []
    ensures CommandLine(command, project, profile, options)
            == command + " " + Join(" ", anyValues) + " " + Join(" ", actionValues)
  {
    var entries := project.options;
    var any := " " + Join(" ", anyValues);
    var action := " " + Join(" ", actionValues);
    ProjectOptionsTextAppend(command, [entries[0]], [entries[1]]);
    assert entries == [entries[0]] + [entries[1]];
    assert ProjectOptionsText(command, [entries[0]]) == any;
    assert ProjectOptionsText(command, [entries[1]]) == action;
    assert CommandLine(command, project, profile, options) == command + (any + action);
    AppendAssociative(command, any, action);
    AppendAssociative(command + " " + Join(" ", anyValues), " ", Join(" ", actionValues));
    AppendAssociative(command, " ", Join(" ", anyValues));
  }

  // ---------------------------------------------------------------------------
  // Standard-error classification

  /** Some warning indicator is a case-insensitive prefix of the line. */
  function HasWarningPrefix(line: string, indicators: seq<string>): (b: bool)
    ensures b <==> exists k :: 0 <= k < |indicators| && StartsWithIgnoreCase(line, indicators[k])
  {
    if |indicators| == 0 then false
    else
      StartsWithIgnoreCase(line, indicators[0]) || HasWarningPrefix(line, indicators[1..])
  }

  /** HandleErrorDataReceived(name): the console line written for one line of
      standard error, if any. */
  function ClassifyErrorLine(name: string, data: Option<string>, indicators: seq<string>): (r: Option<ConsoleLine>)
    ensures r.None? <==> IsNullOrWhiteSpace(data)
    ensures r.Some? ==> r.value.text == name + ": " + data.value
    ensures r.Some? ==> (r.value.WarningLine? || r.value.ErrorLine?)
    ensures r.Some? ==>
              (r.value.WarningLine? <==> exists k :: 0 <= k < |indicators| && StartsWithIgnoreCase(data.value, indicators[k]))
  {
    if IsNullOrWhiteSpace(data) then None
    else if HasWarningPrefix(data.value, indicators) then Some(WarningLine(name + ": " + data.value))
    else Some(ErrorLine(name + ": " + data.value))
  }

  /** With the default (empty) indicator list every non-blank line is an error. */
  lemma NoIndicatorsAllErrors(name: string, data: string)
    requires !IsBlank(data)
    ensures ClassifyErrorLine(name, Some(data), []) == Some(ErrorLine(name + ": " + data))
  {
  }

  // ---------------------------------------------------------------------------
  // Process exit

  /** The object that raised the Exited event: a Process, or something else. */
  datatype ExitSender = ProcessSender(hasExited: bool, exitCode: int) | OtherSender

  /** The status HandleExited assigns for a process sender. */
  function ExitStatus(hasExited: bool, exitCode: int): (s: AppStatus)
    ensures s != Running
    ensures s == Success <==> hasExited && exitCode == 0
  {
    if hasExited && exitCode == 0 then Success else Failure
  }

  /** HandleExited(output): stamp EndTime, then classify the process, or throw
      InvalidOperationException when the sender is not a Process. */
  method HandleExited(output: AppProcess, sender: ExitSender, now: Time) returns (r: Outcome)
    modifies output
    ensures output.endTime == Some(now)
    ensures sender.ProcessSender? ==> r == Pass && output.status == ExitStatus(sender.hasExited, sender.exitCode)
    ensures sender.OtherSender? ==> r == Fail(InvalidOperationException) && output.status == old(output.status)
    ensures output.startInfo == old(output.startInfo) && output.task == old(output.task)
    ensures output.port == old(output.port) && output.killOnExit == old(output.killOnExit)
    ensures output.verbose == old(output.verbose) && output.rawOutput == old(output.rawOutput)
    ensures output.errorDataHandled == old(output.errorDataHandled)
    ensures output.outputDataHandled == old(output.outputDataHandled)
    ensures output.outputHandler == old(output.outputHandler) && output.errorHandler == old(output.errorHandler)
  {
    output.endTime := Some(now);
    match sender
    case ProcessSender(hasExited, exitCode) =>
      if hasExited && exitCode == 0 {
        output.status := Success;
      } else {
        output.status := Failure;
      }
      r := Pass;
    case OtherSender =>
      r := Fail(InvalidOperationException);
  }

  // ---------------------------------------------------------------------------
  // Process creation

  /** options.Verbose, or ShowOutput (when non-null) names the project, ignoring case. */
  predicate ShowsOutput(project: Project, options: CommandOptions) {
    || options.verbose
    || (options.showOutput.Some?
        && exists k :: 0 <= k < |options.showOutput.value| && EqualsIgnoreCase(options.showOutput.value[k], project.name))
  }

  /** CreateProcess(command, project, options, fileName): the AppProcess for one
      project action. `taskOf` is FrameworkCommands.GetAppTask. */
  method CreateProjectProcess(command: string, project: Project, options: CommandOptions, fileName: Option<string>,
                              profile: FrameworkProfile, taskOf: string -> AppTask)
    returns (output: AppProcess)
    ensures fresh(output)
    ensures output.status == Running && output.port == project.port && output.task == taskOf(command)
    ensures output.killOnExit == options.killProcessesOnExit && output.verbose == options.verbose
    ensures output.endTime.None?
    ensures output.startInfo.fileName == (if fileName.Some? then fileName.value else profile.exePath)
    ensures output.startInfo.arguments == CommandLine(command, project, profile, options)
    ensures output.startInfo.workingDirectory == project.directory
    ensures output.startInfo.enableRaisingEvents && output.startInfo.normalWindowStyle
    ensures output.rawOutput == (project.rawOutput || options.rawOutput)
    ensures output.rawOutput ==>
              && !output.startInfo.redirectStandardOutput && !output.startInfo.redirectStandardError
              && output.startInfo.redirectStandardInput && !output.startInfo.createNoWindow
              && !output.errorDataHandled && !output.outputDataHandled
              && output.errorHandler.None? && output.outputHandler == NoOutputHandler
    ensures !output.rawOutput ==>
              && output.startInfo.redirectStandardOutput && output.startInfo.redirectStandardError
              && !output.startInfo.redirectStandardInput && output.startInfo.createNoWindow
              && output.errorDataHandled && output.errorHandler == Some(project.name)
              && output.outputDataHandled == ShowsOutput(project, options)
              && output.outputHandler == (if ShowsOutput(project, options) then NamedOutput(project.name) else SilentOutput)
  {
    var file := if fileName.Some? then fileName.value else profile.exePath;
    var args := BuildCommand(command, project, profile, options);
    var info := StartInfo(file, args, project.directory, false, true, true, true, true, true);
    if project.rawOutput || options.rawOutput {
      output := RawOutputProcess(info, taskOf(command), project.port, options);
    } else {
      output := RedirectedProcess(info, taskOf(command), project, options);
    }
  }

  /** The raw-output branch: the window is shown, standard input is
      redirected, the two output streams are not and no handler is attached. */
  method RawOutputProcess(info: StartInfo, task: AppTask, port: Option<int>, options: CommandOptions)
    returns (output: AppProcess)
    ensures fresh(output)
    ensures output.status == Running && output.port == port && output.task == task
    ensures output.killOnExit == options.killProcessesOnExit && output.verbose == options.verbose
    ensures output.endTime.None? && output.rawOutput
    ensures output.startInfo == info.(createNoWindow := false, normalWindowStyle := true, redirectStandardInput := true,
                                      redirectStandardOutput := false, redirectStandardError := false)
    ensures !output.errorDataHandled && !output.outputDataHandled
    ensures output.errorHandler.None? && output.outputHandler == NoOutputHandler
  {
    output := new AppProcess(info, task, Running, port);
    output.killOnExit := options.killProcessesOnExit;
    output.verbose := options.verbose;
    output.rawOutput := true;
    output.startInfo := info.(createNoWindow := false, normalWindowStyle := true, redirectStandardInput := true,
                              redirectStandardOutput := false, redirectStandardError := false);
  }

  /** The redirected branch: the error handler is attached, and the output
      handler names the project when its output is shown. */
  method RedirectedProcess(info: StartInfo, task: AppTask, project: Project, options: CommandOptions)
    returns (output: AppProcess)
    ensures fresh(output)
    ensures output.status == Running && output.port == project.port && output.task == task
    ensures output.killOnExit == options.killProcessesOnExit && output.verbose == options.verbose
    ensures output.endTime.None? && !output.rawOutput && output.startInfo == info
    ensures output.errorDataHandled && output.errorHandler == Some(project.name)
    ensures output.outputDataHandled == ShowsOutput(project, options)
    ensures output.outputHandler == (if ShowsOutput(project, options) then NamedOutput(project.name) else SilentOutput)
  {
    output := new AppProcess(info, task, Running, project.port);
    output.killOnExit := options.killProcessesOnExit;
    output.verbose := options.verbose;
    output.errorHandler := Some(project.name);
    output.errorDataHandled := true;
    var shown := ShowsOutput(project, options);
    if shown {
      output.outputHandler := NamedOutput(project.name);
      output.outputDataHandled := true;
    } else {
      output.outputHandler := SilentOutput;
    }
  }

  /** CreateProcess(command, options, fileName): a Cleanup process run in the
      target directory, its arguments the command unchanged. */
  method CreateCommandProcess(command: string, options: CommandOptions, fileName: Option<string>,
                              profile: FrameworkProfile, targetDirectory: string)
    returns (output: AppProcess)
    ensures fresh(output)
    ensures output.status == Running && output.task == Cleanup && output.port.None?
    ensures output.verbose == options.verbose && output.killOnExit && !output.rawOutput
    ensures output.startInfo == StartInfo(if fileName.Some? then fileName.value else profile.exePath, command,
                                          targetDirectory, false, true, true, true, true, true)
    ensures output.outputDataHandled == options.verbose && !output.errorDataHandled && output.errorHandler.None?
    ensures output.outputHandler == if options.verbose then AnonymousOutput else SilentOutput
  {
    var file := if fileName.Some? then fileName.value else profile.exePath;
    var info := StartInfo(file, command, targetDirectory, false, true, true, true, true, true);
    output := new AppProcess(info, Cleanup, Running, None);
    output.verbose := options.verbose;
    if options.verbose {
      output.outputHandler := AnonymousOutput;
      output.outputDataHandled := true;
    } else {
      output.outputHandler := SilentOutput;
    }
  }
}
