# Regi orchestration core in Dafny

Regi is a developer-workflow runner. A startup configuration lists apps, services
and tests (dotnet or node projects). Regi starts, tests, installs and lists them
through per-framework services. This project models its orchestration core. Every
operating-system call is an oracle given as a parameter.

- **FrameworkService** builds command lines from four sources:
  - the project's command override;
  - the project's option lists, keyed by action or by `*`;
  - the framework's default options;
  - the trailing arguments.

  It also derives the capture flags of the `AppProcess` it creates, classifies
  standard-error lines as warnings or errors, and turns a process exit into
  `Success` or `Failure`. `BuildCommand` is a method over a `StringBuilder`
  class, proved equal to the function `CommandLine`. The properties of the
  command line are lemmas about `CommandLine`.
- **ParallelService** keeps two append-only action queues (class
  `Scheduler`). `RunAll` returns the log of what ran: the parallel batch in an
  order the runtime chooses, then, unless a batch action threw, the serial
  list in queue order up to the first action that throws. `WaitOnPorts` is a polling loop that removes the
  reported ports from the caller's dictionary (class `PortTable`) until it is
  empty. The list overload keys the projects with a port by that port, or fails
  on a repeated port.
- **NetworkingService.ContainsNetstatPort**: the netstat text is split on the
  runtime's new-line string. The result is true when some line contains `LISTEN`,
  ignoring case, together with the platform's port pattern.
- **ProcessManager** is a registry of managed processes keyed by id
  (class `Registry`). It has insert-if-absent and remove-if-present operations,
  each throwing `InvalidOperationException` on failure.
- **PlatformService.GetKillProcess** chooses `taskkill /F /IM name.exe` or
  `killall name`. It also gives the handlers for the kill process's output and
  error lines.
- **ProcessUtility**:
  - `AddExtension` appends an extension unless it is already there, ignoring
    case.
  - `GetAllChildIdsUnix` collects every descendant of a process from the
    answers of `pgrep -P` into the caller's set. The pgrep answers are an oracle
    function from a parent id to an exit code and an output text. It is
    recursive, with a `StringReader` loop.
- **FrameworkServiceProvider**: the framework-to-service switch.
- **DotnetCoreIdentifier** recognises .NET projects and numbers their web
  ports from a counter that starts at 8080 (class `Identifier`).
- **RunnerService** (class `Runner`) holds the orchestration behind
  `start`, `test`, `install` and `list`:
  - per-framework dispatch;
  - requirement resolution;
  - the `_PORT` environment map.

  The scheduler runs every queued action once, in an order `order` that it
  chooses. This order is a parameter constrained to be a permutation. The runner
  records the calls it makes into the framework services (`calls`), the
  projects handed to the variable list (`variableList`) and the console
  lines it writes (`console`).

The helper modules model .NET behaviour in Dafny's terms:

- `Wrappers` holds `Option`, `Result`, `Outcome` and the exception kinds.
- `Text` models the string operations the code relies on:
  - ordinal and invariant-culture case-insensitive comparison, with ASCII
    folding;
  - `string.Split(string)`, `string.Join`;
  - `StringReader.ReadLine` line splitting;
  - `int.ToString()` and `int.TryParse`.
- `Models` holds the shared records: `Project`, `CommandOptions`,
  `StartInfo`, and the class `AppProcess` with the fields `FrameworkService`
  writes.

Collaborators outside the modelled core are parameters:

- `FilterByOptions`, `ToUnderscoreCase` and `FrameworkCommands.GetAppTask`;
- what the framework services return;
- the pgrep answers;
- the listening-port polls;
- the clock value stamped into `EndTime`;
- the fresh `Guid`;
- the base identifier's project;
- the file system's working directory.

Where the code's behaviour differs from what its names and comments suggest, the model follows the code:

- **Action-specific options.** An action-specific project option entry does not
  suppress the `*` entry. Both are appended in enumeration order
  (`ActionEntryKeepsWildcard`).
- **Framework defaults.** The defaults are looked up with the substituted command
  and are still applied after an override.
- **Environment values.** `GetEnvironmentVariables`, which nothing in the
  modelled code calls, maps each `NAME_PORT` key to the port's decimal text; a
  duplicate key throws `ArgumentException`.
- **Waiting on ports.** `WaitOnPorts` has no timeout and no poll interval. Its
  model terminates under an explicit "every pending port is eventually reported"
  hypothesis (the ghost `bound`).
- **Queued ports.** The ports Test queues for its requirements are the test
  project's own port, once per resolved requirement. They are not the required
  project's port.
- **Null test results.** Test assigns the process `TestProject` returns even when
  it is null, so a null result clears an earlier process. Start and Install only
  assign a returned process.
- **Scheduler API.** `RunnerService` queues its actions through the
  `Queue`/`RunInParallel` API of another revision of the scheduler. It is
  modelled as "every queued action runs once, in some order", not as a call into
  `ParallelService`.

## Model

| member | source | states |
|---|---|---|
| FrameworkService.NewFrameworkService | src/Regi/Services/FrameworkService.cs:32-43 | a null or white-space executable path is rejected with ArgumentException, and exactly then; otherwise the profile keeps the path, options table and indicators |
| FrameworkService.ResolveCommand | src/Regi/Services/FrameworkService.cs:191-194 | the project's override for the command when Commands has an entry for it, otherwise the command itself (characterised by CommandLineBegins) |
| FrameworkService.OptionPiece | src/Regi/Services/FrameworkService.cs:204-208 | what one project option entry contributes: ' ' and its values space-joined when its key is "*" or the substituted command, nothing otherwise |
| FrameworkService.ProjectOptionsText | src/Regi/Services/FrameworkService.cs:200-210 | the pieces of all entries in enumeration order (ProjectOptionsTextAppend, ProjectOptionsTextMatchingOnly, ProjectOptionsTextNoMatch) |
| FrameworkService.FrameworkOptionsText | src/Regi/Services/FrameworkService.cs:65-76 | nothing for a null or empty table; else the substituted command's default list, then the "*" list, each as ' ' plus a space-join (CommandLineFrameworkDefaults) |
| FrameworkService.FormatAdditionalArguments | src/Regi/Services/FrameworkService.cs:80 | the remaining arguments joined by a single space |
| FrameworkService.RemainingText | src/Regi/Services/FrameworkService.cs:214-217 | ' ' plus the formatted remaining arguments when there is at least one, nothing otherwise (CommandLineRemainingLast) |
| FrameworkService.CommandLine | src/Regi/Services/FrameworkService.cs:187-221 | the text BuildCommand produces: substituted command, project option pieces, framework defaults, remaining arguments, in that order (the lemmas CommandLineBegins … ActionEntryKeepsWildcard) |
| FrameworkService.ApplyFrameworkOptions | src/Regi/Services/FrameworkService.cs:61-78 | appends exactly FrameworkOptionsText: nothing for a null or empty table, else the command's list then the wildcard list, each as ' ' plus a space-join |
| FrameworkService.AppendOptionEntry | src/Regi/Services/FrameworkService.cs:202-209 | one entry appends ' ' plus its values joined by ' ' when its key is "*" or the command, nothing otherwise |
| FrameworkService.AppendProjectOptions | src/Regi/Services/FrameworkService.cs:200-210 | the foreach over project options appends exactly ProjectOptionsText of the entries, entry by entry in order |
| FrameworkService.BuildCommand | src/Regi/Services/FrameworkService.cs:187-221 | the StringBuilder's final text equals CommandLine: substituted command, matching project options, framework defaults for the substituted command, remaining arguments |
| FrameworkService.ProjectOptionsTextAppend | src/Regi/Services/FrameworkService.cs:202-209 | project options contribute entry by entry: the text of a + b is the text of a followed by that of b |
| FrameworkService.ProjectOptionsTextMatchingOnly | src/Regi/Services/FrameworkService.cs:204 | entries whose key is neither "*" nor the command contribute nothing: the text equals that of the matching entries alone |
| FrameworkService.MatchingEntries | src/Regi/Services/FrameworkService.cs:204 | the filter of the foreach: every entry kept has key "*" or the command, every entry with such a key is kept, and the kept entries are a subsequence of the given ones (order preserved) |
| FrameworkService.ProjectOptionsTextNoMatch | src/Regi/Services/FrameworkService.cs:200-210 | with no matching entry the project options add nothing |
| FrameworkService.CommandLineBegins | src/Regi/Services/FrameworkService.cs:191-198 | the command line begins with the project's override for the command when there is one, otherwise with the command |
| FrameworkService.CommandLineBare | src/Regi/Services/FrameworkService.cs:187-221 | no override, no matching option, no framework default for the command or "*", no remaining argument: the command line is exactly the command |
| FrameworkService.CommandLineRemainingLast | src/Regi/Services/FrameworkService.cs:214-217 | remaining arguments come last as ' ' plus their space-join, and only when there is at least one |
| FrameworkService.CommandLineFrameworkDefaults | src/Regi/Services/FrameworkService.cs:65-76 | the framework defaults follow the project options, command list before wildcard list, both looked up with the substituted command; no table, nothing added |
| FrameworkService.ActionEntryKeepsWildcard | src/Regi/Services/FrameworkService.cs:202-209 | options ["*" -> a, cmd -> b] give "cmd a b": an action-specific entry does not suppress the wildcard entry |
| FrameworkService.HasWarningPrefix | src/Regi/Services/FrameworkService.cs:234 | true iff some warning indicator is a case-insensitive prefix of the line |
| FrameworkService.ClassifyErrorLine | src/Regi/Services/FrameworkService.cs:228-244 | no line iff the data is null or white space; otherwise "name: data", a warning iff some indicator is a case-insensitive prefix, else an error |
| FrameworkService.NoIndicatorsAllErrors | src/Regi/Services/FrameworkService.cs:59 | with the default empty indicator list every non-blank line becomes an error line |
| FrameworkService.ExitStatus | src/Regi/Services/FrameworkService.cs:263-270 | never Running; Success iff the process has exited with code 0, Failure otherwise |
| FrameworkService.HandleExited | src/Regi/Services/FrameworkService.cs:255-277 | EndTime is stamped; a Process sender sets the exit status, any other sender throws InvalidOperationException and leaves the status; no other field changes |
| FrameworkService.ShowsOutput | src/Regi/Services/FrameworkService.cs:173 | output is shown iff Verbose, or ShowOutput is non-null and names the project ignoring case |
| FrameworkService.CreateProjectProcess | src/Regi/Services/FrameworkService.cs:124-185 | a fresh Running process with the project's port and task, KillOnExit and Verbose from the options, arguments = CommandLine, the Normal window style of a new ProcessStartInfo; raw output turns off output redirection and attaches no handler; otherwise the error handler is attached and output is handled iff Verbose or ShowOutput names the project ignoring case |
| FrameworkService.RawOutputProcess | src/Regi/Services/FrameworkService.cs:158-166 | raw output: window shown, standard input redirected, neither output stream redirected, no handler attached |
| FrameworkService.RedirectedProcess | src/Regi/Services/FrameworkService.cs:168-182 | error handler for the project name attached, output handled and named iff Verbose or ShowOutput names the project, silent otherwise |
| FrameworkService.CreateCommandProcess | src/Regi/Services/FrameworkService.cs:82-122 | a fresh Cleanup process in the target directory running the command unchanged, output and error redirected, no window, the default Normal window style; output handled (anonymously) iff Verbose |
| ParallelService.Scheduler.Queue | src/Regi/Services/ParallelService.cs:41-47 | a serial action is appended to the serial list only, a parallel one to the parallel list only; the other list is unchanged |
| ParallelService.Scheduler.QueueParallel | src/Regi/Services/ParallelService.cs:49-52 | appends the action to the parallel list, keeps the serial list |
| ParallelService.Scheduler.QueueSerial | src/Regi/Services/ParallelService.cs:54-57 | appends the action to the serial list, keeps the parallel list |
| ParallelService.Scheduler.RunAll | src/Regi/Services/ParallelService.cs:59-67 | the log holds the batch as scheduled by the runtime's order, so each parallel action exactly as often as queued (multiset) and before every serial action; if a batch action throws, AggregateException and no serial action runs; otherwise the serial actions run in queue order up to and including the first that throws, which propagates, or all of them and the call returns |
| ParallelService.Scheduler.RunBatch | src/Regi/Services/ParallelService.cs:61 | Parallel.Invoke runs every position of the order once; the batch failed iff an action it ran threw |
| ParallelService.Scheduler.RunSerial | src/Regi/Services/ParallelService.cs:63-66 | the foreach runs the serial actions in order up to the first that throws, whose exception propagates; Pass iff none throws |
| ParallelService.IsOrdering | src/Regi/Services/ParallelService.cs:61 | an order of n queued actions: each index below n exactly once |
| ParallelService.Scheduled | src/Regi/Services/ParallelService.cs:61 | the actions at the positions the order names, in that order |
| ParallelService.SerialRun | src/Regi/Services/ParallelService.cs:63-66 | a prefix of the serial list: all of it when no action throws, otherwise it ends at the first action that throws and none before that one throws |
| ParallelService.BatchRunsEachOnce | src/Regi/Services/ParallelService.cs:61 | under any ordering the batch is a permutation of the parallel list: each action runs exactly as often as it was queued |
| ParallelService.BatchFails | src/Regi/Services/ParallelService.cs:61 | the batch throws iff some queued parallel action throws, whatever the runtime's order |
| ParallelService.SerialStopsAt | src/Regi/Services/ParallelService.cs:63-66 | a serial action that throws after none before it did ends the serial run there |
| ParallelService.SerialAfterParallel | src/Regi.Test/Services/ParallelServiceTests.cs:99-116 | two parallel actions and taskCount serial ones on a fresh scheduler, none throwing, in any batch order: the call returns, the first two log entries are the two parallel actions and exactly taskCount serial runs follow |
| ParallelService.ReportedByMonotone | src/Regi/Services/ParallelService.cs:83-96 | the ports reported by the first m polls are among those reported by the first n, for m <= n |
| ParallelService.RemoveReported | src/Regi/Services/ParallelService.cs:87-95 | one poll removes from the pending dictionary exactly the ports it reports, and nothing else |
| ParallelService.WaitOnPorts | src/Regi/Services/ParallelService.cs:78-99 | the caller's dictionary ends empty; the number of polls is the first count whose reports cover every pending port (no earlier count does); an empty dictionary makes no poll |
| ParallelService.PollNeeded | src/Regi/Services/ParallelService.cs:83 | while a port is pending, the reports so far do not cover the pending ports, so another poll happens before the horizon |
| ParallelService.FirstReportedOn | src/Regi.Test/Services/ParallelServiceTests.cs:122-140 | a port first reported on poll k is covered by the first n polls iff n >= k |
| ParallelService.WaitOnOnePort | src/Regi.Test/Services/ParallelServiceTests.cs:118-140 | one pending port first reported on poll k makes WaitOnPorts poll exactly k times |
| ParallelService.PortsByProject | src/Regi/Services/ParallelService.cs:71-73 | fails with ArgumentException iff two projects share a port; otherwise keys are exactly the ports carried, each mapped to a listed project with that port |
| ParallelService.DuplicateCons | src/Regi/Services/ParallelService.cs:71-73 | a list has a repeated port iff its tail has one or its head's port recurs in the tail |
| ParallelService.WaitOnProjects | src/Regi/Services/ParallelService.cs:69-76 | a repeated port throws ArgumentException, and exactly then, whatever the polls would report; otherwise, given that every port is eventually reported, the polls made are the first count whose reports cover every project's port |
| NetworkingService.MacPortMatch | src/Regi.Core/Services/NetworkingService.cs:57 | Regex [.:]port: "." or ":" immediately followed by the port's decimal text, anywhere in the line |
| NetworkingService.PortMatch | src/Regi.Core/Services/NetworkingService.cs:61 | ":" followed by the port's decimal text occurs in the line, ignoring case |
| NetworkingService.ListeningLine | src/Regi.Core/Services/NetworkingService.cs:51-64 | the lambda given to Any: the line contains LISTEN ignoring case and matches the platform's port pattern |
| NetworkingService.AnyListening | src/Regi.Core/Services/NetworkingService.cs:51-65 | Any over the lines is true iff some line is a listening line for the port |
| NetworkingService.ContainsNetstatPort | src/Regi.Core/Services/NetworkingService.cs:47-66 | true iff some piece of the text split on the new-line string contains LISTEN ignoring case and the platform's port pattern |
| NetworkingService.NoListenLineNoPort | src/Regi.Core/Services/NetworkingService.cs:53 | without a line containing LISTEN the answer is false on every platform |
| NetworkingService.PortMatchIsExact | src/Regi.Core/Services/NetworkingService.cs:61 | a case-insensitive occurrence of ":" + port is an exact one |
| NetworkingService.NonMacMatchIsMacMatch | src/Regi.Core/Services/NetworkingService.cs:55-62 | every text the non-Mac test accepts, the Mac test accepts too |
| NetworkingService.UnanchoredPortMatch | src/Regi.Core/Services/NetworkingService.cs:57-61 | a line listening on a port whose digits start with another port's digits also answers true for that port |
| NetworkingService.Port8080MatchesPort80 | src/Regi.Core/Services/NetworkingService.cs:57-61 | a line listening on 8080 answers true for port 80 |
| NetworkingService.SplitTwoLines | src/Regi.Core/Services/NetworkingService.cs:49-50 | two lines joined by a one-character separator split back into those two lines |
| NetworkingService.ListenAndPortOnDifferentLines | src/Regi.Core/Services/NetworkingService.cs:51-64 | LISTEN on one line and the port on the next is not a match: the two must be on the same line |
| ProcessManager.Registry.CreateAsync | src/Regi.Runtime/ProcessManager.cs:27-44 | succeeds iff the id is new, adding exactly that entry under its id; a null directory becomes the file system's working directory at the time of the call; a known id throws InvalidOperationException and changes nothing; keys stay their processes' ids |
| ProcessManager.Registry.ShutdownAsync | src/Regi.Runtime/ProcessManager.cs:46-56 | an unknown id throws InvalidOperationException and kills nothing; a known id is removed, exactly that entry, its process is killed and true is returned |
| ProcessManager.CreateThenShutdown | src/Regi.Runtime/ProcessManager.cs:27-56 | create then shut down under a fresh id restores the registry and kills that one process |
| ProcessManager.CreateTwice | src/Regi.Runtime/ProcessManager.cs:38-41 | a second create under the same id throws and leaves the registry as the first create left it |
| PlatformService.GetKillProcess | src/Regi.Core/Services/PlatformService.cs:31-57 | Windows: taskkill with "/F /IM " + AddExtension(name); elsewhere killall with the name; all three streams redirected, a window shown, raising events |
| PlatformService.WindowsImageName | src/Regi.Core/Services/PlatformService.cs:45 | the Windows image name ends in ".exe" ignoring case, and a name already ending so is not given a second extension |
| PlatformService.KillDotnet | test/Regi.Test/Frameworks/DotnetTests.cs:226-243 | "dotnet" gives taskkill "/F /IM dotnet.exe" on Windows and killall "dotnet" elsewhere |
| PlatformService.KillOutputLine | src/Regi.Core/Services/PlatformService.cs:59-65 | a standard-output line is echoed iff Verbose and the line is not blank |
| PlatformService.KillErrorLine | src/Regi.Core/Services/PlatformService.cs:66-72 | every non-blank standard-error line becomes a warning, blank ones nothing |
| PlatformService.BlankLinesDropped | src/Regi.Core/Services/PlatformService.cs:59-72 | blank lines are dropped by both handlers whatever the options |
| ProcessUtility.AddExtension | src/Regi/Utilities/ProcessUtility.cs:11-19 | the result ends with the extension ignoring case; it is the name when the name already does, name + extension otherwise |
| ProcessUtility.AddExtensionIdempotent | src/Regi/Utilities/ProcessUtility.cs:11-19 | adding the extension twice is adding it once |
| ProcessUtility.ParsedIds | src/Regi/Utilities/ProcessUtility.cs:33-47 | the ids of the lines int.TryParse accepts, in reading order; other lines are skipped (ParsedIdsAppend) |
| ProcessUtility.ChildIds | src/Regi/Utilities/ProcessUtility.cs:29-47 | the children read for one pgrep answer: none unless the exit code is 0 and the output non-empty, else the parsed ids of its lines |
| ProcessUtility.Descendants | src/Regi/Utilities/ProcessUtility.cs:21-51 | every id reachable from the parent through the children pgrep reports (DescendantsClosed, NoAnswerNoDescendants) |
| ProcessUtility.ParsedIdsAppend | src/Regi/Utilities/ProcessUtility.cs:33-47 | the ids parsed from a + b are those of a followed by those of b |
| ProcessUtility.DescendantsClosed | src/Regi/Utilities/ProcessUtility.cs:42-46 | each child id read is a descendant, and so is everything below it |
| ProcessUtility.NoAnswerNoDescendants | src/Regi/Utilities/ProcessUtility.cs:29 | a non-zero pgrep exit code or empty output gives no descendants |
| ProcessUtility.StringReader.ReadLine | src/Regi/Utilities/ProcessUtility.cs:35-39 | null at the end of the text; otherwise the next line, the rest being the remaining lines |
| ProcessUtility.GetAllChildIdsUnix | src/Regi/Utilities/ProcessUtility.cs:21-51 | the set becomes the old set plus every process reachable through pgrep's answers; nothing is removed; parsable lines are added and expanded, others skipped |
| FrameworkServiceProvider.GetFrameworkService | src/Regi/Services/FrameworkServiceProvider.cs:23-36 | Dotnet and Node get their services, Any throws ArgumentException, every other value NotImplementedException, each iff |
| FrameworkServiceProvider.GetFrameworkServiceTotal | src/Regi/Services/FrameworkServiceProvider.cs:25-35 | every framework gets a service or one of the two exceptions, a service exactly for Dotnet and Node |
| DotnetCoreIdentifier.ShouldIdentify | src/Regi/Services/Identifiers/DotnetCoreIdentifier.cs:15-18 | always true |
| DotnetCoreIdentifier.Identifier.IsMatch | src/Regi/Services/Identifiers/DotnetCoreIdentifier.cs:20-39 | true for a project already marked Dotnet; otherwise true iff the directory is non-null and some path ends with ".csproj" ignoring case |
| DotnetCoreIdentifier.Identifier.CreateOrModify | src/Regi/Services/Identifiers/DotnetCoreIdentifier.cs:41-60 | the project becomes Dotnet; a name containing "test" ignoring case makes it Unit with its port kept, any other Web on the counter's port; the counter advances on every call, with Int32 wrap-around, and stays an Int32 |
| DotnetCoreIdentifier.Increment | src/Regi/Services/Identifiers/DotnetCoreIdentifier.cs:57 | Port++ in C#'s unchecked arithmetic: the next Int32, Int32Max wrapping round to Int32Min |
| DotnetCoreIdentifier.FirstWebProject | src/Regi.Test/Frameworks/Identifiers/DotnetIdentifierTests.cs:30-45 | the first web project of a fresh identifier is given port 8080 |
| DotnetCoreIdentifier.UnitThenWeb | src/Regi/Services/Identifiers/DotnetCoreIdentifier.cs:47-57 | a unit project keeps its port but still advances the counter: the next web project gets 8081 |
| RunnerService.ServiceFor | src/Regi/Services/RunnerService.cs:125-132 | Dotnet goes to the dotnet service, Node to the node service, every other framework to none, each iff |
| RunnerService.CallsFor | src/Regi/Services/RunnerService.cs:125-132 | one call, to the framework's service with the task, project and options, or none for any other framework |
| RunnerService.InstallOptions | src/Regi/Services/RunnerService.cs:238-245 | Node installs get the verbose options, every other framework the caller's |
| RunnerService.StartedProject | src/Regi/Services/RunnerService.cs:125-141 | the project after its Start action: its process replaced by the one the service returns, kept when none is returned or the framework has no service (ActionsAssignOnlyProcess) |
| RunnerService.TestedProject | src/Regi/Services/RunnerService.cs:204-212 | the project after its Test action: its process replaced by whatever the service returns, even null, when the framework has a service |
| RunnerService.InstalledProject | src/Regi/Services/RunnerService.cs:234-252 | the project after its Install action, with the Install options of its framework; a returned process replaces the old one |
| RunnerService.ActionsAssignOnlyProcess | src/Regi/Services/RunnerService.cs:134-141 | Start, Test and Install change nothing of a project but its process; Start and Install assign a returned process and keep the project on null; Test assigns its result whenever the project has a service |
| RunnerService.NullProcessOnlyClearedByTest | src/Regi/Services/RunnerService.cs:204-212 | a null answer keeps a started project's old process but clears a tested project's |
| RunnerService.FirstMatchSpec | src/Regi/Services/RunnerService.cs:172-174 | FirstOrDefault finds a matching candidate with no match before it, and none exactly when no candidate matches |
| RunnerService.FirstMatchAppend | src/Regi/Services/RunnerService.cs:172-174 | the first match in a + b is a's first match, else b's shifted by |a|, else none |
| RunnerService.ResolveRequirement | src/Regi/Services/RunnerService.cs:172-174 | Apps then Services, the first project whose name contains the requirement ignoring case (ResolveRequirementSpec, AppsBeforeServices) |
| RunnerService.ResolveRequirementSpec | src/Regi/Services/RunnerService.cs:172-176 | a requirement resolves to a project of Apps or Services whose name contains it ignoring case, and to nothing exactly when no name does |
| RunnerService.AppsBeforeServices | src/Regi/Services/RunnerService.cs:172-174 | Apps are searched first: a matching app wins over every service, a service is chosen only when no app matches |
| RunnerService.ResolvedCount | src/Regi/Services/RunnerService.cs:170-185 | all requirements resolve exactly when none is skipped |
| RunnerService.ResolvedMatch | src/Regi/Services/RunnerService.cs:170-185 | each resolved project is one of Apps or Services and matches some requirement |
| RunnerService.QueuedPortsAreTestPort | src/Regi/Services/RunnerService.cs:180-181 | every queued port is the test project's own port, once per resolved requirement, none without a port |
| RunnerService.Applied | src/Regi/Services/RunnerService.cs:101-117 | the project list after the first k scheduled actions: each slot visited holds its action's result |
| RunnerService.AppliedRan | src/Regi/Services/RunnerService.cs:101-117 | after k scheduled actions each project slot holds its action's result if its action ran, the original otherwise |
| RunnerService.AppliedComplete | src/Regi/Services/RunnerService.cs:101-119 | once every queued action has run, each slot holds its own action's result, whatever the order |
| RunnerService.StartCallsOfDispatched | src/Regi/Services/RunnerService.cs:122-142 | starting a list makes at most one call per project, each a Start call to the project's framework service with the options given |
| RunnerService.StartCallsDispatched | src/Regi/Services/RunnerService.cs:101-107 | every call Start makes is a Start call to the project's framework service with the command's options |
| RunnerService.InstallCallsDispatched | src/Regi/Services/RunnerService.cs:232-245 | every call Install makes is an Install call to the project's service; Node gets the verbose options, any other framework the command's |
| RunnerService.TestActionDispatched | src/Regi/Services/RunnerService.cs:166-212 | a test action calls Start for its requirements and Test for itself, each to the project's service with the command's options |
| RunnerService.TestCallsDispatched | src/Regi/Services/RunnerService.cs:162-219 | every call Test makes is a Start call for a requirement or a Test call, to the project's service with the command's options |
| RunnerService.EnvironmentKey | src/Regi/Services/RunnerService.cs:86 | the variable name of a project: its name plus "_PORT", underscore-cased |
| RunnerService.Exported | src/Regi/Services/RunnerService.cs:78-91 | after n projects the dictionary's keys are exactly the keys of the ported projects so far, each mapped to its port's decimal text |
| RunnerService.SharedKeyWitness | src/Regi/Services/RunnerService.cs:86 | a ported project whose key repeats an earlier ported project's key gives a shared key |
| RunnerService.ExportedAdd | src/Regi/Services/RunnerService.cs:84-87 | adding a ported project under a new key exports exactly one project more |
| RunnerService.Runner.GetEnvironmentVariables | src/Regi/Services/RunnerService.cs:78-91 | fails with ArgumentException iff two ported projects share a key; otherwise keys are exactly the underscore-cased NAME_PORT of the projects with a port, each mapped to the port's decimal text; the private method has no caller in this revision |
| RunnerService.Runner.StartProject | src/Regi/Services/RunnerService.cs:122-142 | one call to the project's framework service (none for other frameworks); the process is assigned only when one is returned, and only then is the project appended to a non-null list |
| RunnerService.Runner.Start | src/Regi/Services/RunnerService.cs:93-120 | returns exactly the filtered apps, each with its started process, and puts them in the variable list; the calls are one Start call per dispatched app in scheduler order |
| RunnerService.Runner.StartRequirement | src/Regi/Services/RunnerService.cs:170-185 | a resolving requirement goes into the variable list, queues the test's own port and is started into the list; an unmatched one does nothing |
| RunnerService.Runner.StartRequirements | src/Regi/Services/RunnerService.cs:166-185 | the requirement loop: the variable list, the list and the calls grow by the resolved projects in requirement order, and the queued ports are the test's port once per resolved requirement |
| RunnerService.Runner.RunTest | src/Regi/Services/RunnerService.cs:164-218 | one test action: its requirements, then one Test call, the result assigned to the project even when null |
| RunnerService.Runner.Test | src/Regi/Services/RunnerService.cs:144-224 | the returned list is the filtered tests, each with its test result, followed by every started requirement in the order the actions ran; the variable list is the tests then those requirements |
| RunnerService.Runner.InstallProject | src/Regi/Services/RunnerService.cs:234-252 | one Install call to the project's service (verbose options for Node); the process is assigned only when one is returned |
| RunnerService.Runner.Install | src/Regi/Services/RunnerService.cs:226-258 | returns exactly the filtered Apps followed by Tests, each with its installed process; the calls are one Install call per dispatched project in scheduler order |
| RunnerService.NameLines | src/Regi/Services/RunnerService.cs:282-287 | one line "  " + name per project, in order |
| RunnerService.HeaderIn | src/Regi/Services/RunnerService.cs:279-281 | a group's only emphasized line is its header, present iff the group is non-empty |
| RunnerService.ListHeaders | src/Regi.Test/Services/RunnerServiceTests.cs:243-260 | "Apps:" is printed iff some app is listed, "Tests:" iff some test is |
| RunnerService.Runner.PrintAppGroupDetails | src/Regi/Services/RunnerService.cs:277-300 | every input project goes to the summary in order; nothing is printed for an empty group, else the header then one name line per project |
| RunnerService.Runner.List | src/Regi/Services/RunnerService.cs:265-303 | the summary holds exactly the filtered apps and tests; the console shows the apps group then the tests group |
| Text.IndexOfSpec | src/Regi.Core/Services/NetworkingService.cs:49-50 | the position found is an occurrence with none before it; there is none exactly when the text does not contain the separator |
| Text.IndexOf | src/Regi.Core/Services/NetworkingService.cs:49-50 | the first position at which the separator occurs, if any (IndexOfSpec) |
| Text.Split | src/Regi.Core/Services/NetworkingService.cs:49-50 | string.Split(string): the pieces between occurrences of the separator, at least one (JoinSplit, SplitPiecesAvoidSeparator) |
| Text.Join | src/Regi/Services/FrameworkService.cs:80 | string.Join: the pieces with the separator between consecutive ones |
| Text.JoinSplit | src/Regi.Core/Services/NetworkingService.cs:49-50 | joining the pieces of a split with the separator gives back the text |
| Text.SplitPiecesAvoidSeparator | src/Regi.Core/Services/NetworkingService.cs:49-50 | no piece of a split contains the (non-empty) separator |
| Text.LineEnd | src/Regi/Utilities/ProcessUtility.cs:35 | the first line-break character, or the end of the text when there is none |
| Text.Lines | src/Regi/Utilities/ProcessUtility.cs:35-39 | the lines StringReader.ReadLine hands out: split at \r\n, \r or \n, no line containing a line break |
| Text.IntToString | src/Regi/Services/RunnerService.cs:86 | an optional '-' then decimal digits, never empty |
| Text.TryParseInt | src/Regi/Utilities/ProcessUtility.cs:42 | a parsed value is within the Int32 range |
| Text.TryParseIntToString | src/Regi/Utilities/ProcessUtility.cs:42 | int.TryParse reads back what int.ToString wrote, across the Int32 range |

## Left out

- Configuration loading (`GetStartupConfig`): directory, file and JSON I/O. The configuration is a parameter.
- The `Console.CancelKeyPress` handlers of Start and Test, and Test's list of processes they dispose: the operating-system signal layer.
- Test's port-wait loop: it spins on one snapshot of the listener table. In the source the test runs only if that snapshot holds the test's own port, or no requirement resolved, or the test project has no port (then nothing is queued and the loop does not run); otherwise the loop never ends. The model ignores the snapshot and goes on to `TestProject` as if the loop had exited, returning the ports it would drain.
- The console line of the active listeners Test writes, and the project-file line written before a dotnet test: console output whose text comes from the operating system.
- `AppProcess` start, wait, kill, dispose and output streams: process I/O. Only the fields `FrameworkService` writes are kept.
- `RunProcessAndWaitForExit`, `KillProcessUnix`, `RunAnonymousScript`, `IsPortListening` and the calls into the framework services: shell-outs and OS APIs, replaced by oracles.
- Real concurrency in `Parallel.Invoke`, and the lock objects: the batch is modelled as running its actions one after another in an order the runtime chooses (a permutation parameter); overlapping executions are not modelled.
- CLI and DI wiring (`Program`, the commands), `FileSystemDictionary`, and the log sink `ProcessManager` creates per process.
- `SetEnvironmentVariables`, `CopyEnvironmentVariables` and `HandleDispose` in `FrameworkService`: process environment and log output.
- The "Executing:" console line, and the `WaitOnPorts` console messages: console output only.
- The verbose property lines of `List` (`WritePropertyIfSpecified`): the formatter is not part of this model.
- `VariableList` internals: it is modelled as the sequence of projects handed to it.
- `ToUnderscoreCase`, `FilterByOptions`, `FrameworkCommands.GetAppTask` and `BaseIdentifier.CreateOrModifyAsync`: their code is not part of this model. They are uninterpreted parameters.
- A null `Requires` list: `project.Requires.Any()` would throw ArgumentNullException inside the queued action; the model has no null list and treats the list as given, possibly empty.
- Null `Commands`, `Options` and `RemainingArguments`: they behave like empty ones and are modelled as empty.
- The Mac netstat fixture of the networking tests: its concrete multi-line text is not stated as a lemma; the general lemmas (`UnanchoredPortMatch`, `ListenAndPortOnDifferentLines`) state what it exercises.
- Int32 width of ports: `Project.port` is an unbounded `int`. The only arithmetic on ports is the identifier's `Port++`, modelled with Int32 wrap-around (`DotnetCoreIdentifier.Increment`); `ToString` is defined for every integer.
- `FrameworkCommands.Any`: its definition is not part of this model. The framework-options lookup takes it to be `"*"` (`FrameworkService.AnyCommand`), the literal the project-options loop compares with.
- Null arguments to `BuildCommand`: the source tolerates a null project and null options through `?.`, producing just the command (plus defaults). The model's `Project` and `CommandOptions` cannot be null, so those calls are not modelled.
- `ProcessUtility.Acyclic`: termination of the pgrep walk is assumed through a rank that decreases from every parent to each of its children, over all ids, not only those reachable from the root; pgrep answers with a cycle (which would make the source recurse without end) are not modelled.
- `RunnerService.Runner.GetEnvironmentVariables` is dead code in this revision: it is private and nothing calls it, so its dictionary never reaches a process. The environment started processes see comes from `CopyEnvironmentVariables(options.VariableList)` in `FrameworkService`, which is not modelled.
- Text.TryParseInt: `int.TryParse` also accepts trailing `'\0'` characters and takes its sign symbols from the current culture; the model accepts only white space from tab to carriage return or a space around an optional ASCII `-` or `+` and the digits. pgrep lines contain neither.
- ProcessManager.Registry.ShutdownAsync: when `KillAsync` throws or the cancellation token fires, the exception propagates after `TryRemove` has already removed the entry; the model's kill always succeeds and the call returns true. The cancellation token is not modelled.
- Timestamps: `EndTime` is an opaque clock value given as a parameter.
- Case folding is ASCII only: the invariant culture also folds non-ASCII letters.
- Aliasing of `Project` objects: a project is a value, so an assignment of `Process` is seen by the copy the runner returns. Another reference to the same project is not modelled.
- The `IPEndPoint` address of a listening connection: only its port is used.
- `RunnerService.Runner.Test`: the list the source returns is one `IList` whose appended tail interleaves with the scheduler's runs. The model states it as the tests' own slots followed by the started requirements, in the order the actions ran.
