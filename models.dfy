/** The records the core passes around: projects, their configuration, the
    command-line options and the AppProcess wrapper around a native process. */
module Models {
  import opened Wrappers

  /** ProjectFramework; a C# enum may hold a value outside its named members,
      which `Unlisted` stands for. */
  datatype ProjectFramework = Dotnet | Node | Any | Unlisted(code: int)

  datatype ProjectType = Web | Unit | Integration

  datatype AppTask = Start | Test | Install | Build | Kill | Cleanup

  /** Running until the exit handler classifies the process. */
  datatype AppStatus = Running | Success | Failure

  /** An AppProcess handed back by a framework service, known only by an identifier. */
  datatype ProcessRef = ProcessRef(id: nat)

  /** One entry of a project's options dictionary: an action name (or "*")
      and its extra command-line tokens. */
  type OptionEntry = (string, seq<string>)

  /** A configured project. `options` lists the option dictionary's entries in
      enumeration order; `directory` is project.File.DirectoryName; `process`
      is the AppProcess last assigned to project.Process. */
  datatype Project = Project(
    name: string,
    framework: ProjectFramework,
    kind: ProjectType,
    port: Option<int>,
    commands: map<string, string>,
    options: seq<OptionEntry>,
    requiredApps: seq<string>,
    rawOutput: bool,
    directory: string,
    process: Option<ProcessRef>)

  /** The options of one invocation (RegiOptions / CommandOptions). */
  datatype CommandOptions = CommandOptions(
    verbose: bool,
    rawOutput: bool,
    killProcessesOnExit: bool,
    showOutput: Option<seq<string>>,
    remainingArguments: seq<string>)

  /** `new CommandOptions { Verbose = true }`, every other member at its default. */
  const VerboseOptions := CommandOptions(true, false, false, None, [])

  /** The loaded configuration document. */
  datatype StartupConfig = StartupConfig(apps: seq<Project>, tests: seq<Project>, services: seq<Project>)

  /** A line written to the console, by the writer method used. */
  datatype ConsoleLine =
    | DefaultLine(text: string)
    | WarningLine(text: string)
    | ErrorLine(text: string)
    | EmphasizedLine(text: string)

  /** The opaque clock value assigned to AppProcess.EndTime. */
  datatype Time = Time(ticks: int)

  /** ProcessStartInfo as the core fills it in. */
  datatype StartInfo = StartInfo(
    fileName: string,
    arguments: string,
    workingDirectory: string,
    redirectStandardInput: bool,
    redirectStandardOutput: bool,
    redirectStandardError: bool,
    createNoWindow: bool,
    /** WindowStyle is ProcessWindowStyle.Normal, the default of a new ProcessStartInfo. */
    normalWindowStyle: bool,
    enableRaisingEvents: bool)

  /** Which OutputDataReceived handler is attached to the wrapped process:
      none, HandleOutputDataRecieved(name), HandleDataReceivedAnonymously or
      HandleDataReceivedSilently. */
  datatype OutputHandler = NoOutputHandler | NamedOutput(name: string) | AnonymousOutput | SilentOutput

  /** AppProcess: the wrapped process's start info and attached handlers,
      and the fields the framework service writes. */
  class AppProcess {
    var startInfo: StartInfo
    var task: AppTask
    var status: AppStatus
    var port: Option<int>
    var endTime: Option<Time>
    var killOnExit: bool
    var verbose: bool
    var rawOutput: bool
    var errorDataHandled: bool
    var outputDataHandled: bool
    /** The OutputDataReceived handler attached to the wrapped process. */
    var outputHandler: OutputHandler
    /** The project name given to HandleErrorDataReceived, when that handler is attached. */
    var errorHandler: Option<string>

    /** new AppProcess(process, task, status, port) with the property defaults. */
    constructor (startInfo: StartInfo, task: AppTask, status: AppStatus, port: Option<int>)
      ensures this.startInfo == startInfo && this.task == task && this.status == status && this.port == port
      ensures endTime.None? && killOnExit && !verbose && !rawOutput
      ensures !errorDataHandled && !outputDataHandled
      ensures outputHandler == NoOutputHandler && errorHandler.None?
    {
      this.startInfo := startInfo;
      this.task := task;
      this.status := status;
      this.port := port;
      endTime := None;
      killOnExit := true;
      verbose := false;
      rawOutput := false;
      errorDataHandled := false;
      outputDataHandled := false;
      outputHandler := NoOutputHandler;
      errorHandler := None;
    }
  }
}
