/** RunnerService: the orchestration behind `start`, `test`, `install` and
    `list`. The loaded configuration is a parameter; the framework services,
    FilterByOptions and ToUnderscoreCase are collaborators given to the
    runner; the scheduler runs every queued action once, in an order it
    chooses. */
module RunnerService {
  import opened Wrappers
  import opened Text
  import opened Models
  import ParallelService

  /** The two framework services the runner talks to. */
  datatype Service = DotnetService | NodeService

  /** Which service a project's framework is dispatched to, if any. */
  function ServiceFor(framework: ProjectFramework): (r: Option<Service>)
    ensures r == Some(DotnetService) <==> framework == Dotnet
    ensures r == Some(NodeService) <==> framework == Node
    ensures r.None? <==> framework != Dotnet && framework != Node
  {
    if framework == Dotnet then Some(DotnetService)
    else if framework == Node then Some(NodeService)
    else None
  }

  /** One call into a framework service: StartProject, TestProject or
      InstallProject, with the project and options it was given. */
  datatype ServiceCall = ServiceCall(service: Service, task: AppTask, project: Project, options: CommandOptions)

  /** What the framework services answer: the process they return, or null. */
  type Launcher = (Service, AppTask, Project, CommandOptions) -> Option<ProcessRef>

  /** FilterByOptions: the projects of a list that an invocation selects. */
  type Filter = (seq<Project>, CommandOptions) -> seq<Project>

  /** The process the project's service returns for the task; no service, no process. */
  function Launched(launch: Launcher, project: Project, task: AppTask, options: CommandOptions): (r: Option<ProcessRef>)
    ensures ServiceFor(project.framework).None? ==> r.None?
  {
    match ServiceFor(project.framework)
    case Some(service) => launch(service, task, project, options)
    case None => None
  }

  /** The service call a task makes for a project: one call to its
      framework's service, or none for any other framework. */
  function CallsFor(project: Project, task: AppTask, options: CommandOptions): (r: seq<ServiceCall>)
    ensures |r| <= 1
    ensures r == [] <==> ServiceFor(project.framework).None?
    ensures r != [] ==> r[0].task == task && r[0].project == project && r[0].options == options
                        && Some(r[0].service) == ServiceFor(project.framework)
  {
    match ServiceFor(project.framework)
    case Some(service) => [ServiceCall(service, task, project, options)]
    case None => []
  }

  /** Node installs get `new CommandOptions { Verbose = true }`, every other
      framework the caller's options. */
  function InstallOptions(framework: ProjectFramework, options: CommandOptions): (r: CommandOptions)
    ensures framework == Node ==> r == VerboseOptions
    ensures framework != Node ==> r == options
  {
    if framework == Node then VerboseOptions else options
  }

  // ---------------------------------------------------------------------------
  // What each action leaves in a project

  /** StartProject: Process is assigned only when the service returned one. */
  function StartedProject(launch: Launcher, project: Project, options: CommandOptions): Project {
    var process := Launched(launch, project, Start, options);
    if process.Some? then project.(process := process) else project
  }

  /** Test assigns whatever TestProject returned, null included, for a Dotnet
      or Node project, and leaves any other project alone. */
  function TestedProject(launch: Launcher, project: Project, options: CommandOptions): Project {
    if ServiceFor(project.framework).Some? then project.(process := Launched(launch, project, Test, options))
    else project
  }

  /** Install assigns the process only when the service returned one; Node
      projects are installed with the verbose options. */
  function InstalledProject(launch: Launcher, project: Project, options: CommandOptions): Project {
    var process := Launched(launch, project, Install, InstallOptions(project.framework, options));
    if process.Some? then project.(process := process) else project
  }

  /** Each action changes nothing of a project but its Process: Start and
      Install assign a returned process and keep the old one on null, Test
      assigns its result whenever the project has a service. */
  lemma ActionsAssignOnlyProcess(launch: Launcher, project: Project, options: CommandOptions)
    ensures StartedProject(launch, project, options).(process := project.process) == project
    ensures TestedProject(launch, project, options).(process := project.process) == project
    ensures InstalledProject(launch, project, options).(process := project.process) == project
    ensures Launched(launch, project, Start, options).Some? ==>
              StartedProject(launch, project, options).process == Launched(launch, project, Start, options)
    ensures Launched(launch, project, Start, options).None? ==> StartedProject(launch, project, options) == project
    ensures ServiceFor(project.framework).Some? ==>
              TestedProject(launch, project, options).process == Launched(launch, project, Test, options)
    ensures ServiceFor(project.framework).None? ==> TestedProject(launch, project, options) == project
    ensures var p := Launched(launch, project, Install, InstallOptions(project.framework, options));
            (p.Some? ==> InstalledProject(launch, project, options).process == p)
            && (p.None? ==> InstalledProject(launch, project, options) == project)
  {
  }

  /** A service answering null leaves a started or installed project's old
      process in place, while a test project loses its process. */
  lemma NullProcessOnlyClearedByTest(launch: Launcher, project: Project, options: CommandOptions)
    requires ServiceFor(project.framework).Some?
    requires launch(ServiceFor(project.framework).value, Start, project, options).None?
    requires launch(ServiceFor(project.framework).value, Test, project, options).None?
    ensures StartedProject(launch, project, options).process == project.process
    ensures TestedProject(launch, project, options).process.None?
  {
  }

  // ---------------------------------------------------------------------------
  // Requirement resolution

  /** p.Name.Contains(requirement, InvariantCultureIgnoreCase). */
  predicate Matches(project: Project, requirement: string) {
    ContainsIgnoreCase(project.name, requirement)
  }

  /** None of the first n candidates matches. */
  predicate NoMatchBefore(candidates: seq<Project>, requirement: string, n: int)
    requires n <= |candidates|
  {
    forall j :: 0 <= j < n ==> !Matches(candidates[j], requirement)
  }

  /** FirstOrDefault over the candidates: the index of the first match. */
  function FirstMatch(candidates: seq<Project>, requirement: string): (r: Option<nat>)
    ensures r.Some? ==> r.value < |candidates|
  {
    if |candidates| == 0 then None
    else if Matches(candidates[0], requirement) then Some(0)
    else
      match FirstMatch(candidates[1..], requirement)
      case Some(k) => Some(k + 1)
      case None => None
  }

  /** The index found is a match with no match before it, and there is none
      exactly when no candidate matches. */
  lemma {:induction false} FirstMatchSpec(candidates: seq<Project>, requirement: string)
    ensures FirstMatch(candidates, requirement).Some? ==>
              && Matches(candidates[FirstMatch(candidates, requirement).value], requirement)
              && NoMatchBefore(candidates, requirement, FirstMatch(candidates, requirement).value)
    ensures FirstMatch(candidates, requirement).None? <==> NoMatchBefore(candidates, requirement, |candidates|)
  {
    if |candidates| > 0 && !Matches(candidates[0], requirement) {
      FirstMatchSpec(candidates[1..], requirement);
      assert forall j :: 1 <= j < |candidates| ==> candidates[j] == candidates[1..][j - 1];
    }
  }

  /** The first match in a concatenation is the first match in its first
      part, or else the first match in the second part, shifted. */
  lemma {:induction false} FirstMatchAppend(a: seq<Project>, b: seq<Project>, requirement: string)
    ensures FirstMatch(a, requirement).Some? ==> FirstMatch(a + b, requirement) == FirstMatch(a, requirement)
    ensures FirstMatch(a, requirement).None? && FirstMatch(b, requirement).Some? ==>
              FirstMatch(a + b, requirement) == Some(|a| + FirstMatch(b, requirement).value)
    ensures FirstMatch(a, requirement).None? && FirstMatch(b, requirement).None? ==>
              FirstMatch(a + b, requirement).None?
  {
    if |a| > 0 {
      assert (a + b)[0] == a[0];
      assert (a + b)[1..] == a[1..] + b;
      FirstMatchAppend(a[1..], b, requirement);
    } else {
      assert a + b == b;
    }
  }

  /** The project a requirement resolves to: the first of Apps followed by
      Services whose name contains it, ignoring case; null when none does. */
  function ResolveRequirement(config: StartupConfig, requirement: string): Option<Project> {
    var candidates := config.apps + config.services;
    match FirstMatch(candidates, requirement)
    case Some(k) => Some(candidates[k])
    case None => None
  }

  /** A requirement resolves to one of Apps or Services whose name matches
      it, and to nothing exactly when no name does. */
  lemma ResolveRequirementSpec(config: StartupConfig, requirement: string)
    ensures ResolveRequirement(config, requirement).None? <==>
              NoMatchBefore(config.apps + config.services, requirement, |config.apps + config.services|)
    ensures ResolveRequirement(config, requirement).Some? ==>
              && Matches(ResolveRequirement(config, requirement).value, requirement)
              && ResolveRequirement(config, requirement).value in config.apps + config.services
  {
    FirstMatchSpec(config.apps + config.services, requirement);
  }

  /** Apps are searched before Services: a matching app wins over every
      service, and a service is chosen only when no app matches. */
  lemma AppsBeforeServices(config: StartupConfig, requirement: string)
    ensures FirstMatch(config.apps, requirement).Some? ==>
              ResolveRequirement(config, requirement) == Some(config.apps[FirstMatch(config.apps, requirement).value])
    ensures FirstMatch(config.apps, requirement).None? && FirstMatch(config.services, requirement).Some? ==>
              ResolveRequirement(config, requirement) == Some(config.services[FirstMatch(config.services, requirement).value])
    ensures FirstMatch(config.apps, requirement).None? && FirstMatch(config.services, requirement).None? ==>
              ResolveRequirement(config, requirement).None?
  {
    FirstMatchAppend(config.apps, config.services, requirement);
    if FirstMatch(config.apps, requirement).None? && FirstMatch(config.services, requirement).Some? {
      var k := FirstMatch(config.services, requirement).value;
      assert (config.apps + config.services)[|config.apps| + k] == config.services[k];
    }
  }

  /** What one requirement contributes: its project when it resolves. */
  function ResolvedOne(config: StartupConfig, requirement: string): seq<Project> {
    var r := ResolveRequirement(config, requirement);
    if r.Some? then [r.value] else []
  }

  /** The projects the first n requirements resolve to, in requirement
      order; unmatched requirements are skipped. */
  function ResolvedPrefix(config: StartupConfig, requirements: seq<string>, n: nat): (r: seq<Project>)
    requires n <= |requirements|
    ensures |r| <= n
  {
    if n == 0 then []
    else ResolvedPrefix(config, requirements, n - 1) + ResolvedOne(config, requirements[n - 1])
  }

  /** The projects a test's requirements resolve to. */
  function Resolved(config: StartupConfig, requirements: seq<string>): (r: seq<Project>)
    ensures |r| <= |requirements|
  {
    ResolvedPrefix(config, requirements, |requirements|)
  }

  /** Every requirement is resolved exactly when none is skipped. */
  lemma {:induction false} ResolvedPrefixCount(config: StartupConfig, requirements: seq<string>, n: nat)
    requires n <= |requirements|
    ensures |ResolvedPrefix(config, requirements, n)| == n <==>
              forall j :: 0 <= j < n ==> ResolveRequirement(config, requirements[j]).Some?
  {
    if n > 0 {
      ResolvedPrefixCount(config, requirements, n - 1);
    }
  }

  lemma ResolvedCount(config: StartupConfig, requirements: seq<string>)
    ensures |Resolved(config, requirements)| == |requirements| <==>
              forall j :: 0 <= j < |requirements| ==> ResolveRequirement(config, requirements[j]).Some?
  {
    ResolvedPrefixCount(config, requirements, |requirements|);
  }

  /** Every resolved project is one of Apps or Services and matches one of
      the requirements. */
  lemma {:induction false} ResolvedPrefixMatch(config: StartupConfig, requirements: seq<string>, n: nat, k: nat)
    requires n <= |requirements|
    requires k < |ResolvedPrefix(config, requirements, n)|
    ensures ResolvedPrefix(config, requirements, n)[k] in config.apps + config.services
    ensures exists j :: 0 <= j < n && Matches(ResolvedPrefix(config, requirements, n)[k], requirements[j])
  {
    var front := ResolvedPrefix(config, requirements, n - 1);
    if k < |front| {
      ResolvedPrefixMatch(config, requirements, n - 1, k);
    } else {
      ResolveRequirementSpec(config, requirements[n - 1]);
      assert Matches(ResolvedPrefix(config, requirements, n)[k], requirements[n - 1]);
    }
  }

  lemma ResolvedMatch(config: StartupConfig, requirements: seq<string>, k: nat)
    requires k < |Resolved(config, requirements)|
    ensures Resolved(config, requirements)[k] in config.apps + config.services
    ensures exists j :: 0 <= j < |requirements| && Matches(Resolved(config, requirements)[k], requirements[j])
  {
    ResolvedPrefixMatch(config, requirements, |requirements|, k);
  }

  /** The ports the test action queues for n resolved requirements: the
      test project's own port once per requirement, or none without a port. */
  function QueuedPorts(testPort: Option<int>, n: nat): seq<int> {
    if testPort.None? || n == 0 then []
    else QueuedPorts(testPort, n - 1) + [testPort.value]
  }

  /** Every queued port is the test's own port, one per resolved requirement. */
  lemma {:induction false} QueuedPortsAreTestPort(testPort: Option<int>, n: nat)
    ensures testPort.None? ==> QueuedPorts(testPort, n) == []
    ensures testPort.Some? ==> |QueuedPorts(testPort, n)| == n
    ensures forall k :: 0 <= k < |QueuedPorts(testPort, n)| ==> Some(QueuedPorts(testPort, n)[k]) == testPort
  {
    if testPort.Some? && n > 0 {
      QueuedPortsAreTestPort(testPort, n - 1);
    }
  }

  lemma {:induction false} QueuedPortsAppend(testPort: Option<int>, a: nat, b: nat)
    ensures QueuedPorts(testPort, a + b) == QueuedPorts(testPort, a) + QueuedPorts(testPort, b)
    decreases b
  {
    if testPort.Some? && b > 0 {
      QueuedPortsAppend(testPort, a, b - 1);
    }
  }

  /** The projects of a list that StartProject appends: those whose service
      returned a process, with that process assigned. */
  function StartedOf(launch: Launcher, projects: seq<Project>, options: CommandOptions): (r: seq<Project>)
    ensures |r| <= |projects|
  {
    if |projects| == 0 then []
    else
      var last := projects[|projects| - 1];
      StartedOf(launch, projects[..|projects| - 1], options)
        + (if Launched(launch, last, Start, options).Some? then [StartedProject(launch, last, options)] else [])
  }

  /** A single resolved project: appended when its service returned a
      process, started through its framework's service, and, when the test
      has a port, one port queued. */
  lemma SingleProject(launch: Launcher, p: Project, testPort: Option<int>, options: CommandOptions)
    ensures StartedOf(launch, [p], options) ==
              if Launched(launch, p, Start, options).Some? then [StartedProject(launch, p, options)] else []
    ensures StartCallsOf([p], options) == CallsFor(p, Start, options)
  {
    assert [p][..0] == [];
  }

  lemma {:induction false} StartedOfAppend(launch: Launcher, a: seq<Project>, b: seq<Project>, options: CommandOptions)
    ensures StartedOf(launch, a + b, options) == StartedOf(launch, a, options) + StartedOf(launch, b, options)
    decreases |b|
  {
    if |b| == 0 {
      assert a + b == a;
    } else {
      assert (a + b)[..|a + b| - 1] == a + b[..|b| - 1];
      StartedOfAppend(launch, a, b[..|b| - 1], options);
    }
  }

  /** The Start calls StartProject makes for a list of projects. */
  function StartCallsOf(projects: seq<Project>, options: CommandOptions): seq<ServiceCall> {
    if |projects| == 0 then []
    else StartCallsOf(projects[..|projects| - 1], options) + CallsFor(projects[|projects| - 1], Start, options)
  }

  lemma {:induction false} StartCallsOfAppend(a: seq<Project>, b: seq<Project>, options: CommandOptions)
    ensures StartCallsOf(a + b, options) == StartCallsOf(a, options) + StartCallsOf(b, options)
    decreases |b|
  {
    if |b| == 0 {
      assert a + b == a;
    } else {
      assert (a + b)[..|a + b| - 1] == a + b[..|b| - 1];
      StartCallsOfAppend(a, b[..|b| - 1], options);
    }
  }

  /** Each of those calls is a Start call to the project's framework
      service, with the options given. */
  lemma {:induction false} StartCallsOfDispatched(projects: seq<Project>, options: CommandOptions)
    ensures |StartCallsOf(projects, options)| <= |projects|
    ensures forall k :: 0 <= k < |StartCallsOf(projects, options)| ==> Dispatched(StartCallsOf(projects, options)[k], Start, options)
  {
    if |projects| > 0 {
      var a := StartCallsOf(projects[..|projects| - 1], options);
      var b := CallsFor(projects[|projects| - 1], Start, options);
      StartCallsOfDispatched(projects[..|projects| - 1], options);
      assert forall k :: 0 <= k < |a + b| ==> (a + b)[k] == if k < |a| then a[k] else b[k - |a|];
    }
  }

  /** Requirement j extends what the first j requirements start, call and
      queue by what it starts, calls and queues itself. */
  lemma PrefixStep(launch: Launcher, config: StartupConfig, requirements: seq<string>, j: nat,
                   testPort: Option<int>, options: CommandOptions)
    requires j < |requirements|
    ensures StartedOf(launch, ResolvedPrefix(config, requirements, j + 1), options)
            == StartedOf(launch, ResolvedPrefix(config, requirements, j), options)
               + StartedOf(launch, ResolvedOne(config, requirements[j]), options)
    ensures StartCallsOf(ResolvedPrefix(config, requirements, j + 1), options)
            == StartCallsOf(ResolvedPrefix(config, requirements, j), options)
               + StartCallsOf(ResolvedOne(config, requirements[j]), options)
    ensures QueuedPorts(testPort, |ResolvedPrefix(config, requirements, j + 1)|)
            == QueuedPorts(testPort, |ResolvedPrefix(config, requirements, j)|)
               + QueuedPorts(testPort, |ResolvedOne(config, requirements[j])|)
  {
    var done := ResolvedPrefix(config, requirements, j);
    var step := ResolvedOne(config, requirements[j]);
    StartedOfAppend(launch, done, step, options);
    StartCallsOfAppend(done, step, options);
    QueuedPortsAppend(testPort, |done|, |step|);
  }

  lemma AppendAssoc<T>(a: seq<T>, b: seq<T>, c: seq<T>)
    ensures (a + b) + c == a + (b + c)
  {
  }

  // ---------------------------------------------------------------------------
  // The scheduler's order

  // RunInParallel executes the queued actions in an order `order` that
  // satisfies ParallelService.IsOrdering: each of the n actions exactly once.

  /** Index i is among the first k the scheduler ran. */
  predicate Ran(order: seq<nat>, k: nat, i: nat)
    requires k <= |order|
  {
    k > 0 && (order[k - 1] == i || Ran(order, k - 1, i))
  }

  /** The index run at step j has run by every later step. */
  lemma {:induction false} RanAt(order: seq<nat>, k: nat, j: nat)
    requires j < k <= |order|
    ensures Ran(order, k, order[j])
  {
    if j < k - 1 {
      RanAt(order, k - 1, j);
    }
  }

  /** Once the scheduler is done every action has run. */
  lemma OrderComplete(order: seq<nat>, n: nat)
    requires ParallelService.IsOrdering(order, n)
    ensures forall i: nat :: i < n ==> Ran(order, |order|, i)
  {
    forall i: nat | i < n ensures Ran(order, |order|, i) {
      assert i in order;
      var j :| 0 <= j < |order| && order[j] == i;
      RanAt(order, |order|, j);
    }
  }

  /** What the action of a command leaves in its own project. */
  function Acted(launch: Launcher, task: AppTask, project: Project, options: CommandOptions): Project {
    if task == Start then StartedProject(launch, project, options)
    else if task == Test then TestedProject(launch, project, options)
    else InstalledProject(launch, project, options)
  }

  /** The projects after the first k actions ran, each action rewriting its
      own project only. */
  function Applied(launch: Launcher, task: AppTask, projects: seq<Project>, order: seq<nat>, k: nat,
                   options: CommandOptions): (r: seq<Project>)
    requires k <= |order|
    requires forall j :: 0 <= j < |order| ==> order[j] < |projects|
    ensures |r| == |projects|
  {
    if k == 0 then projects
    else
      var i := order[k - 1];
      Applied(launch, task, projects, order, k - 1, options)[i := Acted(launch, task, projects[i], options)]
  }

  /** After k actions, exactly the projects that ran hold their action's
      outcome; the rest are as they were. */
  lemma {:induction false} AppliedRan(launch: Launcher, task: AppTask, projects: seq<Project>, order: seq<nat>, k: nat,
                                      options: CommandOptions)
    requires k <= |order|
    requires forall j :: 0 <= j < |order| ==> order[j] < |projects|
    ensures forall i :: 0 <= i < |projects| ==>
              Applied(launch, task, projects, order, k, options)[i]
              == if Ran(order, k, i) then Acted(launch, task, projects[i], options) else projects[i]
  {
    if k > 0 {
      AppliedRan(launch, task, projects, order, k - 1, options);
    }
  }

  /** Whatever order the scheduler picks, once every action ran each project
      holds its own action's outcome: the result does not depend on the
      order. */
  lemma AppliedComplete(launch: Launcher, task: AppTask, projects: seq<Project>, order: seq<nat>, options: CommandOptions)
    requires ParallelService.IsOrdering(order, |projects|)
    ensures forall i :: 0 <= i < |projects| ==>
              Applied(launch, task, projects, order, |order|, options)[i] == Acted(launch, task, projects[i], options)
  {
    AppliedRan(launch, task, projects, order, |order|, options);
    OrderComplete(order, |projects|);
  }

  /** The calls of the first n Start actions, in the order they ran. */
  function StartCalls(projects: seq<Project>, order: seq<nat>, n: nat, options: CommandOptions): seq<ServiceCall>
    requires n <= |order|
    requires forall k :: 0 <= k < |order| ==> order[k] < |projects|
  {
    if n == 0 then []
    else StartCalls(projects, order, n - 1, options) + CallsFor(projects[order[n - 1]], Start, options)
  }

  /** The calls of one test action: its requirements' starts, then its test run. */
  function TestActionCalls(config: StartupConfig, test: Project, options: CommandOptions): seq<ServiceCall> {
    StartCallsOf(Resolved(config, test.requiredApps), options) + CallsFor(test, Test, options)
  }

  /** The calls of the first n Test actions, in the order they ran. */
  function TestCalls(config: StartupConfig, tests: seq<Project>, order: seq<nat>, n: nat, options: CommandOptions): seq<ServiceCall>
    requires n <= |order|
    requires forall k :: 0 <= k < |order| ==> order[k] < |tests|
  {
    if n == 0 then []
    else TestCalls(config, tests, order, n - 1, options) + TestActionCalls(config, tests[order[n - 1]], options)
  }

  /** The calls of the first n Install actions, in the order they ran. */
  function InstallCalls(projects: seq<Project>, order: seq<nat>, n: nat, options: CommandOptions): seq<ServiceCall>
    requires n <= |order|
    requires forall k :: 0 <= k < |order| ==> order[k] < |projects|
  {
    if n == 0 then []
    else
      var p := projects[order[n - 1]];
      InstallCalls(projects, order, n - 1, options) + CallsFor(p, Install, InstallOptions(p.framework, options))
  }

  /** The requirements the first n test actions resolve, in the order they ran. */
  function OrderedResolved(config: StartupConfig, tests: seq<Project>, order: seq<nat>, n: nat): seq<Project>
    requires n <= |order|
    requires forall k :: 0 <= k < |order| ==> order[k] < |tests|
  {
    if n == 0 then []
    else OrderedResolved(config, tests, order, n - 1) + Resolved(config, tests[order[n - 1]].requiredApps)
  }

  /** A call to the project's own framework service, for the task, with the
      options given. */
  predicate Dispatched(call: ServiceCall, task: AppTask, options: CommandOptions) {
    && call.task == task
    && Some(call.service) == ServiceFor(call.project.framework)
    && call.options == options
  }

  /** Every call Start makes is a Start call to the project's framework
      service, with the command's options; other frameworks make none. */
  lemma {:induction false} StartCallsDispatched(projects: seq<Project>, order: seq<nat>, n: nat, options: CommandOptions)
    requires n <= |order|
    requires forall k :: 0 <= k < |order| ==> order[k] < |projects|
    ensures forall k :: 0 <= k < |StartCalls(projects, order, n, options)| ==>
              Dispatched(StartCalls(projects, order, n, options)[k], Start, options)
  {
    if n > 0 {
      StartCallsDispatched(projects, order, n - 1, options);
      var a := StartCalls(projects, order, n - 1, options);
      var b := CallsFor(projects[order[n - 1]], Start, options);
      assert forall k :: 0 <= k < |a + b| ==> (a + b)[k] == if k < |a| then a[k] else b[k - |a|];
    }
  }

  /** Every call Install makes is an Install call to the project's framework
      service; a Node project gets the verbose options, any other the
      command's options. */
  lemma {:induction false} InstallCallsDispatched(projects: seq<Project>, order: seq<nat>, n: nat, options: CommandOptions)
    requires n <= |order|
    requires forall k :: 0 <= k < |order| ==> order[k] < |projects|
    ensures forall k :: 0 <= k < |InstallCalls(projects, order, n, options)| ==>
              var call := InstallCalls(projects, order, n, options)[k];
              Dispatched(call, Install, InstallOptions(call.project.framework, options))
  {
    if n > 0 {
      InstallCallsDispatched(projects, order, n - 1, options);
      var a := InstallCalls(projects, order, n - 1, options);
      var p := projects[order[n - 1]];
      var b := CallsFor(p, Install, InstallOptions(p.framework, options));
      assert forall k :: 0 <= k < |a + b| ==> (a + b)[k] == if k < |a| then a[k] else b[k - |a|];
    }
  }

  /** Each call is a Start or a Test call to the project's framework
      service, with the options given. */
  predicate StartOrTestCalls(calls: seq<ServiceCall>, options: CommandOptions) {
    forall k :: 0 <= k < |calls| ==> Dispatched(calls[k], Start, options) || Dispatched(calls[k], Test, options)
  }

  lemma StartOrTestConcat(a: seq<ServiceCall>, b: seq<ServiceCall>, options: CommandOptions)
    requires StartOrTestCalls(a, options) && StartOrTestCalls(b, options)
    ensures StartOrTestCalls(a + b, options)
  {
    forall k | 0 <= k < |a + b| ensures Dispatched((a + b)[k], Start, options) || Dispatched((a + b)[k], Test, options) {
      if k < |a| {
        assert (a + b)[k] == a[k];
      } else {
        assert (a + b)[k] == b[k - |a|];
      }
    }
  }

  /** One test action calls Start for its requirements, then Test for itself. */
  lemma TestActionDispatched(config: StartupConfig, test: Project, options: CommandOptions)
    ensures StartOrTestCalls(TestActionCalls(config, test, options), options)
  {
    var b := StartCallsOf(Resolved(config, test.requiredApps), options);
    var c := CallsFor(test, Test, options);
    StartCallsOfDispatched(Resolved(config, test.requiredApps), options);
    assert StartOrTestCalls(b, options);
    assert StartOrTestCalls(c, options);
    StartOrTestConcat(b, c, options);
  }

  /** Every call Test makes is either a Start call for a requirement or a
      Test call, to the project's framework service, with the command's
      options. */
  lemma {:induction false} TestCallsDispatched(config: StartupConfig, tests: seq<Project>, order: seq<nat>, n: nat,
                                               options: CommandOptions)
    requires n <= |order|
    requires forall k :: 0 <= k < |order| ==> order[k] < |tests|
    ensures StartOrTestCalls(TestCalls(config, tests, order, n, options), options)
  {
    if n > 0 {
      TestCallsDispatched(config, tests, order, n - 1, options);
      TestActionDispatched(config, tests[order[n - 1]], options);
      StartOrTestConcat(TestCalls(config, tests, order, n - 1, options),
                        TestActionCalls(config, tests[order[n - 1]], options), options);
    }
  }

  // ---------------------------------------------------------------------------
  // GetEnvironmentVariables

  /** ($"{p.Name}_PORT").ToUnderscoreCase(). */
  function EnvironmentKey(underscore: string -> string, project: Project): string {
    underscore(project.name + "_PORT")
  }

  /** Two of the first n projects with a port have the same key. */
  predicate SharedKey(projects: seq<Project>, underscore: string -> string, n: int)
    requires n <= |projects|
  {
    exists i, j :: 0 <= i < j < n && projects[i].port.Some? && projects[j].port.Some?
                   && EnvironmentKey(underscore, projects[i]) == EnvironmentKey(underscore, projects[j])
  }

  /** A project whose key repeats an earlier project's key is a shared key. */
  lemma SharedKeyWitness(projects: seq<Project>, underscore: string -> string, j: int, i: int)
    requires 0 <= j < i < |projects|
    requires projects[i].port.Some? && projects[j].port.Some?
    requires EnvironmentKey(underscore, projects[j]) == EnvironmentKey(underscore, projects[i])
    ensures SharedKey(projects, underscore, |projects|)
  {
  }

  /** A project whose key differs from every earlier ported project's key
      adds no shared key. */
  lemma SharedKeyExtend(projects: seq<Project>, underscore: string -> string, i: int)
    requires 0 <= i < |projects|
    requires !SharedKey(projects, underscore, i)
    requires projects[i].port.Some? ==>
               forall j :: 0 <= j < i && projects[j].port.Some? ==>
                 EnvironmentKey(underscore, projects[j]) != EnvironmentKey(underscore, projects[i])
    ensures !SharedKey(projects, underscore, i + 1)
  {
  }

  /** The dictionary holds exactly the keys of the first n projects with a
      port, each mapped to its port's decimal text. */
  ghost predicate Exported(output: map<string, string>, projects: seq<Project>, underscore: string -> string, n: int)
    requires n <= |projects|
  {
    && (forall key :: key in output <==>
          exists j :: 0 <= j < n && projects[j].port.Some? && EnvironmentKey(underscore, projects[j]) == key)
    && (forall j :: 0 <= j < n && projects[j].port.Some? ==>
          EnvironmentKey(underscore, projects[j]) in output
          && output[EnvironmentKey(underscore, projects[j])] == IntToString(projects[j].port.value))
  }

  /** Adding a ported project under a new key exports one project more. */
  lemma ExportedAdd(output: map<string, string>, projects: seq<Project>, underscore: string -> string, i: int)
    requires 0 <= i < |projects| && projects[i].port.Some?
    requires Exported(output, projects, underscore, i)
    requires EnvironmentKey(underscore, projects[i]) !in output
    ensures Exported(output[EnvironmentKey(underscore, projects[i]) := IntToString(projects[i].port.value)],
                     projects, underscore, i + 1)
  {
    var key := EnvironmentKey(underscore, projects[i]);
    var after := output[key := IntToString(projects[i].port.value)];
    forall k | k in after
      ensures exists j :: 0 <= j < i + 1 && projects[j].port.Some? && EnvironmentKey(underscore, projects[j]) == k
    {
      if k != key {
        assert k in output;
        var j :| 0 <= j < i && projects[j].port.Some? && EnvironmentKey(underscore, projects[j]) == k;
        assert 0 <= j < i + 1;
      }
    }
    forall j | 0 <= j < i + 1 && projects[j].port.Some?
      ensures EnvironmentKey(underscore, projects[j]) in after
              && after[EnvironmentKey(underscore, projects[j])] == IntToString(projects[j].port.value)
    {
      if j < i {
        assert EnvironmentKey(underscore, projects[j]) in output;
      }
    }
  }

  /** A project without a port adds nothing. */
  lemma ExportedSkip(output: map<string, string>, projects: seq<Project>, underscore: string -> string, i: int)
    requires 0 <= i < |projects| && projects[i].port.None?
    requires Exported(output, projects, underscore, i)
    ensures Exported(output, projects, underscore, i + 1)
  {
  }

  /** The output of List. */
  datatype OutputSummary = OutputSummary(apps: seq<Project>, tests: seq<Project>)

  /** The configured projects' names, one indented line each. */
  function NameLines(projects: seq<Project>): (r: seq<ConsoleLine>)
    ensures |r| == |projects|
    ensures forall k :: 0 <= k < |r| ==> r[k] == DefaultLine("  " + projects[k].name)
  {
    if |projects| == 0 then []
    else NameLines(projects[..|projects| - 1]) + [DefaultLine("  " + projects[|projects| - 1].name)]
  }

  /** PrintAppGroupDetails: nothing for an empty group, otherwise the group's
      emphasized header followed by its projects' names. */
  function GroupLines(projects: seq<Project>, groupName: string): seq<ConsoleLine> {
    if |projects| == 0 then [] else [EmphasizedLine(groupName + ":")] + NameLines(projects)
  }

  /** The header of a group is printed exactly when the group is non-empty:
      "Apps:" appears in List's output iff some app is listed, and likewise
      "Tests:". */
  lemma ListHeaders(apps: seq<Project>, tests: seq<Project>)
    ensures EmphasizedLine("Apps:") in GroupLines(apps, "Apps") + GroupLines(tests, "Tests") <==> |apps| > 0
    ensures EmphasizedLine("Tests:") in GroupLines(apps, "Apps") + GroupLines(tests, "Tests") <==> |tests| > 0
  {
    assert "Apps:" != "Tests:" by { assert |"Apps:"| != |"Tests:"|; }
    assert "Apps" + ":" == "Apps:" && "Tests" + ":" == "Tests:";
    HeaderIn(apps, "Apps", "Apps:");
    HeaderIn(tests, "Tests", "Apps:");
    HeaderIn(apps, "Apps", "Tests:");
    HeaderIn(tests, "Tests", "Tests:");
  }

  /** The only emphasized line of a group is its header. */
  lemma HeaderIn(projects: seq<Project>, groupName: string, header: string)
    ensures EmphasizedLine(header) in GroupLines(projects, groupName) <==> |projects| > 0 && header == groupName + ":"
  {
    if |projects| > 0 {
      var names := NameLines(projects);
      assert GroupLines(projects, groupName)[0] == EmphasizedLine(groupName + ":");
      assert EmphasizedLine(header) !in names by {
        assert forall k :: 0 <= k < |names| ==> names[k].DefaultLine?;
      }
    }
  }


  /** A list the runner appends to (the IList<Project> handed to StartProject). */
  class ProjectList {
    var items: seq<Project>

    constructor (items: seq<Project>)
      ensures this.items == items
    {
      this.items := items;
    }
  }

  class Runner {
    /** The framework services' answers. */
    const launch: Launcher
    /** FilterByOptions. */
    const filter: Filter
    /** ToUnderscoreCase. */
    const underscore: string -> string
    /** The calls made into the framework services, in order. */
    var calls: seq<ServiceCall>
    /** The projects given to options.VariableList, in order. */
    var variableList: seq<Project>
    /** The lines written to the console. */
    var console: seq<ConsoleLine>

    constructor (launch: Launcher, filter: Filter, underscore: string -> string)
      ensures this.launch == launch && this.filter == filter && this.underscore == underscore
      ensures calls == [] && variableList == [] && console == []
    {
      this.launch := launch;
      this.filter := filter;
      this.underscore := underscore;
      calls := [];
      variableList := [];
      console := [];
    }

    /** GetEnvironmentVariables(projects): one `NAME_PORT` entry per project
        with a port, holding the port's decimal text; Dictionary.Add throws
        ArgumentException on a key seen before. */
    method GetEnvironmentVariables(projects: seq<Project>) returns (r: Result<map<string, string>>)
      ensures r.Err? <==> SharedKey(projects, underscore, |projects|)
      ensures r.Err? ==> r.error == ArgumentException
      ensures r.Ok? ==> Exported(r.value, projects, underscore, |projects|)
    {
      var output: map<string, string> := map[];
      for i := 0 to |projects|
        invariant Exported(output, projects, underscore, i)
        invariant !SharedKey(projects, underscore, i)
      {
        var p := projects[i];
        if p.port.Some? {
          var key := underscore(p.name + "_PORT");
          if key in output {
            var j :| 0 <= j < i && projects[j].port.Some? && EnvironmentKey(underscore, projects[j]) == key;
            SharedKeyWitness(projects, underscore, j, i);
            return Err(ArgumentException);
          }
          SharedKeyExtend(projects, underscore, i);
          ExportedAdd(output, projects, underscore, i);
          output := output[key := IntToString(p.port.value)];
        } else {
          SharedKeyExtend(projects, underscore, i);
          ExportedSkip(output, projects, underscore, i);
        }
      }
      r := Ok(output);
    }

    /** StartProject(project, projects, options): dispatch to the project's
        framework service; a returned process is assigned to the project,
        which is then appended to the list when there is one. */
    method StartProject(project: Project, projects: ProjectList?, options: CommandOptions) returns (started: Project)
      modifies this`calls, projects
      ensures calls == old(calls) + CallsFor(project, AppTask.Start, options)
      ensures started == StartedProject(launch, project, options)
      ensures projects != null ==>
                projects.items == old(projects.items) + (if Launched(launch, project, AppTask.Start, options).Some? then [started] else [])
    {
      var process: Option<ProcessRef> := None;
      if project.framework == Dotnet {
        process := launch(DotnetService, AppTask.Start, project, options);
        calls := calls + [ServiceCall(DotnetService, AppTask.Start, project, options)];
      } else if project.framework == Node {
        process := launch(NodeService, AppTask.Start, project, options);
        calls := calls + [ServiceCall(NodeService, AppTask.Start, project, options)];
      }
      started := project;
      if process.Some? {
        started := project.(process := process);
        if projects != null {
          projects.items := projects.items + [started];
        }
      }
    }

    /** Start(options): one queued action per selected app, each starting
        its project; the selected apps are returned, each with the process
        its service returned. */
    method Start(config: StartupConfig, options: CommandOptions, order: seq<nat>) returns (projects: seq<Project>)
      requires ParallelService.IsOrdering(order, |filter(config.apps, options)|)
      modifies this`calls, this`variableList
      ensures variableList == filter(config.apps, options)
      ensures |projects| == |filter(config.apps, options)|
      ensures forall i :: 0 <= i < |projects| ==> projects[i] == StartedProject(launch, filter(config.apps, options)[i], options)
      ensures calls == old(calls) + StartCalls(filter(config.apps, options), order, |order|, options)
    {
      var apps := filter(config.apps, options);
      variableList := apps;
      projects := apps;
      for k := 0 to |order|
        invariant projects == Applied(launch, AppTask.Start, apps, order, k, options)
        invariant calls == old(calls) + StartCalls(apps, order, k, options)
        invariant variableList == apps
      {
        var started := StartProject(apps[order[k]], null, options);
        projects := projects[order[k] := started];
      }
      AppliedComplete(launch, AppTask.Start, apps, order, options);
    }

    /** One requirement of a test: when it resolves, the project is
        recorded in the variable list, the test project's own port is queued
        for the wait, and the project is started into the list. */
    method StartRequirement(config: StartupConfig, requirement: string, testPort: Option<int>,
                            projects: ProjectList, options: CommandOptions)
      returns (ports: seq<int>)
      modifies this`calls, this`variableList, projects
      ensures variableList == old(variableList) + ResolvedOne(config, requirement)
      ensures projects.items == old(projects.items) + StartedOf(launch, ResolvedOne(config, requirement), options)
      ensures calls == old(calls) + StartCallsOf(ResolvedOne(config, requirement), options)
      ensures ports == QueuedPorts(testPort, |ResolvedOne(config, requirement)|)
    {
      ports := [];
      var required := ResolveRequirement(config, requirement);
      if required.Some? {
        SingleProject(launch, required.value, testPort, options);
        variableList := variableList + [required.value];
        if testPort.Some? {
          ports := [testPort.value];
        }
        var _ := StartProject(required.value, projects, options);
      }
    }

    /** Requirement j of the loop below: what the first j requirements
        left in the variable list, the list, the calls and the ports is
        extended by what requirement j does. */
    method StartRequirementAt(config: StartupConfig, requirements: seq<string>, j: nat, testPort: Option<int>,
                              projects: ProjectList, options: CommandOptions, requiredPorts: seq<int>,
                              ghost variables0: seq<Project>, ghost items0: seq<Project>, ghost calls0: seq<ServiceCall>)
      returns (portsAfter: seq<int>)
      requires j < |requirements|
      requires variableList == variables0 + ResolvedPrefix(config, requirements, j)
      requires projects.items == items0 + StartedOf(launch, ResolvedPrefix(config, requirements, j), options)
      requires calls == calls0 + StartCallsOf(ResolvedPrefix(config, requirements, j), options)
      requires requiredPorts == QueuedPorts(testPort, |ResolvedPrefix(config, requirements, j)|)
      modifies this`calls, this`variableList, projects
      ensures variableList == variables0 + ResolvedPrefix(config, requirements, j + 1)
      ensures projects.items == items0 + StartedOf(launch, ResolvedPrefix(config, requirements, j + 1), options)
      ensures calls == calls0 + StartCallsOf(ResolvedPrefix(config, requirements, j + 1), options)
      ensures portsAfter == QueuedPorts(testPort, |ResolvedPrefix(config, requirements, j + 1)|)
    {
      PrefixStep(launch, config, requirements, j, testPort, options);
      ghost var done := ResolvedPrefix(config, requirements, j);
      ghost var step := ResolvedOne(config, requirements[j]);
      var ports := StartRequirement(config, requirements[j], testPort, projects, options);
      AppendAssoc(variables0, done, step);
      AppendAssoc(items0, StartedOf(launch, done, options), StartedOf(launch, step, options));
      AppendAssoc(calls0, StartCallsOf(done, options), StartCallsOf(step, options));
      portsAfter := requiredPorts + ports;
    }

    /** The requirement loop of a test action; `requiredPorts` is the list
        the wait loop would drain. */
    method StartRequirements(config: StartupConfig, project: Project, projects: ProjectList, options: CommandOptions)
      returns (requiredPorts: seq<int>)
      modifies this`calls, this`variableList, projects
      ensures variableList == old(variableList) + Resolved(config, project.requiredApps)
      ensures projects.items == old(projects.items) + StartedOf(launch, Resolved(config, project.requiredApps), options)
      ensures calls == old(calls) + StartCallsOf(Resolved(config, project.requiredApps), options)
      ensures requiredPorts == QueuedPorts(project.port, |Resolved(config, project.requiredApps)|)
    {
      var requirements := project.requiredApps;
      requiredPorts := [];
      ghost var variables0, items0, calls0 := variableList, projects.items, calls;
      if |requirements| > 0 {
        for j := 0 to |requirements|
          invariant variableList == variables0 + ResolvedPrefix(config, requirements, j)
          invariant projects.items == items0 + StartedOf(launch, ResolvedPrefix(config, requirements, j), options)
          invariant calls == calls0 + StartCallsOf(ResolvedPrefix(config, requirements, j), options)
          invariant requiredPorts == QueuedPorts(project.port, |ResolvedPrefix(config, requirements, j)|)
        {
          requiredPorts := StartRequirementAt(config, requirements, j, project.port, projects, options, requiredPorts,
                                              variables0, items0, calls0);
        }
      }
    }

    /** The action Test queues for one test project: its requirements, then
        the test run, whose result is assigned to the project even when null. */
    method RunTest(config: StartupConfig, project: Project, projects: ProjectList, options: CommandOptions)
      returns (tested: Project, requiredPorts: seq<int>)
      modifies this`calls, this`variableList, projects
      ensures variableList == old(variableList) + Resolved(config, project.requiredApps)
      ensures projects.items == old(projects.items) + StartedOf(launch, Resolved(config, project.requiredApps), options)
      ensures calls == old(calls) + TestActionCalls(config, project, options)
      ensures tested == TestedProject(launch, project, options)
      ensures requiredPorts == QueuedPorts(project.port, |Resolved(config, project.requiredApps)|)
    {
      requiredPorts := StartRequirements(config, project, projects, options);
      tested := project;
      if project.framework == Dotnet {
        tested := project.(process := launch(DotnetService, AppTask.Test, project, options));
        calls := calls + [ServiceCall(DotnetService, AppTask.Test, project, options)];
      } else if project.framework == Node {
        tested := project.(process := launch(NodeService, AppTask.Test, project, options));
        calls := calls + [ServiceCall(NodeService, AppTask.Test, project, options)];
      }
    }

    /** Step k of Test's scheduler: test order[k] runs, extending the
        variable list, the started requirements and the calls, and taking
        its test result into its slot. */
    method TestAt(config: StartupConfig, tests: seq<Project>, order: seq<nat>, k: nat, options: CommandOptions,
                  results: seq<Project>, started: ProjectList,
                  ghost variables0: seq<Project>, ghost calls0: seq<ServiceCall>)
      returns (resultsAfter: seq<Project>)
      requires k < |order|
      requires forall j :: 0 <= j < |order| ==> order[j] < |tests|
      requires results == Applied(launch, AppTask.Test, tests, order, k, options)
      requires started.items == StartedOf(launch, OrderedResolved(config, tests, order, k), options)
      requires variableList == variables0 + OrderedResolved(config, tests, order, k)
      requires calls == calls0 + TestCalls(config, tests, order, k, options)
      modifies this`calls, this`variableList, started
      ensures resultsAfter == Applied(launch, AppTask.Test, tests, order, k + 1, options)
      ensures started.items == StartedOf(launch, OrderedResolved(config, tests, order, k + 1), options)
      ensures variableList == variables0 + OrderedResolved(config, tests, order, k + 1)
      ensures calls == calls0 + TestCalls(config, tests, order, k + 1, options)
    {
      var i := order[k];
      StartedOfAppend(launch, OrderedResolved(config, tests, order, k), Resolved(config, tests[i].requiredApps), options);
      var tested, _ := RunTest(config, tests[i], started, options);
      AppendAssoc(variables0, OrderedResolved(config, tests, order, k), Resolved(config, tests[i].requiredApps));
      AppendAssoc(calls0, TestCalls(config, tests, order, k, options), TestActionCalls(config, tests[i], options));
      resultsAfter := results[i := tested];
    }

    /** Test(options): one queued action per selected test. The returned
        list is the selected tests, each with the process its test run
        returned, followed by every requirement that was started, in the
        order the actions ran. The model keeps the tests' own slots in
        `results` and the tail StartProject appends in `started`. */
    method Test(config: StartupConfig, options: CommandOptions, order: seq<nat>) returns (projects: seq<Project>)
      requires ParallelService.IsOrdering(order, |filter(config.tests, options)|)
      modifies this`calls, this`variableList
      ensures |projects| >= |filter(config.tests, options)|
      ensures forall i :: 0 <= i < |filter(config.tests, options)| ==>
                projects[i] == TestedProject(launch, filter(config.tests, options)[i], options)
      ensures projects[|filter(config.tests, options)|..] ==
                StartedOf(launch, OrderedResolved(config, filter(config.tests, options), order, |order|), options)
      ensures variableList == filter(config.tests, options) + OrderedResolved(config, filter(config.tests, options), order, |order|)
      ensures calls == old(calls) + TestCalls(config, filter(config.tests, options), order, |order|, options)
    {
      var tests := filter(config.tests, options);
      variableList := tests;
      var started := new ProjectList([]);
      var results := RunTests(config, tests, options, order, started);
      var appended := started.items;
      AppliedComplete(launch, AppTask.Test, tests, order, options);
      projects := results + appended;
      assert forall i :: 0 <= i < |tests| ==> projects[i] == results[i];
      assert projects[|tests|..] == appended;
    }

    /** The scheduler running Test's queued actions: `results` holds the
        tests' own slots, `started` what StartProject added after them. */
    method RunTests(config: StartupConfig, tests: seq<Project>, options: CommandOptions, order: seq<nat>,
                    started: ProjectList)
      returns (results: seq<Project>)
      requires forall j :: 0 <= j < |order| ==> order[j] < |tests|
      requires started.items == []
      modifies this`calls, this`variableList, started
      ensures results == Applied(launch, AppTask.Test, tests, order, |order|, options)
      ensures started.items == StartedOf(launch, OrderedResolved(config, tests, order, |order|), options)
      ensures variableList == old(variableList) + OrderedResolved(config, tests, order, |order|)
      ensures calls == old(calls) + TestCalls(config, tests, order, |order|, options)
    {
      results := tests;
      ghost var variables0, calls0 := variableList, calls;
      assert variableList == variables0 + [] && calls == calls0 + [];
      for k := 0 to |order|
        invariant results == Applied(launch, AppTask.Test, tests, order, k, options)
        invariant started.items == StartedOf(launch, OrderedResolved(config, tests, order, k), options)
        invariant variableList == variables0 + OrderedResolved(config, tests, order, k)
        invariant calls == calls0 + TestCalls(config, tests, order, k, options)
      {
        results := TestAt(config, tests, order, k, options, results, started, variables0, calls0);
      }
    }

    /** The action Install queues for one project. */
    method InstallProject(project: Project, options: CommandOptions) returns (installed: Project)
      modifies this`calls
      ensures calls == old(calls) + CallsFor(project, AppTask.Install, InstallOptions(project.framework, options))
      ensures installed == InstalledProject(launch, project, options)
    {
      var process: Option<ProcessRef> := None;
      if project.framework == Dotnet {
        process := launch(DotnetService, AppTask.Install, project, options);
        calls := calls + [ServiceCall(DotnetService, AppTask.Install, project, options)];
      } else if project.framework == Node {
        process := launch(NodeService, AppTask.Install, project, VerboseOptions);
        calls := calls + [ServiceCall(NodeService, AppTask.Install, project, VerboseOptions)];
      }
      installed := project;
      if process.Some? {
        installed := project.(process := process);
      }
    }

    /** Install(options): one queued action per selected project of Apps
        followed by Tests; the selection is returned, each project with the
        process its install returned. */
    method Install(config: StartupConfig, options: CommandOptions, order: seq<nat>) returns (projects: seq<Project>)
      requires ParallelService.IsOrdering(order, |filter(config.apps + config.tests, options)|)
      modifies this`calls
      ensures |projects| == |filter(config.apps + config.tests, options)|
      ensures forall i :: 0 <= i < |projects| ==>
                projects[i] == InstalledProject(launch, filter(config.apps + config.tests, options)[i], options)
      ensures calls == old(calls) + InstallCalls(filter(config.apps + config.tests, options), order, |order|, options)
    {
      var selected := filter(config.apps + config.tests, options);
      projects := selected;
      for k := 0 to |order|
        invariant projects == Applied(launch, AppTask.Install, selected, order, k, options)
        invariant calls == old(calls) + InstallCalls(selected, order, k, options)
      {
        var installed := InstallProject(selected[order[k]], options);
        projects := projects[order[k] := installed];
      }
      AppliedComplete(launch, AppTask.Install, selected, order, options);
    }

    /** PrintAppGroupDetails(inputApps, outputApps, groupName): the projects
        added to the summary list, and the lines written. */
    method PrintAppGroupDetails(inputApps: seq<Project>, groupName: string) returns (outputApps: seq<Project>)
      modifies this`console
      ensures outputApps == inputApps
      ensures console == old(console) + GroupLines(inputApps, groupName)
    {
      outputApps := [];
      if |inputApps| > 0 {
        console := console + [EmphasizedLine(groupName + ":")];
        ghost var start := console;
        for k := 0 to |inputApps|
          invariant outputApps == inputApps[..k]
          invariant console == start + NameLines(inputApps[..k])
        {
          assert inputApps[..k + 1][..k] == inputApps[..k];
          outputApps := outputApps + [inputApps[k]];
          AppendAssoc(start, NameLines(inputApps[..k]), [DefaultLine("  " + inputApps[k].name)]);
          console := console + [DefaultLine("  " + inputApps[k].name)];
        }
        assert inputApps[..|inputApps|] == inputApps;
        AppendAssoc(old(console), [EmphasizedLine(groupName + ":")], NameLines(inputApps));
      }
    }

    /** List(options): the selected apps and tests, each group printed under
        its header when it is non-empty. */
    method List(config: StartupConfig, options: CommandOptions) returns (output: OutputSummary)
      modifies this`console
      ensures output == OutputSummary(filter(config.apps, options), filter(config.tests, options))
      ensures console == old(console) + GroupLines(filter(config.apps, options), "Apps")
                                      + GroupLines(filter(config.tests, options), "Tests")
    {
      var apps := filter(config.apps, options);
      var tests := filter(config.tests, options);
      var listedApps := PrintAppGroupDetails(apps, "Apps");
      var listedTests := PrintAppGroupDetails(tests, "Tests");
      output := OutputSummary(listedApps, listedTests);
    }
  }
}
