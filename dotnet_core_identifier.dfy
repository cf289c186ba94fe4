/** DotnetCoreIdentifier: recognises .NET projects in a directory and fills in
    their framework, type and, for web projects, a port from a counter. */
module DotnetCoreIdentifier {
  import opened Wrappers
  import opened Text
  import opened Models

  /** The counter's first value. */
  const InitialPort: int := 8080

  /** The project-file extension looked for. */
  const ProjectFileExtension: string := ".csproj"

  /** ShouldIdentify: every directory is worth identifying. */
  function ShouldIdentify(project: Option<Project>, directoryContents: Option<seq<string>>): (r: bool)
    ensures r
  {
    true
  }

  /** Port++ on an int: C#'s unchecked arithmetic wraps Int32Max round to Int32Min. */
  function Increment(n: int): (r: int)
    requires Int32Min <= n <= Int32Max
    ensures Int32Min <= r <= Int32Max
    ensures n < Int32Max ==> r == n + 1
    ensures n == Int32Max ==> r == Int32Min
  {
    if n == Int32Max then Int32Min else n + 1
  }

  /** Some path of the directory ends with ".csproj", ignoring case. */
  predicate HasProjectFile(paths: seq<string>) {
    exists k :: 0 <= k < |paths| && EndsWithIgnoreCase(paths[k], ProjectFileExtension)
  }

  class Identifier {
    /** The next port handed to a web project, an Int32. */
    var port: int

    predicate Valid()
      reads this
    {
      Int32Min <= port <= Int32Max
    }

    constructor ()
      ensures Valid() && port == InitialPort
    {
      port := InitialPort;
    }

    /** IsMatchAsync(project, directoryContents): a project already marked
        Dotnet matches; otherwise the directory (its paths, or null) must hold
        a project file. */
    method IsMatch(project: Option<Project>, directoryContents: Option<seq<string>>) returns (r: bool)
      ensures project.Some? && project.value.framework == Dotnet ==> r
      ensures !(project.Some? && project.value.framework == Dotnet) ==>
                (r <==> directoryContents.Some? && HasProjectFile(directoryContents.value))
    {
      if project.Some? && project.value.framework == Dotnet {
        return true;
      }
      if directoryContents.Some? && |directoryContents.value| > 0 {
        var paths := directoryContents.value;
        for k := 0 to |paths|
          invariant forall j :: 0 <= j < k ==> !EndsWithIgnoreCase(paths[j], ProjectFileExtension)
        {
          if EndsWithIgnoreCase(paths[k], ProjectFileExtension) {
            return true;
          }
        }
      }
      return false;
    }

    /** CreateOrModifyAsync: `baseProject` is what the base identifier made of
        the directory. The project becomes Dotnet; a name containing "test"
        (ignoring case) makes it a Unit project with the base's port, any
        other a Web project on the counter's port. The counter advances on
        every call, wrapping round at the end of the Int32 range. */
    method CreateOrModify(baseProject: Project) returns (project: Project)
      requires Valid()
      modifies this
      ensures Valid() && port == Increment(old(port))
      ensures project.framework == Dotnet
      ensures ContainsIgnoreCase(baseProject.name, "test") ==>
                project == baseProject.(framework := Dotnet, kind := Unit)
      ensures !ContainsIgnoreCase(baseProject.name, "test") ==>
                project == baseProject.(framework := Dotnet, kind := Web, port := Some(old(port)))
    {
      project := baseProject.(framework := Dotnet);
      if ContainsIgnoreCase(project.name, "test") {
        project := project.(kind := Unit);
      } else {
        project := project.(kind := Web, port := Some(port));
      }
      port := Increment(port);
    }
  }

  /** The identifier's unit test: the first project identified on a fresh
      identifier, when it is a web project, is given port 8080. */
  method FirstWebProject(baseProject: Project) returns (project: Project)
    requires !ContainsIgnoreCase(baseProject.name, "test")
    ensures project.kind == Web && project.framework == Dotnet && project.port == Some(8080)
  {
    var identifier := new Identifier();
    project := identifier.CreateOrModify(baseProject);
  }

  /** A unit project still advances the counter: a web project identified
      after it is given 8081. */
  method UnitThenWeb(testProject: Project, webProject: Project) returns (first: Project, second: Project)
    requires ContainsIgnoreCase(testProject.name, "test")
    requires !ContainsIgnoreCase(webProject.name, "test")
    ensures first.kind == Unit && first.port == testProject.port
    ensures second.kind == Web && second.port == Some(InitialPort + 1)
  {
    var identifier := new Identifier();
    first := identifier.CreateOrModify(testProject);
    second := identifier.CreateOrModify(webProject);
  }
}
