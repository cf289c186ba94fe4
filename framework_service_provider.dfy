/** FrameworkServiceProvider: the framework service for a project framework. */
module FrameworkServiceProvider {
  import opened Wrappers
  import opened Models

  /** The services the provider resolves. */
  datatype FrameworkServiceKind = DotnetService | NodeService

  /** GetFrameworkService(framework): Dotnet and Node have a service, Any is
      rejected with ArgumentException and every other value throws
      NotImplementedException. */
  function GetFrameworkService(framework: ProjectFramework): (r: Result<FrameworkServiceKind>)
    ensures r == Ok(DotnetService) <==> framework == Dotnet
    ensures r == Ok(NodeService) <==> framework == Node
    ensures r == Err(ArgumentException) <==> framework == Any
    ensures r == Err(NotImplementedException) <==> framework.Unlisted?
  {
    match framework
    case Dotnet => Ok(DotnetService)
    case Node => Ok(NodeService)
    case Any => Err(ArgumentException)
    case Unlisted(_) => Err(NotImplementedException)
  }

  /** Every framework gets a service or one of the two exceptions. */
  lemma GetFrameworkServiceTotal(framework: ProjectFramework)
    ensures var r := GetFrameworkService(framework);
            r.Ok? || r.error == ArgumentException || r.error == NotImplementedException
    ensures GetFrameworkService(framework).Ok? <==> framework == Dotnet || framework == Node
  {
  }
}
