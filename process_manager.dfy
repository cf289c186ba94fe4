/** ProcessManager: the registry of managed processes, keyed by their Guid. */
module ProcessManager {
  import opened Wrappers

  /** A Guid, by its value. */
  type Guid = nat

  /** A ManagedProcess as the registry sees it: its id and what it was
      created with (`serviceName` names the log sink created for it). */
  datatype ManagedProcess = ManagedProcess(
    id: Guid,
    serviceName: string,
    fileName: string,
    arguments: string,
    workingDirectory: string)

  class Registry {
    /** _managedProcesses. */
    var managed: map<Guid, ManagedProcess>
    /** The ids whose process KillAsync was called on, in call order. */
    var killed: seq<Guid>

    /** Each key is its process's Id. */
    ghost predicate Valid()
      reads this
    {
      forall id :: id in managed ==> managed[id].id == id
    }

    constructor ()
      ensures managed == map[] && killed == []
      ensures Valid()
    {
      managed := map[];
      killed := [];
    }

    /** CreateAsync: `id` is the value Guid.NewGuid() returned and
        `currentDirectory` the file system's WorkingDirectory at the time of
        the call, used when no directory is given. The process is added under
        its id; an id that is already registered throws
        InvalidOperationException and leaves the registry as it was. */
    method CreateAsync(serviceName: string, fileName: string, arguments: string,
                       workingDirectory: Option<string>, currentDirectory: string, id: Guid)
      returns (r: Result<ManagedProcess>)
      requires Valid()
      modifies this
      ensures Valid()
      ensures killed == old(killed)
      ensures r.Ok? <==> id !in old(managed)
      ensures r.Ok? ==> managed == old(managed)[id := r.value]
      ensures r.Ok? ==> r.value == ManagedProcess(id, serviceName, fileName, arguments,
                                                  if workingDirectory.Some? then workingDirectory.value else currentDirectory)
      ensures r.Err? ==> r.error == InvalidOperationException && managed == old(managed)
    {
      var directory := if workingDirectory.Some? then workingDirectory.value else currentDirectory;
      var process := ManagedProcess(id, serviceName, fileName, arguments, directory);
      if process.id in managed {
        return Err(InvalidOperationException);
      }
      managed := managed[process.id := process];
      r := Ok(process);
    }

    /** ShutdownAsync: remove the process and kill it, returning true; an
        unknown id throws InvalidOperationException and nothing is killed. */
    method ShutdownAsync(id: Guid) returns (r: Result<bool>)
      requires Valid()
      modifies this
      ensures Valid()
      ensures id !in old(managed) ==> r == Err(InvalidOperationException) && managed == old(managed) && killed == old(killed)
      ensures id in old(managed) ==> r == Ok(true) && managed == old(managed) - {id} && killed == old(killed) + [id]
    {
      if id !in managed {
        return Err(InvalidOperationException);
      }
      var process := managed[id];
      managed := managed - {id};
      killed := killed + [process.id];
      r := Ok(true);
    }
  }

  /** Creating a process under a fresh id and shutting it down leaves the
      registry as it was, with that one process killed. */
  method CreateThenShutdown(registry: Registry, serviceName: string, fileName: string, arguments: string,
                            workingDirectory: Option<string>, currentDirectory: string, id: Guid)
    returns (created: Result<ManagedProcess>, stopped: Result<bool>)
    requires registry.Valid() && id !in registry.managed
    modifies registry
    ensures registry.Valid()
    ensures created.Ok? && created.value.id == id && stopped == Ok(true)
    ensures registry.managed == old(registry.managed)
    ensures registry.killed == old(registry.killed) + [id]
  {
    created := registry.CreateAsync(serviceName, fileName, arguments, workingDirectory, currentDirectory, id);
    stopped := registry.ShutdownAsync(id);
    assert registry.managed == old(registry.managed);
  }

  /** A second CreateAsync for the same id fails and changes nothing. */
  method CreateTwice(registry: Registry, serviceName: string, fileName: string, arguments: string,
                     workingDirectory: Option<string>, currentDirectory: string, id: Guid)
    returns (first: Result<ManagedProcess>, second: Result<ManagedProcess>)
    requires registry.Valid() && id !in registry.managed
    modifies registry
    ensures registry.Valid()
    ensures first.Ok? && second == Err(InvalidOperationException)
    ensures registry.managed == old(registry.managed)[id := first.value]
  {
    first := registry.CreateAsync(serviceName, fileName, arguments, workingDirectory, currentDirectory, id);
    second := registry.CreateAsync(serviceName, fileName, arguments, workingDirectory, currentDirectory, id);
  }
}
