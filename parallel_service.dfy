/** ParallelService: two queues of actions run as a parallel batch followed by
    the serial list, and a barrier that polls for listening ports until every
    project being waited on has been seen. */
module ParallelService {
  import opened Wrappers
  import opened Models

  /** A queued delegate, known by an identifier. */
  datatype Action = Action(id: nat)

  /** `order` lists each of the indices 0 .. n-1 exactly once: the order in
      which a scheduler happened to run n queued actions. */
  predicate IsOrdering(order: seq<nat>, n: nat) {
    && |order| == n
    && (forall k :: 0 <= k < |order| ==> order[k] < n)
    && (forall a, b :: 0 <= a < b < |order| ==> order[a] != order[b])
    && (forall i :: 0 <= i < n ==> i in order)
  }

  /** The actions at the positions `order` names, in that order. */
  function Scheduled(actions: seq<Action>, order: seq<nat>): (r: seq<Action>)
    requires forall k :: 0 <= k < |order| ==> order[k] < |actions|
    ensures |r| == |order|
    ensures forall k :: 0 <= k < |r| ==> r[k] == actions[order[k]]
  {
    if |order| == 0 then []
    else
      var rest := Scheduled(actions, order[1..]);
      assert forall k :: 1 <= k < |order| ==> order[k] == order[1..][k - 1];
      [actions[order[0]]] + rest
  }

  /** Some action of the list throws. */
  predicate AnyFails(actions: seq<Action>, fails: Action -> bool) {
    exists k :: 0 <= k < |actions| && fails(actions[k])
  }

  /** What the serial foreach runs: the actions up to and including the first
      one that throws, or all of them when none does. */
  function SerialRun(actions: seq<Action>, fails: Action -> bool): (r: seq<Action>)
    ensures |r| <= |actions| && r == actions[..|r|]
    ensures forall k :: 0 <= k < |r| - 1 ==> !fails(r[k])
    ensures !AnyFails(actions, fails) ==> r == actions
    ensures AnyFails(actions, fails) ==> |r| > 0 && fails(r[|r| - 1])
  {
    if |actions| == 0 then []
    else if fails(actions[0]) then [actions[0]]
    else
      var rest := SerialRun(actions[1..], fails);
      assert forall k :: 1 <= k < |actions| ==> actions[k] == actions[1..][k - 1];
      [actions[0]] + rest
  }

  class Scheduler {
    /** ParallelActions, in insertion order. */
    var parallelActions: seq<Action>
    /** SerialActions, in insertion order. */
    var serialActions: seq<Action>

    constructor ()
      ensures parallelActions == [] && serialActions == []
    {
      parallelActions := [];
      serialActions := [];
    }

    /** Queue(isSerial, action): append to the serial list or the parallel list, only. */
    method Queue(isSerial: bool, action: Action)
      modifies this
      ensures isSerial ==> serialActions == old(serialActions) + [action] && parallelActions == old(parallelActions)
      ensures !isSerial ==> parallelActions == old(parallelActions) + [action] && serialActions == old(serialActions)
    {
      if isSerial {
        QueueSerial(action);
      } else {
        QueueParallel(action);
      }
    }

    method QueueParallel(action: Action)
      modifies this
      ensures parallelActions == old(parallelActions) + [action]
      ensures serialActions == old(serialActions)
    {
      parallelActions := parallelActions + [action];
    }

    method QueueSerial(action: Action)
      modifies this
      ensures serialActions == old(serialActions) + [action]
      ensures parallelActions == old(parallelActions)
    {
      serialActions := serialActions + [action];
    }

    /** RunAll: Parallel.Invoke runs every parallel action, in the order
        `order` the runtime chose, and afterwards throws AggregateException if
        any of them threw; otherwise the serial actions run in queue order
        until one throws. `log` is what ran, in order; `fails` says which
        actions throw. Neither list is altered. */
    method RunAll(order: seq<nat>, fails: Action -> bool) returns (log: seq<Action>, r: Outcome)
      requires IsOrdering(order, |parallelActions|)
      ensures |log| >= |parallelActions| && multiset(log[..|parallelActions|]) == multiset(parallelActions)
      ensures AnyFails(parallelActions, fails) ==>
                log == Scheduled(parallelActions, order) && r == Fail(AggregateException)
      ensures !AnyFails(parallelActions, fails) ==>
                log == Scheduled(parallelActions, order) + SerialRun(serialActions, fails)
      ensures !AnyFails(parallelActions, fails) ==>
                r == if AnyFails(serialActions, fails) then Fail(ActionException) else Pass
    {
      var failed;
      log, failed := RunBatch(order, fails);
      BatchFails(parallelActions, order, fails);
      BatchRunsEachOnce(parallelActions, order);
      assert log[..|parallelActions|] == log;
      if failed {
        return log, Fail(AggregateException);
      }
      var serial;
      serial, r := RunSerial(fails);
      ghost var batch := log;
      log := log + serial;
      assert log[..|parallelActions|] == batch;
    }

    /** Parallel.Invoke's batch: every position of `order` runs once; the
        batch failed when one of the actions it ran threw. */
    method RunBatch(order: seq<nat>, fails: Action -> bool) returns (log: seq<Action>, failed: bool)
      requires forall k :: 0 <= k < |order| ==> order[k] < |parallelActions|
      ensures log == Scheduled(parallelActions, order)
      ensures failed <==> AnyFails(log, fails)
    {
      log := [];
      failed := false;
      for k := 0 to |order|
        invariant log == Scheduled(parallelActions, order[..k])
        invariant failed <==> AnyFails(log, fails)
      {
        var action := parallelActions[order[k]];
        assert order[..k + 1] == order[..k] + [order[k]];
        ScheduledSnoc(parallelActions, order[..k], order[k]);
        AnyFailsSnoc(log, action, fails);
        log := log + [action];
        failed := failed || fails(action);
      }
      assert order[..|order|] == order;
    }

    /** The foreach over SerialActions: each runs in turn, and the first that
        throws ends it. */
    method RunSerial(fails: Action -> bool) returns (log: seq<Action>, r: Outcome)
      ensures log == SerialRun(serialActions, fails)
      ensures r == if AnyFails(serialActions, fails) then Fail(ActionException) else Pass
    {
      log := [];
      for i := 0 to |serialActions|
        invariant log == serialActions[..i]
        invariant !AnyFails(log, fails)
      {
        var action := serialActions[i];
        assert serialActions[..i + 1] == serialActions[..i] + [action];
        log := log + [action];
        if fails(action) {
          SerialStopsAt(serialActions, fails, i);
          return log, Fail(ActionException);
        }
      }
      assert serialActions[..|serialActions|] == serialActions;
      r := Pass;
    }
  }

  /** One more position scheduled appends its action. */
  lemma ScheduledSnoc(actions: seq<Action>, order: seq<nat>, i: nat)
    requires forall k :: 0 <= k < |order| ==> order[k] < |actions|
    requires i < |actions|
    ensures Scheduled(actions, order + [i]) == Scheduled(actions, order) + [actions[i]]
  {
    var r := Scheduled(actions, order + [i]);
    assert forall k :: 0 <= k < |order| ==> (order + [i])[k] == order[k];
    assert r[|order|] == actions[i];
  }

  /** One more action makes the list fail iff it, or one before it, throws. */
  lemma AnyFailsSnoc(actions: seq<Action>, action: Action, fails: Action -> bool)
    ensures AnyFails(actions + [action], fails) <==> AnyFails(actions, fails) || fails(action)
  {
    var longer := actions + [action];
    assert longer[|actions|] == action;
    assert forall k :: 0 <= k < |actions| ==> longer[k] == actions[k];
  }

  /** The batch throws iff one of the queued parallel actions does, whatever
      the order. */
  lemma BatchFails(actions: seq<Action>, order: seq<nat>, fails: Action -> bool)
    requires IsOrdering(order, |actions|)
    ensures AnyFails(Scheduled(actions, order), fails) <==> AnyFails(actions, fails)
  {
    ScheduledFailureQueued(actions, order, fails);
    QueuedFailureScheduled(actions, order, fails);
  }

  lemma ScheduledFailureQueued(actions: seq<Action>, order: seq<nat>, fails: Action -> bool)
    requires forall k :: 0 <= k < |order| ==> order[k] < |actions|
    ensures AnyFails(Scheduled(actions, order), fails) ==> AnyFails(actions, fails)
  {
    var s := Scheduled(actions, order);
    if AnyFails(s, fails) {
      var k :| 0 <= k < |s| && fails(s[k]);
      assert fails(actions[order[k]]);
    }
  }

  lemma QueuedFailureScheduled(actions: seq<Action>, order: seq<nat>, fails: Action -> bool)
    requires forall k :: 0 <= k < |order| ==> order[k] < |actions|
    requires forall i :: 0 <= i < |actions| ==> i in order
    ensures AnyFails(actions, fails) ==> AnyFails(Scheduled(actions, order), fails)
  {
    var s := Scheduled(actions, order);
    if AnyFails(actions, fails) {
      var i :| 0 <= i < |actions| && fails(actions[i]);
      assert i in order;
      var k :| 0 <= k < |order| && order[k] == i;
      assert fails(s[k]);
    }
  }

  /** A serial action that throws after none before it did ends the run there. */
  lemma {:induction false} SerialStopsAt(actions: seq<Action>, fails: Action -> bool, i: nat)
    requires i < |actions| && fails(actions[i])
    requires !AnyFails(actions[..i], fails)
    ensures SerialRun(actions, fails) == actions[..i + 1]
  {
    if i > 0 {
      assert !fails(actions[..i][0]);
      var tail := actions[1..];
      var before := tail[..i - 1];
      forall k | 0 <= k < |before| ensures !fails(before[k]) {
        assert before[k] == actions[..i][k + 1];
      }
      SerialStopsAt(tail, fails, i - 1);
      assert actions[..i + 1] == [actions[0]] + tail[..i];
    }
  }

  /** Each queued parallel action runs exactly as often as it was queued:
      the batch is a permutation of the parallel list. */
  lemma BatchRunsEachOnce(actions: seq<Action>, order: seq<nat>)
    requires IsOrdering(order, |actions|)
    ensures multiset(Scheduled(actions, order)) == multiset(actions)
  {
    ScheduledPicked(actions, order);
    OrderingPositions(order, |actions|);
    PickedAll(actions);
  }

  /** An ordering of n names exactly the indices below n. */
  lemma OrderingPositions(order: seq<nat>, n: nat)
    requires IsOrdering(order, n)
    ensures Positions(order) == Indices(n)
  {
    forall i | i in Indices(n) ensures i in Positions(order) {
      InIndices(i, n);
      assert i in order;
    }
    forall i | i in Positions(order) ensures i in Indices(n) {
      InIndices(i, n);
    }
  }

  /** The indices below n. */
  ghost function Indices(n: nat): set<nat> {
    if n == 0 then {} else Indices(n - 1) + {n - 1}
  }

  lemma {:induction false} InIndices(i: nat, n: nat)
    ensures i in Indices(n) <==> i < n
  {
    if n > 0 {
      InIndices(i, n - 1);
    }
  }

  /** The indices an order names. */
  ghost function Positions(order: seq<nat>): set<nat> {
    set k | 0 <= k < |order| :: order[k]
  }

  /** The actions at a set of indices, as a multiset. */
  ghost function Picked(actions: seq<Action>, indices: set<nat>): multiset<Action>
    decreases |actions|
  {
    if |actions| == 0 then multiset{}
    else
      Picked(actions[..|actions| - 1], indices)
      + (if |actions| - 1 in indices then multiset{actions[|actions| - 1]} else multiset{})
  }

  /** Indices past the end pick nothing. */
  lemma {:induction false} PickedBeyond(actions: seq<Action>, indices: set<nat>, x: nat)
    requires x >= |actions|
    ensures Picked(actions, indices + {x}) == Picked(actions, indices)
    decreases |actions|
  {
    if |actions| > 0 {
      PickedBeyond(actions[..|actions| - 1], indices, x);
    }
  }

  /** One more index in range picks its action once more. */
  lemma {:induction false} PickedAdd(actions: seq<Action>, indices: set<nat>, x: nat)
    requires x < |actions| && x !in indices
    ensures Picked(actions, indices + {x}) == Picked(actions, indices) + multiset{actions[x]}
    decreases |actions|
  {
    var front := actions[..|actions| - 1];
    if x == |actions| - 1 {
      PickedBeyond(front, indices, x);
      PickedLast(actions, indices);
    } else {
      PickedAdd(front, indices, x);
      PickedEarlier(actions, indices, x);
    }
  }

  lemma PickedLast(actions: seq<Action>, indices: set<nat>)
    requires |actions| > 0 && |actions| - 1 !in indices
    requires Picked(actions[..|actions| - 1], indices + {|actions| - 1}) == Picked(actions[..|actions| - 1], indices)
    ensures Picked(actions, indices + {|actions| - 1}) == Picked(actions, indices) + multiset{actions[|actions| - 1]}
  {
  }

  lemma PickedEarlier(actions: seq<Action>, indices: set<nat>, x: nat)
    requires x < |actions| - 1 && x !in indices
    requires Picked(actions[..|actions| - 1], indices + {x})
             == Picked(actions[..|actions| - 1], indices) + multiset{actions[x]}
    ensures Picked(actions, indices + {x}) == Picked(actions, indices) + multiset{actions[x]}
  {
    assert (|actions| - 1 in indices + {x}) == (|actions| - 1 in indices);
  }

  /** Every index in range picks the whole list. */
  lemma {:induction false} PickedAll(actions: seq<Action>)
    ensures Picked(actions, Indices(|actions|)) == multiset(actions)
    decreases |actions|
  {
    var n := |actions|;
    if n > 0 {
      var front := actions[..n - 1];
      PickedAll(front);
      PickedBeyond(front, Indices(n - 1), n - 1);
      SplitLast(actions);
    }
  }

  /** A schedule without repeats runs exactly the actions at the indices it names. */
  lemma {:induction false} ScheduledPicked(actions: seq<Action>, order: seq<nat>)
    requires forall k :: 0 <= k < |order| ==> order[k] < |actions|
    requires forall a, b :: 0 <= a < b < |order| ==> order[a] != order[b]
    ensures multiset(Scheduled(actions, order)) == Picked(actions, Positions(order))
    decreases |order|
  {
    var m := |order|;
    if m == 0 {
      assert Positions(order) == {};
      PickedNone(actions);
    } else {
      var front := order[..m - 1];
      var last := order[m - 1];
      ScheduledPicked(actions, front);
      forall k | 0 <= k < |front| ensures front[k] != last {
        assert front[k] == order[k];
      }
      ScheduledPickedStep(actions, front, last);
      SplitLastIndex(order);
    }
  }

  lemma ScheduledPickedStep(actions: seq<Action>, front: seq<nat>, last: nat)
    requires forall k :: 0 <= k < |front| ==> front[k] < |actions|
    requires last < |actions|
    requires forall k :: 0 <= k < |front| ==> front[k] != last
    requires multiset(Scheduled(actions, front)) == Picked(actions, Positions(front))
    ensures multiset(Scheduled(actions, front + [last])) == Picked(actions, Positions(front + [last]))
  {
    ScheduledSnoc(actions, front, last);
    PositionsSnoc(front, last);
    PickedAdd(actions, Positions(front), last);
  }

  lemma SplitLastIndex(order: seq<nat>)
    requires |order| > 0
    ensures order == order[..|order| - 1] + [order[|order| - 1]]
  {
  }

  lemma PositionsSnoc(order: seq<nat>, x: nat)
    ensures Positions(order + [x]) == Positions(order) + {x}
  {
    var longer := order + [x];
    assert forall k :: 0 <= k < |order| ==> longer[k] == order[k];
    assert longer[|order|] == x;
  }

  /** No index picks nothing. */
  lemma {:induction false} PickedNone(actions: seq<Action>)
    ensures Picked(actions, {}) == multiset{}
    decreases |actions|
  {
    if |actions| > 0 {
      PickedNone(actions[..|actions| - 1]);
    }
  }

  /** A non-empty sequence is its front followed by its last element. */
  lemma SplitLast(a: seq<Action>)
    requires |a| > 0
    ensures a == a[..|a| - 1] + [a[|a| - 1]]
  {
  }

  /** The scenario of the scheduler's unit test: two parallel actions and
      `taskCount` serial ones on a fresh service, none of which throws: both
      parallel actions run once, then the serial one `taskCount` times. */
  method SerialAfterParallel(first: Action, second: Action, serialAction: Action, taskCount: nat,
                             order: seq<nat>, fails: Action -> bool)
    returns (log: seq<Action>, r: Outcome)
    requires IsOrdering(order, 2)
    requires !fails(first) && !fails(second) && !fails(serialAction)
    ensures r == Pass && |log| == 2 + taskCount
    ensures multiset(log[..2]) == multiset{first, second}
    ensures forall k :: 2 <= k < |log| ==> log[k] == serialAction
  {
    var service := new Scheduler();
    service.QueueParallel(first);
    service.QueueParallel(second);
    for i := 0 to taskCount
      invariant service.parallelActions == [first, second]
      invariant |service.serialActions| == i
      invariant forall k :: 0 <= k < i ==> service.serialActions[k] == serialAction
    {
      service.QueueSerial(serialAction);
    }
    assert !AnyFails(service.parallelActions, fails);
    assert !AnyFails(service.serialActions, fails);
    log, r := service.RunAll(order, fails);
  }

  // ---------------------------------------------------------------------------
  // Waiting on ports

  /** The dictionary of projects still waited on, keyed by port; the caller's
      dictionary is the one emptied. */
  class PortTable {
    var entries: map<int, Project>

    constructor (entries: map<int, Project>)
      ensures this.entries == entries
    {
      this.entries := entries;
    }
  }

  /** The ports reported listening by polls 0 .. n-1; `poll(j)` is the port
      list GetListeningPorts returns on poll j. */
  function ReportedBy(poll: nat -> seq<int>, n: nat): (r: set<int>)
    ensures n > 0 ==> Elements(poll(n - 1)) <= r
  {
    if n == 0 then {} else ReportedBy(poll, n - 1) + Elements(poll(n - 1))
  }

  /** The ports of one poll, as a set. */
  function Elements(ports: seq<int>): (r: set<int>)
    ensures forall p :: p in r <==> p in ports
  {
    set k | 0 <= k < |ports| :: ports[k]
  }

  /** Polls only add to what has been reported. */
  lemma {:induction false} ReportedByMonotone(poll: nat -> seq<int>, m: nat, n: nat)
    requires m <= n
    ensures ReportedBy(poll, m) <= ReportedBy(poll, n)
    decreases n - m
  {
    if m < n {
      ReportedByMonotone(poll, m, n - 1);
    }
  }

  /** The foreach over one poll's connections: remove every pending port the
      poll reports, and nothing else. */
  method RemoveReported(table: PortTable, listening: seq<int>)
    modifies table
    ensures table.entries == old(table.entries) - Elements(listening)
  {
    ghost var before := table.entries;
    var i := 0;
    while i < |listening|
      invariant 0 <= i <= |listening|
      invariant table.entries == before - Elements(listening[..i])
    {
      var port := listening[i];
      if port in table.entries {
        table.entries := table.entries - {port};
      }
      assert Elements(listening[..i + 1]) == Elements(listening[..i]) + {port} by {
        assert listening[..i + 1] == listening[..i] + [port];
      }
      i := i + 1;
    }
    assert listening[..|listening|] == listening;
  }

  /** WaitOnPorts(dictionary): poll until the dictionary is empty. `bound` is a
      proof-only horizon by which every pending port has been reported; it
      stands for the eventual start-up of every project. The result is the
      number of polls made: the first count whose reports cover every port
      that was pending. */
  method WaitOnPorts(table: PortTable, poll: nat -> seq<int>, ghost bound: nat) returns (polls: nat)
    requires table.entries.Keys <= ReportedBy(poll, bound)
    modifies table
    ensures table.entries == map[]
    ensures polls <= bound
    ensures old(table.entries).Keys <= ReportedBy(poll, polls)
    ensures forall n :: 0 <= n < polls ==> !(old(table.entries).Keys <= ReportedBy(poll, n))
    ensures |old(table.entries)| == 0 ==> polls == 0
  {
    ghost var pending := table.entries;
    polls := 0;
    while |table.entries| > 0
      invariant polls <= bound
      invariant table.entries == pending - ReportedBy(poll, polls)
      invariant forall n :: 0 <= n < polls ==> !(pending.Keys <= ReportedBy(poll, n))
      decreases bound - polls
    {
      PollNeeded(pending, poll, polls, bound, table.entries);
      ghost var before := table.entries;
      var listening := poll(polls);
      RemoveReported(table, listening);
      RemoveStep(pending, poll, polls, before, table.entries);
      NotCoveredYet(pending, poll, polls);
      polls := polls + 1;
    }
    PendingCovered(pending, ReportedBy(poll, polls));
    EmptyRemainder(pending, ReportedBy(poll, polls), table.entries);
  }

  /** While some port is still pending, the reports so far do not cover the
      pending ports, so the horizon has not been reached. */
  lemma PollNeeded(pending: map<int, Project>, poll: nat -> seq<int>, polls: nat, bound: nat, rest: map<int, Project>)
    requires pending.Keys <= ReportedBy(poll, bound) && polls <= bound
    requires rest == pending - ReportedBy(poll, polls) && |rest| > 0
    ensures polls < bound && !(pending.Keys <= ReportedBy(poll, polls))
  {
    assert rest != map[];
    NotCovered(pending, ReportedBy(poll, polls), rest);
  }

  /** No poll before polls + 1 covers the pending ports once poll `polls` does not. */
  lemma NotCoveredYet(pending: map<int, Project>, poll: nat -> seq<int>, polls: nat)
    requires forall n :: 0 <= n < polls ==> !(pending.Keys <= ReportedBy(poll, n))
    requires !(pending.Keys <= ReportedBy(poll, polls))
    ensures forall n :: 0 <= n < polls + 1 ==> !(pending.Keys <= ReportedBy(poll, n))
  {
  }

  /** Removing what poll n reports from what polls 0 .. n-1 left pending
      leaves what polls 0 .. n leave pending. */
  lemma RemoveStep(pending: map<int, Project>, poll: nat -> seq<int>, n: nat,
                   before: map<int, Project>, after: map<int, Project>)
    requires before == pending - ReportedBy(poll, n)
    requires after == before - Elements(poll(n))
    ensures after == pending - ReportedBy(poll, n + 1)
  {
    assert ReportedBy(poll, n + 1) == ReportedBy(poll, n) + Elements(poll(n));
  }

  lemma PendingCovered(pending: map<int, Project>, reported: set<int>)
    requires pending.Keys <= reported
    ensures pending - reported == map[]
  {
  }

  lemma NotCovered(pending: map<int, Project>, reported: set<int>, rest: map<int, Project>)
    requires rest == pending - reported && rest != map[]
    ensures !(pending.Keys <= reported)
  {
    if pending.Keys <= reported {
      PendingCovered(pending, reported);
    }
  }

  lemma EmptyRemainder(pending: map<int, Project>, reported: set<int>, rest: map<int, Project>)
    requires rest == pending - reported && |rest| == 0
    ensures pending.Keys <= reported
  {
    assert rest == map[];
    forall k | k in pending
      ensures k in reported
    {
      assert k !in rest;
    }
  }

  /** With one port first reported on poll k (counting from 1), the reports
      cover it exactly from the k-th poll on. */
  lemma {:induction false} FirstReportedOn(poll: nat -> seq<int>, port: int, k: nat, n: nat)
    requires k >= 1 && port in poll(k - 1)
    requires forall j: nat :: j < k - 1 ==> port !in poll(j)
    ensures port in ReportedBy(poll, n) <==> n >= k
  {
    if n > 0 {
      FirstReportedOn(poll, port, k, n - 1);
    }
  }

  /** The barrier's unit test: one pending port first reported on poll k
      makes WaitOnPorts poll exactly k times. */
  method WaitOnOnePort(port: int, project: Project, poll: nat -> seq<int>, k: nat) returns (polls: nat)
    requires k >= 1 && port in poll(k - 1)
    requires forall j: nat :: j < k - 1 ==> port !in poll(j)
    ensures polls == k
  {
    var table := new PortTable(map[port := project]);
    FirstReportedOn(poll, port, k, k);
    polls := WaitOnPorts(table, poll, k);
    FirstReportedOn(poll, port, k, polls);
    assert port in map[port := project].Keys;
    assert map[port := project].Keys <= ReportedBy(poll, k);
  }

  /** Two projects in the list carry the same port. */
  predicate HasDuplicatePort(projects: seq<Project>) {
    exists i, j :: 0 <= i < j < |projects| && projects[i].port.Some? && projects[i].port == projects[j].port
  }

  /** Some project in the list carries the port. */
  predicate HasPort(projects: seq<Project>, port: int) {
    exists i :: 0 <= i < |projects| && projects[i].port == Some(port)
  }

  /** projects.Where(p => p.Port.HasValue).ToDictionary(p => p.Port.Value):
      keyed by port, holding only projects with a port; a repeated port makes
      ToDictionary throw ArgumentException. */
  function PortsByProject(projects: seq<Project>): (r: Result<map<int, Project>>)
    ensures r.Err? <==> HasDuplicatePort(projects)
    ensures r.Err? ==> r.error == ArgumentException
    ensures r.Ok? ==> forall port :: port in r.value <==> HasPort(projects, port)
    ensures r.Ok? ==> forall port :: port in r.value ==> r.value[port].port == Some(port) && r.value[port] in projects
  {
    if |projects| == 0 then Ok(map[])
    else
      var rest := PortsByProject(projects[1..]);
      HasPortCons(projects);
      DuplicateCons(projects);
      if rest.Err? then rest
      else if projects[0].port.None? then Ok(rest.value)
      else if projects[0].port.value in rest.value then Err(ArgumentException)
      else Ok(rest.value[projects[0].port.value := projects[0]])
  }

  lemma HasPortCons(projects: seq<Project>)
    requires |projects| > 0
    ensures forall port :: HasPort(projects, port) <==> projects[0].port == Some(port) || HasPort(projects[1..], port)
  {
    forall port | HasPort(projects, port)
      ensures projects[0].port == Some(port) || HasPort(projects[1..], port)
    {
      var i :| 0 <= i < |projects| && projects[i].port == Some(port);
      if i > 0 {
        assert projects[1..][i - 1] == projects[i];
      }
    }
    forall port | HasPort(projects[1..], port)
      ensures HasPort(projects, port)
    {
      var i :| 0 <= i < |projects[1..]| && projects[1..][i].port == Some(port);
      assert projects[i + 1] == projects[1..][i];
    }
  }

  lemma DuplicateCons(projects: seq<Project>)
    requires |projects| > 0
    ensures HasDuplicatePort(projects)
            <==> HasDuplicatePort(projects[1..]) || (projects[0].port.Some? && HasPort(projects[1..], projects[0].port.value))
  {
    if HasDuplicatePort(projects) {
      DuplicateSplits(projects);
    }
    if HasDuplicatePort(projects[1..]) {
      DuplicateInTail(projects);
    }
    if projects[0].port.Some? && HasPort(projects[1..], projects[0].port.value) {
      DuplicateOfHead(projects);
    }
  }

  /** A repeated port is repeated in the tail or is the head's port. */
  lemma DuplicateSplits(projects: seq<Project>)
    requires |projects| > 0 && HasDuplicatePort(projects)
    ensures HasDuplicatePort(projects[1..]) || (projects[0].port.Some? && HasPort(projects[1..], projects[0].port.value))
  {
    var tail := projects[1..];
    var i, j :| 0 <= i < j < |projects| && projects[i].port.Some? && projects[i].port == projects[j].port;
    assert tail[j - 1] == projects[j];
    if i > 0 {
      assert tail[i - 1] == projects[i];
      assert HasDuplicatePort(tail);
    } else {
      assert HasPort(tail, projects[0].port.value);
    }
  }

  lemma DuplicateInTail(projects: seq<Project>)
    requires |projects| > 0 && HasDuplicatePort(projects[1..])
    ensures HasDuplicatePort(projects)
  {
    var tail := projects[1..];
    var i, j :| 0 <= i < j < |tail| && tail[i].port.Some? && tail[i].port == tail[j].port;
    assert projects[i + 1] == tail[i] && projects[j + 1] == tail[j];
  }

  lemma DuplicateOfHead(projects: seq<Project>)
    requires |projects| > 0 && projects[0].port.Some? && HasPort(projects[1..], projects[0].port.value)
    ensures HasDuplicatePort(projects)
  {
    var tail := projects[1..];
    var j :| 0 <= j < |tail| && tail[j].port == projects[0].port;
    assert projects[j + 1] == tail[j];
  }

  /** Every port a project in the list carries is among the reported ones. */
  ghost predicate AllReported(projects: seq<Project>, reported: set<int>) {
    forall port :: HasPort(projects, port) ==> port in reported
  }

  /** WaitOnPorts(list): wait on the projects that have a port, keyed by it.
      The result is the number of polls, the first count whose reports cover
      every such port, or ArgumentException (before any poll) when two
      projects share a port. */
  method WaitOnProjects(projects: seq<Project>, poll: nat -> seq<int>, ghost bound: nat) returns (r: Result<nat>)
    requires !HasDuplicatePort(projects) ==> AllReported(projects, ReportedBy(poll, bound))
    ensures r.Err? <==> HasDuplicatePort(projects)
    ensures r.Err? ==> r.error == ArgumentException
    ensures r.Ok? ==> r.value <= bound && AllReported(projects, ReportedBy(poll, r.value))
    ensures r.Ok? ==> forall n :: 0 <= n < r.value ==> !AllReported(projects, ReportedBy(poll, n))
  {
    var byPort := PortsByProject(projects);
    if byPort.Err? {
      return Err(byPort.error);
    }
    var table := new PortTable(byPort.value);
    KeysCovered(projects, byPort.value, ReportedBy(poll, bound));
    var polls := WaitOnPorts(table, poll, bound);
    r := Ok(polls);
    KeysReported(projects, byPort.value, ReportedBy(poll, polls));
    forall n | 0 <= n < polls
      ensures !AllReported(projects, ReportedBy(poll, n))
    {
      if AllReported(projects, ReportedBy(poll, n)) {
        KeysCovered(projects, byPort.value, ReportedBy(poll, n));
      }
    }
  }

  lemma KeysCovered(projects: seq<Project>, byPort: map<int, Project>, reported: set<int>)
    requires forall port :: port in byPort <==> HasPort(projects, port)
    requires AllReported(projects, reported)
    ensures byPort.Keys <= reported
  {
    forall port | port in byPort.Keys
      ensures port in reported
    {
      assert HasPort(projects, port);
    }
  }

  lemma KeysReported(projects: seq<Project>, byPort: map<int, Project>, reported: set<int>)
    requires forall port :: port in byPort <==> HasPort(projects, port)
    requires byPort.Keys <= reported
    ensures AllReported(projects, reported)
  {
    forall port | HasPort(projects, port)
      ensures port in reported
    {
      assert port in byPort.Keys;
    }
  }
}
