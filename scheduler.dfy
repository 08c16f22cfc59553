/**
 * The periodic task scheduler (`SchedulerService`): a table of tasks keyed by
 * id, kept in insertion order, with the operations that add, remove, toggle
 * and re-time tasks, run one now, and one pass of the scheduling loop.
 *
 * A task's function is not modelled: each run is given as its outcome,
 * a result or an error message. Times are seconds as `real`.
 */
module Scheduling {
  import opened Wrappers

  /** `Task`'s default interval: one hour. */
  const DefaultInterval: int := 3600

  /** What awaiting a task function gave: a result, or an exception's message. */
  datatype Outcome = Succeeded(result: string) | Failed(message: string)

  /** The state of one task (its function and arguments are left out). */
  datatype Task = Task(
    taskId: string,
    interval: int,
    nextRun: real,
    description: string,
    isEnabled: bool,
    lastRun: Option<real>,
    lastResult: Option<string>,
    lastError: Option<string>,
    runCount: nat)

  /** `Task(...)` as `add_task` builds it: due at once, never run. */
  function NewTask(id: string, interval: int, description: string, isEnabled: bool, now: real): (t: Task)
    ensures t.taskId == id && t.nextRun == now && t.runCount == 0
    ensures t.lastRun.None? && t.lastResult.None? && t.lastError.None?
  {
    Task(id, interval, now, description, isEnabled, None, None, None, 0)
  }

  /** One run of a task at `now`: a success records result, time and count; a failure only the message. */
  function AfterRun(t: Task, now: real, o: Outcome): (u: Task)
    ensures u.nextRun == t.nextRun && u.interval == t.interval && u.isEnabled == t.isEnabled
    ensures u.taskId == t.taskId
    ensures o.Succeeded? ==> (u.runCount == t.runCount + 1 && u.lastRun == Some(now) && u.lastError.None?
                              && u.lastResult == Some(o.result))
    ensures o.Failed? ==> u == t.(lastError := Some(o.message))
  {
    match o
    case Succeeded(result) => t.(lastResult := Some(result), lastRun := Some(now), runCount := t.runCount + 1, lastError := None)
    case Failed(message) => t.(lastError := Some(message))
  }

  /** What one pass of the loop does to one task at `now`. */
  function Step(t: Task, now: real, o: Outcome): (u: Task)
    ensures u.taskId == t.taskId
    ensures !t.isEnabled || now < t.nextRun ==> u == t
    ensures t.isEnabled && now >= t.nextRun ==> u == AfterRun(t, now, o).(nextRun := now + t.interval as real)
  {
    if !t.isEnabled || now < t.nextRun then t
    else AfterRun(t, now, o).(nextRun := now + t.interval as real)
  }

  /** A due task with a positive interval is no longer due after its step, whatever the outcome; the count never drops. */
  lemma StepReschedules(t: Task, now: real, o: Outcome)
    requires t.isEnabled && now >= t.nextRun && t.interval > 0
    ensures now < Step(t, now, o).nextRun
    ensures Step(t, now, o).runCount == t.runCount + (if o.Succeeded? then 1 else 0)
  {
  }

  /** The table of tasks after one pass. */
  function TickAll(tasks: map<string, Task>, now: real, run: string -> Outcome): (m: map<string, Task>)
    ensures m.Keys == tasks.Keys
  {
    map id | id in tasks :: Step(tasks[id], now, run(id))
  }

  /** What `get_task` returns for a task; a `last_run` of 0 reads as none. */
  datatype TaskInfo = TaskInfo(
    taskId: string, description: string, interval: int, nextRun: real,
    lastRun: Option<real>, runCount: nat, isEnabled: bool)

  function InfoOf(t: Task): (i: TaskInfo)
    ensures i.lastRun.Some? <==> t.lastRun.Some? && t.lastRun.value != 0.0
  {
    TaskInfo(t.taskId, t.description, t.interval, t.nextRun,
             if t.lastRun.Some? && t.lastRun.value != 0.0 then t.lastRun else None,
             t.runCount, t.isEnabled)
  }

  /** One entry per id of the table, in order, lists exactly the table's ids. */
  lemma InfosCoverTable(order: seq<string>, tasks: map<string, Task>, r: seq<TaskInfo>)
    requires forall i :: 0 <= i < |order| ==> order[i] in tasks
    requires forall id :: id in tasks ==> id in order && tasks[id].taskId == id
    requires |r| == |order| && forall i :: 0 <= i < |r| ==> r[i] == InfoOf(tasks[order[i]])
    ensures forall id :: id in tasks <==> exists i :: 0 <= i < |r| && r[i].taskId == id
  {
    forall id | id in tasks ensures exists i :: 0 <= i < |r| && r[i].taskId == id {
      var i :| 0 <= i < |order| && order[i] == id;
      assert r[i].taskId == id;
    }
  }

  predicate Distinct(s: seq<string>) {
    forall i, j :: 0 <= i < j < |s| ==> s[i] != s[j]
  }

  /** `s` without `x`, in order. */
  function Without(s: seq<string>, x: string): (r: seq<string>)
    ensures forall y :: y in r <==> y in s && y != x
    ensures |r| <= |s|
  {
    if s == [] then []
    else
      var rest := Without(s[1..], x);
      assert forall y :: y in s <==> y == s[0] || y in s[1..];
      if s[0] == x then rest else [s[0]] + rest
  }

  /** Dropping an id from a list without duplicates leaves none. */
  lemma {:induction false} WithoutKeepsDistinct(s: seq<string>, x: string)
    requires Distinct(s)
    ensures Distinct(Without(s, x))
  {
    if s != [] {
      assert Distinct(s[1..]) by {
        forall i, j | 0 <= i < j < |s[1..]| ensures s[1..][i] != s[1..][j] {
          assert s[1..][i] == s[i + 1] && s[1..][j] == s[j + 1];
        }
      }
      WithoutKeepsDistinct(s[1..], x);
      var rest := Without(s[1..], x);
      if s[0] != x {
        assert s[0] !in s[1..];
        var r := [s[0]] + rest;
        forall i, j | 0 <= i < j < |r| ensures r[i] != r[j] {
          if i == 0 {
            assert r[j] in rest;
          } else {
            assert r[i] == rest[i - 1] && r[j] == rest[j - 1];
          }
        }
      }
    }
  }

  class SchedulerService {
    var tasks: map<string, Task>
    /** The table's keys in insertion order. */
    var order: seq<string>
    var running: bool

    /** `order` lists every key once, and each task is stored under its own id. */
    predicate Valid()
      reads this
    {
      && Distinct(order)
      && (forall i :: 0 <= i < |order| ==> order[i] in tasks)
      && (forall id :: id in tasks ==> id in order && tasks[id].taskId == id)
    }

    /** The state `__new__` gives the first instance. */
    constructor()
      ensures tasks == map[] && order == [] && !running
      ensures Valid()
    {
      tasks := map[];
      order := [];
      running := false;
    }

    /** `add_task`: store a new task under the given id (a fresh one when none or empty), replacing any task there. */
    method AddTask(taskId: Option<string>, freshId: string, interval: int, description: string, isEnabled: bool,
                   now: real) returns (id: string)
      requires Valid()
      modifies this
      ensures id == (if taskId.Some? && taskId.value != "" then taskId.value else freshId)
      ensures tasks == old(tasks)[id := NewTask(id, interval, description, isEnabled, now)]
      ensures order == (if id in old(tasks) then old(order) else old(order) + [id])
      ensures running == old(running)
      ensures Valid()
    {
      id := if taskId.Some? && taskId.value != "" then taskId.value else freshId;
      var task := NewTask(id, interval, description, isEnabled, now);
      if id !in tasks {
        order := order + [id];
      }
      tasks := tasks[id := task];
    }

    /** `remove_task`: true iff the id was present; the other tasks stay as they were. */
    method RemoveTask(id: string) returns (removed: bool)
      requires Valid()
      modifies this
      ensures removed <==> id in old(tasks)
      ensures tasks == old(tasks) - {id}
      ensures order == Without(old(order), id)
      ensures running == old(running)
      ensures Valid()
    {
      if id in tasks {
        var before := order;
        tasks := tasks - {id};
        WithoutKeepsDistinct(order, id);
        order := Without(order, id);
        forall i | 0 <= i < |order| ensures order[i] in tasks {
          assert order[i] in before;
        }
        return true;
      }
      assert id !in order;
      WithoutAbsent(order, id);
      return false;
    }

    /** `get_task`: `None` iff the id is absent. */
    function GetTask(id: string): (r: Option<TaskInfo>)
      reads this
      ensures r.None? <==> id !in tasks
      ensures r.Some? ==> r.value == InfoOf(tasks[id])
    {
      if id in tasks then Some(InfoOf(tasks[id])) else None
    }

    /** `get_all_tasks`: one entry per task, in table order. */
    function GetAllTasks(): (r: seq<TaskInfo>)
      requires Valid()
      reads this
      ensures |r| == |order| == |tasks|
      ensures forall i :: 0 <= i < |r| ==> r[i] == InfoOf(tasks[order[i]])
      ensures forall id :: id in tasks <==> exists i :: 0 <= i < |r| && r[i].taskId == id
    {
      DistinctKeysCount(order, tasks);
      var o, t := order, tasks;
      var r := seq(|o|, i requires 0 <= i < |o| && o[i] in t => InfoOf(t[o[i]]));
      InfosCoverTable(o, t, r);
      r
    }

    /** `enable_task`: true iff the id is present; only that task's flag changes. */
    method EnableTask(id: string) returns (found: bool)
      requires Valid()
      modifies this
      ensures found <==> id in old(tasks)
      ensures found ==> tasks == old(tasks)[id := old(tasks)[id].(isEnabled := true)]
      ensures !found ==> tasks == old(tasks)
      ensures order == old(order) && running == old(running)
      ensures Valid()
    {
      if id in tasks {
        tasks := tasks[id := tasks[id].(isEnabled := true)];
        return true;
      }
      return false;
    }

    /** `disable_task`: true iff the id is present; only that task's flag changes. */
    method DisableTask(id: string) returns (found: bool)
      requires Valid()
      modifies this
      ensures found <==> id in old(tasks)
      ensures found ==> tasks == old(tasks)[id := old(tasks)[id].(isEnabled := false)]
      ensures !found ==> tasks == old(tasks)
      ensures order == old(order) && running == old(running)
      ensures Valid()
    {
      if id in tasks {
        tasks := tasks[id := tasks[id].(isEnabled := false)];
        return true;
      }
      return false;
    }

    /** `update_task_interval`: true iff the id is present; only that task's interval changes. */
    method UpdateTaskInterval(id: string, interval: int) returns (found: bool)
      requires Valid()
      modifies this
      ensures found <==> id in old(tasks)
      ensures found ==> tasks == old(tasks)[id := old(tasks)[id].(interval := interval)]
      ensures !found ==> tasks == old(tasks)
      ensures order == old(order) && running == old(running)
      ensures Valid()
    {
      if id in tasks {
        tasks := tasks[id := tasks[id].(interval := interval)];
        return true;
      }
      return false;
    }

    /** `run_task_now`: false for an unknown id; otherwise the run is recorded and its success returned; `next_run` stays. */
    method RunTaskNow(id: string, outcome: Outcome, now: real) returns (ok: bool)
      requires Valid()
      modifies this
      ensures ok <==> id in old(tasks) && outcome.Succeeded?
      ensures id in old(tasks) ==> tasks == old(tasks)[id := AfterRun(old(tasks)[id], now, outcome)]
      ensures id !in old(tasks) ==> tasks == old(tasks)
      ensures order == old(order) && running == old(running)
      ensures Valid()
    {
      if id !in tasks {
        return false;
      }
      tasks := tasks[id := AfterRun(tasks[id], now, outcome)];
      return outcome.Succeeded?;
    }

    /** One pass of `_run_scheduler`'s loop at `now`: each task in table order takes its step. */
    method Tick(now: real, run: string -> Outcome)
      requires Valid()
      modifies this
      ensures tasks == TickAll(old(tasks), now, run)
      ensures order == old(order) && running == old(running)
      ensures Valid()
    {
      var table := tasks;
      for k := 0 to |order|
        invariant table.Keys == tasks.Keys
        invariant forall i :: 0 <= i < k ==> table[order[i]] == Step(tasks[order[i]], now, run(order[i]))
        invariant forall i :: k <= i < |order| ==> table[order[i]] == tasks[order[i]]
      {
        var id := order[k];
        var task := table[id];
        if !task.isEnabled {
          continue;
        }
        if now >= task.nextRun {
          // both outcomes reschedule; only a success counts as a run
          task := AfterRun(task, now, run(id)).(nextRun := now + task.interval as real);
          table := table[id := task];
        }
      }
      forall id | id in tasks ensures table[id] == TickAll(tasks, now, run)[id] {
        var i :| 0 <= i < |order| && order[i] == id;
      }
      tasks := table;
    }

    /** `start`: begin the loop unless it is running (the flag is set as the loop begins). */
    method Start()
      modifies this
      ensures running
      ensures tasks == old(tasks) && order == old(order)
    {
      if !running {
        running := true;
      }
    }

    /** `stop`: clear the flag, so the loop ends. */
    method Stop()
      modifies this
      ensures !running
      ensures tasks == old(tasks) && order == old(order)
    {
      if running {
        running := false;
      }
    }

    function IsRunning(): (r: bool)
      reads this
      ensures r == running
    {
      running
    }
  }

  lemma WithoutAbsent(s: seq<string>, x: string)
    requires x !in s
    ensures Without(s, x) == s
  {
    if s != [] {
      WithoutAbsent(s[1..], x);
    }
  }

  /** A duplicate-free list of exactly the keys has one entry per key. */
  lemma DistinctKeysCount(order: seq<string>, tasks: map<string, Task>)
    requires Distinct(order)
    requires forall i :: 0 <= i < |order| ==> order[i] in tasks
    requires forall id :: id in tasks ==> id in order
    ensures |order| == |tasks|
  {
    var keys := set i | 0 <= i < |order| :: order[i];
    assert keys == tasks.Keys;
    DistinctSetSize(order);
  }

  lemma {:induction false} DistinctSetSize(s: seq<string>)
    requires Distinct(s)
    ensures |set i | 0 <= i < |s| :: s[i]| == |s|
  {
    if s != [] {
      var rest := s[..|s| - 1];
      DistinctSetSize(rest);
      var all := set i | 0 <= i < |s| :: s[i];
      var front := set i | 0 <= i < |rest| :: rest[i];
      assert all == front + {s[|s| - 1]};
      assert s[|s| - 1] !in front;
    }
  }

  /** Every `SchedulerService()` call yields the one instance. */
  class SchedulerRegistry {
    var instance: Option<SchedulerService>

    constructor()
      ensures instance.None?
    {
      instance := None;
    }

    /** `__new__`: create the instance on first use, return it ever after. */
    method Get() returns (s: SchedulerService)
      modifies this
      ensures old(instance).Some? ==> s == old(instance).value && instance == old(instance)
      ensures old(instance).None? ==> fresh(s) && instance == Some(s) && s.tasks == map[] && !s.running && s.Valid()
    {
      if instance.None? {
        var created := new SchedulerService();
        instance := Some(created);
      }
      s := instance.value;
    }
  }
}
