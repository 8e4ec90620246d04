/** The locked scheduler itself: fields updated in place, each method proved against `TaskQueue`. */
module TaskScheduler {
  import opened KeyedQueue
  import TQ = TaskQueue

  datatype Poll = Pending | Ready | Panic

  class SchedulerInner {
    var tasks: map<TQ.TaskId, TQ.Task>
    var readyTasks: seq<Entry<TQ.TaskId>>
    var virtualClock: nat
    const virtualCores: nat
    var runningTasks: int
    // What the callers have been given: see `TaskQueue`.
    ghost var guards: multiset<TQ.TaskId>
    ghost var dispatched: seq<Entry<TQ.TaskId>>

    ghost function State(): TQ.State
      reads this
    {
      TQ.State(tasks, readyTasks, virtualClock, virtualCores, runningTasks, guards, dispatched, false)
    }

    constructor (virtualCores: nat)
      ensures State() == TQ.New(virtualCores)
    {
      tasks, readyTasks, virtualClock, runningTasks := map[], [], 0, 0;
      this.virtualCores := virtualCores;
      guards, dispatched := multiset{}, [];
    }

    method Exit(id: TQ.TaskId)
      modifies this
      ensures State() == TQ.Exit(old(State()), id)
    {
      if id !in tasks {
        return;
      }
      var task := tasks[id];
      tasks := tasks - {id};
      if TQ.IsActive(task.state) {
        runningTasks := runningTasks - 1;
        Schedule();
      }
    }

    method PollResume(id: TQ.TaskId) returns (poll: Poll)
      modifies this
      ensures poll == Panic <==> TQ.Poll(old(State()), id).panicked
      ensures poll != Panic ==> State() == TQ.Poll(old(State()), id)
      ensures poll == Ready <==> id in old(tasks) && old(tasks[id].state) == TQ.ToRun
    {
      MaybeResetClock();
      if id !in tasks {
        tasks := tasks[id := TQ.Task(TQ.Idle, virtualClock)];
      }
      var task := tasks[id];
      match task.state
      case Idle =>
        task := TQ.Task(TQ.Ready, TQ.Max(task.vruntime, virtualClock));
        tasks := tasks[id := task];
        readyTasks := Insert(readyTasks, Entry(task.vruntime, id));
        ScheduleKeepsPanicked(State());
        Schedule();
        return Pending;
      case Ready =>
        return Pending;
      case ToRun =>
        tasks := tasks[id := task.(state := TQ.Running)];
        guards := guards + multiset{id};
        return Ready;
      case Running =>
        return Panic;
    }

    /** The end of a run: what it cost is charged and its core is free again. */
    method DropGuard(id: TQ.TaskId, actualCost: nat, weight: nat) returns (ok: bool)
      modifies this
      ensures ok <==> !TQ.DropGuard(old(State()), id, TQ.VRuntime(actualCost, weight)).panicked
      ensures ok ==> State() == TQ.DropGuard(old(State()), id, TQ.VRuntime(actualCost, weight))
    {
      guards := guards - multiset{id};
      var vruntime := TQ.Max(actualCost / TQ.Max(weight, 1), 1);
      assert vruntime == TQ.VRuntime(actualCost, weight);
      ok := Park(id, vruntime);
    }

    method Park(id: TQ.TaskId, vruntime: nat) returns (ok: bool)
      modifies this
      ensures ok <==> !TQ.Park(old(State()), id, vruntime).panicked
      ensures ok ==> State() == TQ.Park(old(State()), id, vruntime)
    {
      if id !in tasks {
        return true;
      }
      var task := tasks[id];
      if task.state != TQ.Running || task.vruntime + TQ.Max(vruntime, 1) > TQ.MAX {
        return false;
      }
      tasks := tasks[id := TQ.Task(TQ.Idle, task.vruntime + TQ.Max(vruntime, 1))];
      runningTasks := runningTasks - 1;
      assert State() == TQ.Parked(old(State()), id, TQ.Max(vruntime, 1));
      ScheduleKeepsPanicked(State());
      Schedule();
      return true;
    }

    method Schedule()
      modifies this
      ensures State() == TQ.Schedule(old(State()))
    {
      while runningTasks < virtualCores
        invariant TQ.Schedule(State()) == TQ.Schedule(old(State()))
        decreases |readyTasks|
      {
        if readyTasks == [] {
          break;
        }
        ghost var before := State();
        var first := readyTasks[0];
        readyTasks := readyTasks[1..];
        if first.value in tasks {
          runningTasks := runningTasks + 1;
          virtualClock := first.key;
          tasks := tasks[first.value := tasks[first.value].(state := TQ.ToRun)];
          dispatched := dispatched + [first];
        }
        assert State() == TQ.Pop(before);
      }
    }

    method MaybeResetClock()
      modifies this
      ensures State() == TQ.MaybeReset(old(State()))
    {
      if virtualClock > TQ.HALF {
        var todo := tasks.Keys;
        while todo != {}
          modifies this`tasks
          invariant todo <= tasks.Keys == old(tasks.Keys)
          invariant forall id :: id in todo ==> tasks[id] == old(tasks)[id]
          invariant forall id :: id in tasks && id !in todo ==>
            tasks[id] == old(tasks)[id].(vruntime := TQ.Rebased(old(tasks)[id].vruntime, virtualClock))
          decreases |todo|
        {
          var id :| id in todo;
          tasks := tasks[id := tasks[id].(vruntime := TQ.Rebased(tasks[id].vruntime, virtualClock))];
          todo := todo - {id};
        }
        assert tasks == TQ.MaybeReset(old(State())).tasks;
        virtualClock := 0;
      }
    }
  }

  lemma {:induction false} ScheduleKeepsPanicked(s: TQ.State)
    ensures TQ.Schedule(s).panicked == s.panicked
    decreases |s.ready|
  {
    if s.running < s.cores && s.ready != [] {
      ScheduleKeepsPanicked(TQ.Pop(s));
    }
  }
}
