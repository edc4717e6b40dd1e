// The incremental scheduler (backend/src/machine.rs), as it is written.  Every
// assert that can fail is a `Panicked` outcome; every expect that cannot is an
// `assert`.  `model` is the naive schedule the object is proved to represent.

module Scheduler {
  import opened Protocol
  import opened Scheduling
  import opened Enqueueing
  import opened ScheduleLemmas

  class Machine<Cmd, State> {
    var finished: map<Pid, ExitStatus>
    var toRun: set<Pid>
    var running: map<Pid, State>
    var checkOnCompleted: map<Pid, seq<(Condition, Pid)>>
    var waitingOn: map<Pid, Waiting<Cmd>>

    ghost var model: Schedule<Cmd, State>

    ghost function View(): Tables<Cmd, State>
      reads this
    {
      Tables(finished, toRun, running, waitingOn, checkOnCompleted)
    }

    ghost predicate Valid()
      reads this
    {
      Represents(View(), model)
    }

    constructor ()
      ensures Valid() && model == EmptySchedule()
    {
      finished, toRun, running := map[], {}, map[];
      checkOnCompleted, waitingOn := map[], map[];
      model := EmptySchedule();
    }

    predicate Knows(p: Pid)
      reads this
    {
      p in finished || p in toRun || p in running || p in waitingOn
    }

    /** Adds a process.  `blockFor` is visited in an arbitrary order, yet when all
        of it is known the result does not depend on that order. */
    method Enqueue(newPid: Pid, cmd: Cmd, blockFor: map<Pid, Condition>) returns (out: Outcome<seq<Task<Cmd>>>)
      requires Valid()
      modifies this
      ensures newPid in old(model).jobs ==> out.Panicked?
      ensures out.Panicked? ==> newPid in old(model).jobs || !(blockFor.Keys <= old(model).jobs.Keys)
      ensures newPid !in old(model).jobs && !(blockFor.Keys <= old(model).jobs.Keys)
              ==> out.Panicked? || Mismatched(old(model).done, blockFor)
      ensures out.Returned? ==> Valid()
      ensures out.Returned? && Mismatched(old(model).done, blockFor)
              ==> out.value == [ConditionFailed(newPid, cmd)] && model == old(model)
      ensures out.Returned? ==>
                (out.value == [ConditionFailed(newPid, cmd)] <==>
                 exists d :: d in blockFor && d in old(model).done && blockFor[d].Some?
                   && blockFor[d].value != old(model).done[d])
      ensures out.Returned? && !Mismatched(old(model).done, blockFor)
              ==> (&& model == old(model).Add(newPid, Job(cmd, blockFor))
                   && out.value == if model.Blocked(newPid) then [] else [Task.Start(newPid, cmd)])
    {
      KnowsIffJob();
      MismatchedExactly(model.done, blockFor);
      if Knows(newPid) {
        return Panicked;
      }
      var verdict := StillBlocking(finished, toRun + running.Keys + waitingOn.Keys, blockFor);
      if verdict.Panicked? {
        return Panicked;
      }
      if verdict.value.None? {
        return Returned([ConditionFailed(newPid, cmd)]);
      }
      out := Insert(newPid, cmd, blockFor, verdict.value.value);
    }

    // The end of `Enqueue`, once no dependency is known to mismatch.
    method Insert(newPid: Pid, cmd: Cmd, ghost blockFor: map<Pid, Condition>, still: map<Pid, Condition>)
      returns (out: Outcome<seq<Task<Cmd>>>)
      requires Valid() && newPid !in model.jobs && blockFor.Keys <= model.jobs.Keys
      requires !Mismatched(model.done, blockFor)
      requires still == model.Add(newPid, Job(cmd, blockFor)).Unfinished(newPid)
      modifies this
      ensures Valid() && model == old(model).Add(newPid, Job(cmd, blockFor))
      ensures out == Returned(if model.Blocked(newPid) then [] else [Task.Start(newPid, cmd)])
    {
      hide Represents, Mismatched, Schedule.Unfinished, Schedule.Blocked, Pushed;
      AddRepresents(View(), model, newPid, Job(cmd, blockFor));
      if |still| == 0 {
        toRun := toRun + {newPid};
        out := Returned([Task.Start(newPid, cmd)]);
      } else {
        checkOnCompleted := Register(checkOnCompleted, newPid, still);
        waitingOn := waitingOn[newPid := Waiting(cmd, still)];
        out := Returned([]);
      }
      model := model.Add(newPid, Job(cmd, blockFor));
    }

    method Start(pid: Pid, state: State) returns (out: Outcome<()>)
      requires Valid()
      modifies this
      ensures out.Panicked? <==> pid !in old(model).Runnable()
      ensures out.Returned? ==> Valid() && model == old(model).Begin(pid, state)
    {
      if pid !in toRun {
        return Panicked;
      }
      toRun := toRun - {pid};
      running := running[pid := state];
      BeginRepresents(old(View()), model, pid, state);
      model := model.Begin(pid, state);
      out := Returned(());
    }

    method StartCompleted(pid: Pid, status: ExitStatus) returns (out: Outcome<seq<Task<Cmd>>>)
      requires Valid()
      modifies this
      ensures out.Panicked? <==> pid !in old(model).Runnable() || old(model).Contradicts(pid, status)
      ensures out.Returned? ==> Valid() && model == old(model).Finish(pid, status)
      ensures out.Returned? ==> out.value == old(model).Released(pid)
    {
      if pid !in toRun {
        return Panicked;
      }
      MidwayStart(View(), model, pid, status);
      assert running - {pid} == running;
      toRun := toRun - {pid};
      finished := finished[pid := status];
      out := ResolveTasks(pid, status);
    }

    // The assert on `running` comes first, so a pid that is not running panics
    // whatever state the tables are in.
    method Completed(pid: Pid, status: ExitStatus) returns (out: Outcome<seq<Task<Cmd>>>)
      requires pid in running ==> Valid()
      modifies this
      ensures pid !in old(running) ==> out.Panicked?
      ensures pid in old(running) ==> (out.Panicked? <==> old(model).Contradicts(pid, status))
      ensures out.Returned? ==> Valid() && model == old(model).Finish(pid, status)
      ensures out.Returned? ==> out.value == old(model).Released(pid)
      decreases waitingOn.Keys, 2
    {
      if pid !in running {
        return Panicked;
      }
      MidwayStart(View(), model, pid, status);
      assert toRun - {pid} == toRun;
      running := running - {pid};
      finished := finished[pid := status];
      out := ResolveTasks(pid, status);
    }

    /** Tells the processes blocked on `pid` that it finished.  A waiter whose
        condition fails is passed to `Completed`, which panics because the
        waiter was never running. */
    method ResolveTasks(pid: Pid, status: ExitStatus) returns (out: Outcome<seq<Task<Cmd>>>)
      requires model.WellFormed() && pid in model.jobs && pid !in model.done && !model.Blocked(pid)
      requires Midway(View().(checkOnCompleted := checkOnCompleted - {pid}), model, pid, status, {})
      requires Dependents(model.order, model.jobs, pid)
            == if pid in checkOnCompleted then checkOnCompleted[pid] else []
      modifies this
      ensures out.Panicked? <==> old(model).Contradicts(pid, status)
      ensures out.Panicked? <==>
                exists w :: w in old(model).jobs && pid in old(model).jobs[w].blockFor
                  && old(model).jobs[w].blockFor[pid].Some? && old(model).jobs[w].blockFor[pid].value != status
      ensures out.Returned? ==> Valid() && model == old(model).Finish(pid, status)
      ensures out.Returned? ==> out.value == old(model).Released(pid)
      decreases waitingOn.Keys, 1
    {
      hide Represents, Midway, Dependents, OncePerWaiter, Waiters;
      hide Schedule.WellFormed, Schedule.Unfinished, Schedule.Blocked, Schedule.Contradicts;
      hide Schedule.WaitingTable, Schedule.Running, Schedule.Starts;
      var tasks := [];
      ghost var s := model;
      ContradictsExactly(s, pid, status);
      ghost var visited: set<Pid> := {};
      var blocked := if pid in checkOnCompleted then checkOnCompleted[pid] else [];
      checkOnCompleted := checkOnCompleted - {pid};
      NoWaiters(s, pid, blocked);
      for k := 0 to |blocked|
        invariant unchanged(this`model)
        invariant waitingOn.Keys <= old(waitingOn.Keys)
        invariant visited == Waiters(blocked[..k])
        invariant Midway(View(), s, pid, status, visited)
        invariant forall e :: e in blocked[..k] ==> Met(e.0, status)
        invariant tasks == s.Starts(blocked[..k], pid)
      {
        var (cond, waitingPid) := blocked[k];
        WaiterFacts(s, pid, blocked, k);
        assert blocked[..k + 1] == blocked[..k] + [blocked[k]];
        if cond.Some? && cond.value != status {
          MetByAll(s, pid, status, blocked);
          MidwayVisit(View(), s, pid, status, visited, waitingPid);
          MidwayRunning(View(), s, pid, status, visited);
          out := Fail(waitingPid);
          return;
        }
        var started := Release(pid, status, cond, waitingPid, s, visited);
        tasks := tasks + started;
        visited := visited + {waitingPid};
      }
      assert blocked[..|blocked|] == blocked;
      MetByAll(s, pid, status, blocked);
      MidwayEnd(View(), s, pid, status);
      model := model.Finish(pid, status);
      out := Returned(tasks);
    }

    // One arm of the loop above: the waiter's condition failed.
    method Fail(waitingPid: Pid) returns (out: Outcome<seq<Task<Cmd>>>)
      requires waitingPid in waitingOn && waitingPid !in running
      modifies this
      ensures out.Panicked?
      decreases waitingOn.Keys, 0
    {
      waitingOn := waitingOn - {waitingPid};
      finished := finished[waitingPid := ExitStatus.Failure];
      out := Completed(waitingPid, ExitStatus.Failure);
    }

    // The other arm of the loop above: the waiter drops its condition on `pid`.
    method Release(pid: Pid, status: ExitStatus, cond: Condition, waitingPid: Pid,
                   ghost s: Schedule<Cmd, State>, ghost visited: set<Pid>)
      returns (tasks: seq<Task<Cmd>>)
      requires waitingPid in s.jobs && waitingPid in s.WaitingTable() && waitingPid !in visited
      requires pid in s.Unfinished(waitingPid) && cond == s.Unfinished(waitingPid)[pid]
      requires Midway(View(), s, pid, status, visited)
      modifies this`waitingOn, this`toRun
      ensures waitingOn.Keys <= old(waitingOn.Keys)
      ensures Midway(View(), s, pid, status, visited + {waitingPid})
      ensures tasks == if s.Unfinished(waitingPid).Keys == {pid}
                       then [Task.Start(waitingPid, s.jobs[waitingPid].cmd)] else []
    {
      hide Midway, Schedule.WaitingTable, Schedule.Unfinished;
      MidwayVisit(View(), s, pid, status, visited, waitingPid);
      assert waitingPid in waitingOn; // expect("must be waiting")
      var waiting := waitingOn[waitingPid];
      waitingOn := waitingOn - {waitingPid};
      assert pid in waiting.conditions; // expect("was waiting")
      assert waiting.conditions[pid] == cond; // assert_eq!(c2, cond)
      var conditions := waiting.conditions - {pid};
      if |conditions| == 0 {
        toRun := toRun + {waitingPid};
        tasks := [Task.Start(waitingPid, waiting.cmd)];
      } else {
        waitingOn := waitingOn[waitingPid := Waiting(waiting.cmd, conditions)];
        assert waitingOn == old(waitingOn)[waitingPid := Waiting(waiting.cmd, conditions)];
        tasks := [];
      }
    }

    lemma KnowsIffJob()
      requires Valid()
      ensures forall p :: Knows(p) <==> p in model.jobs
    {
      assert forall p :: p in model.started && p !in model.done ==> p in running;
    }
  }
}
