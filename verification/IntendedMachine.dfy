// The scheduler as it is evidently meant to be: backend/src/machine.rs with three
// repairs.  A waiter whose condition fails is resolved as a failure instead of
// being passed to `completed`; a waiter that failed before its turn in a blocked
// list is skipped; and a process refused by `enqueue` is recorded as failed.
// `Scheduler.Machine` is the code as written.

module IntendedScheduler {
  import opened Protocol
  import opened Scheduling
  import opened Enqueueing
  import opened ScheduleLemmas
  import opened Cascade

  class IntendedMachine<Cmd, State> {
    var finished: map<Pid, ExitStatus>
    var toRun: set<Pid>
    var running: map<Pid, State>
    var checkOnCompleted: map<Pid, seq<(Condition, Pid)>>
    var waitingOn: map<Pid, Waiting<Cmd>>

    ghost var model: Schedule<Cmd, State>

    ghost function View(): Tables<Cmd, State>
      reads this
    {
      Tables(finished, toRun, running, waitingOn, checkOnCompleted)
    }

    ghost predicate Valid()
      reads this
    {
      Mid(View(), model, {})
    }

    constructor ()
      ensures Valid() && model == EmptySchedule()
    {
      finished, toRun, running := map[], {}, map[];
      checkOnCompleted, waitingOn := map[], map[];
      model := EmptySchedule();
    }

    method Enqueue(newPid: Pid, cmd: Cmd, blockFor: map<Pid, Condition>) returns (tasks: seq<Task<Cmd>>)
      requires Valid() && newPid !in model.jobs && blockFor.Keys <= model.jobs.Keys
      modifies this
      ensures Valid()
      ensures Mismatched(old(model).done, blockFor) ==>
                && model == old(model).Add(newPid, Job(cmd, blockFor)).Finish(newPid, Failure)
                && tasks == [ConditionFailed(newPid, cmd)]
      ensures tasks == [ConditionFailed(newPid, cmd)] <==>
                exists d :: d in blockFor && d in old(model).done && blockFor[d].Some?
                  && blockFor[d].value != old(model).done[d]
      ensures !Mismatched(old(model).done, blockFor) ==>
                && model == old(model).Add(newPid, Job(cmd, blockFor))
                && tasks == if |model.Unfinished(newPid)| == 0 then [Task.Start(newPid, cmd)] else []
    {
      hide Mid, Schedule.Unfinished, Mismatched, Pushed;
      MidFinished(View(), model, {});
      MismatchedExactly(model.done, blockFor);
      var verdict := Blocking(blockFor);
      if verdict.None? {
        MidReject(View(), model, newPid, Job(cmd, blockFor));
        finished := finished[newPid := ExitStatus.Failure];
        model := model.Add(newPid, Job(cmd, blockFor)).Finish(newPid, ExitStatus.Failure);
        return [ConditionFailed(newPid, cmd)];
      }
      tasks := Insert(newPid, cmd, blockFor, verdict.value);
    }

    // An accepted process is handed out at once or waits for what is unfinished.
    method Insert(newPid: Pid, cmd: Cmd, ghost blockFor: map<Pid, Condition>, still: map<Pid, Condition>)
      returns (tasks: seq<Task<Cmd>>)
      requires Valid() && newPid !in model.jobs && blockFor.Keys <= model.jobs.Keys && !Mismatched(finished, blockFor)
      requires still == map d | d in blockFor && d !in finished :: blockFor[d]
      modifies this
      ensures Valid() && model == old(model).Add(newPid, Job(cmd, blockFor))
      ensures tasks == if |model.Unfinished(newPid)| == 0 then [Task.Start(newPid, cmd)] else []
    {
      hide Mid, Schedule.Unfinished, Mismatched, Pushed;
      MidFinished(View(), model, {});
      MidAdd(View(), model, newPid, Job(cmd, blockFor));
      AddUnfinished(model, newPid, Job(cmd, blockFor));
      if |still| == 0 {
        toRun := toRun + {newPid};
        tasks := [Task.Start(newPid, cmd)];
      } else {
        checkOnCompleted := Register(checkOnCompleted, newPid, still);
        waitingOn := waitingOn[newPid := Waiting(cmd, still)];
        tasks := [];
      }
      model := model.Add(newPid, Job(cmd, blockFor));
    }

    // The unfinished part of `blockFor`; all of it is known.
    method Blocking(blockFor: map<Pid, Condition>) returns (still: Option<map<Pid, Condition>>)
      requires Valid() && blockFor.Keys <= model.jobs.Keys
      ensures still.None? <==> Mismatched(finished, blockFor)
      ensures still.Some? ==> still.value == map d | d in blockFor && d !in finished :: blockFor[d]
    {
      hide Mid, Mismatched;
      MidKnows(View(), model);
      var verdict := StillBlocking(finished, toRun + running.Keys + waitingOn.Keys, blockFor);
      still := verdict.value;
    }

    method Start(pid: Pid, state: State)
      requires Valid() && pid in toRun
      modifies this
      ensures Valid() && model == old(model).Begin(pid, state)
    {
      hide Mid;
      MidBegin(View(), model, pid, state);
      toRun := toRun - {pid};
      running := running[pid := state];
      model := model.Begin(pid, state);
    }

    /** `pid` finishes, either straight from the run queue or after running.  The
        statuses afterwards are those of the reference pass, whatever the order of
        the blocked lists, and the tasks name exactly what changed, once each. */
    method Completed(pid: Pid, status: ExitStatus) returns (tasks: seq<Task<Cmd>>)
      requires Valid() && (pid in toRun || pid in running)
      modifies this
      ensures Valid()
      ensures model == old(model).(done := Settle(model.order, model.jobs, old(model).done[pid := status]))
      ensures forall w :: w in model.done && w !in old(model).done && w != pid ==>
                model.done[w] == ExitStatus.Failure && w in model.jobs
                && exists d :: d in model.jobs[w].blockFor && d in model.done
                     && model.jobs[w].blockFor[d].Some? && model.jobs[w].blockFor[d].value != model.done[d]
      ensures forall w, d | w in model.jobs && w !in model.done && d in model.jobs[w].blockFor && d in model.done ::
                model.jobs[w].blockFor[d].None? || model.jobs[w].blockFor[d].value == model.done[d]
      ensures Reports(model.jobs, old(toRun) - {pid}, old(finished)[pid := status], toRun, finished, tasks)
    {
      hide Mid, Settle, Reports, Cleared, Doomed, Continues, Edges, Entries;
      MidReady(View(), model, pid);
      MidFinish(View(), model, {}, pid, status);
      assert waitingOn - {pid} == waitingOn;
      assert {} + Edges(pid, ListOf(checkOnCompleted, pid)) == Edges(pid, ListOf(checkOnCompleted, pid));
      MidFinished(View(), model, {});
      toRun := toRun - {pid};
      running := running - {pid};
      finished := finished[pid := status];
      model := model.Finish(pid, status);
      ghost var before := model;
      tasks := ResolveTasks(pid, status, {});
      MidSettles(View(), model, before);
      ContinuesFacts(before, model);
      SettledExactly(View(), model, before);
    }

    /** Tells everyone in the blocked list of `pid`, and of everyone who fails in
        turn.  `pending` is the news still under way in the calls further out. */
    method ResolveTasks(pid: Pid, status: ExitStatus, ghost pending: set<Edge>) returns (tasks: seq<Task<Cmd>>)
      requires Mid(View(), model, pending + Edges(pid, ListOf(checkOnCompleted, pid)))
      requires pid in model.done && model.done[pid] == status
      requires Entries(ListOf(checkOnCompleted, pid), model.jobs, pid)
      requires forall e :: e in pending ==> e.0 != pid
      modifies this
      ensures Mid(View(), model, pending)
      ensures Continues(old(model), model)
      ensures Reports(model.jobs, old(toRun), old(finished), toRun, finished, tasks)
      ensures waitingOn.Keys <= old(waitingOn.Keys)
      decreases waitingOn.Keys, 2
    {
      hide Mid, Reports, Continues, Edges;
      tasks := [];
      var blocked := if pid in checkOnCompleted then checkOnCompleted[pid] else [];
      MidForget(View(), model, pending + Edges(pid, blocked), pid);
      MidFinished(View(), model, pending + Edges(pid, blocked));
      ReportsNothing(model.jobs, toRun, finished);
      ContinuesRefl(model);
      assert blocked[0..] == blocked;
      checkOnCompleted := checkOnCompleted - {pid};
      for k := 0 to |blocked|
        invariant Mid(View(), model, pending + Edges(pid, blocked[k..]))
        invariant Continues(old(model), model)
        invariant Reports(model.jobs, old(toRun), old(finished), toRun, finished, tasks)
        invariant waitingOn.Keys <= old(waitingOn.Keys)
      {
        ghost var s, ready, done, rest := model, toRun, finished, pending + Edges(pid, blocked[k + 1..]);
        ContinuesFacts(old(model), s);
        NextEdge(pid, blocked, k);
        assert blocked[k] in blocked;
        assert pending + Edges(pid, blocked[k..]) == rest + {(pid, blocked[k].1)};
        var news := Tell(pid, status, blocked[k].0, blocked[k].1, rest);
        ContinuesTrans(old(model), s, model);
        ContinuesFacts(s, model);
        ReportsTrans(model.jobs, old(toRun), old(finished), ready, done, tasks, toRun, finished, news);
        tasks := tasks + news;
      }
      NoEdges(pid, blocked[|blocked|..]);
      assert pending + {} == pending;
    }

    // The body of the loop above: `waitingPid` is told that `pid` finished.
    method Tell(pid: Pid, status: ExitStatus, cond: Condition, waitingPid: Pid, ghost rest: set<Edge>)
      returns (tasks: seq<Task<Cmd>>)
      requires Mid(View(), model, rest + {(pid, waitingPid)}) && (pid, waitingPid) !in rest
      requires waitingPid in model.jobs && pid in model.jobs[waitingPid].blockFor
      requires cond == model.jobs[waitingPid].blockFor[pid]
      requires pid in model.done && model.done[pid] == status
      modifies this
      ensures waitingPid in old(waitingOn) && cond.Some? && cond.value != status ==>
                waitingPid in finished && finished[waitingPid] == ExitStatus.Failure
      ensures waitingPid !in old(waitingOn) || cond.None? || cond.value == status ==> finished == old(finished)
      ensures Mid(View(), model, rest)
      ensures Continues(old(model), model)
      ensures Reports(model.jobs, old(toRun), old(finished), toRun, finished, tasks)
      ensures waitingOn.Keys <= old(waitingOn.Keys)
      decreases waitingOn.Keys, 1
    {
      hide Mid, Reports, Continues, Edges, Doomed, Cleared, Entries, ListOf;
      ghost var pending := rest + {(pid, waitingPid)};
      MidFinished(View(), model, pending);
      MidWaiting(View(), model, pending, pid, waitingPid);
      ContinuesRefl(model);
      if waitingPid !in waitingOn {
        // It failed earlier in this cascade.
        MidSkip(View(), model, rest, (pid, waitingPid));
        ReportsNothing(model.jobs, toRun, finished);
        return [];
      }
      if cond.Some? && cond.value != status {
        DoomedBy(model, pid, waitingPid);
        tasks := Fail(pid, waitingPid, rest);
      } else {
        tasks := Drop(pid, waitingPid, rest);
      }
    }

    method Fail(ghost pid: Pid, waitingPid: Pid, ghost rest: set<Edge>) returns (tasks: seq<Task<Cmd>>)
      requires Mid(View(), model, rest + {(pid, waitingPid)})
      requires waitingPid in model.jobs && pid in model.jobs[waitingPid].blockFor && waitingPid in waitingOn
      requires Doomed(model.jobs, model.done, waitingPid)
      modifies this
      ensures waitingPid in finished && finished[waitingPid] == ExitStatus.Failure
      ensures Mid(View(), model, rest)
      ensures Continues(old(model), model)
      ensures Reports(model.jobs, old(toRun), old(finished), toRun, finished, tasks)
      ensures waitingOn.Keys <= old(waitingOn.Keys)
      decreases waitingOn.Keys, 0
    {
      hide Mid, Reports, Continues, Edges, Doomed, Cleared, Entries, ListOf;
      ghost var s, pending := model, rest + {(pid, waitingPid)};
      MidFinished(View(), s, pending);
      MidWaiting(View(), s, pending, pid, waitingPid);
      MidFinish(View(), s, pending, waitingPid, ExitStatus.Failure);
      MidEntries(View(), s, pending, waitingPid);
      ReportsFailure(s.jobs, toRun, finished, waitingPid);
      var waiting := waitingOn[waitingPid];
      waitingOn := waitingOn - {waitingPid};
      finished := finished[waitingPid := ExitStatus.Failure];
      model := model.Finish(waitingPid, ExitStatus.Failure);
      assert old(toRun) - {waitingPid} == toRun && old(running) - {waitingPid} == running;
      ghost var failed := finished;
      var news := ResolveTasks(waitingPid, ExitStatus.Failure, pending);
      ContinuesFailure(s, pid, waitingPid, model);
      ContinuesFacts(s, model);
      ContinuesFacts(s.Finish(waitingPid, ExitStatus.Failure), model);
      MidFinished(View(), model, pending);
      MidSkip(View(), model, rest, (pid, waitingPid));
      tasks := [ConditionFailed(waitingPid, waiting.cmd)] + news;
      ReportsTrans(model.jobs, old(toRun), old(finished), old(toRun), failed,
                   [ConditionFailed(waitingPid, waiting.cmd)], toRun, finished, news);
    }

    method Drop(pid: Pid, waitingPid: Pid, ghost rest: set<Edge>) returns (tasks: seq<Task<Cmd>>)
      requires Mid(View(), model, rest + {(pid, waitingPid)}) && (pid, waitingPid) !in rest
      requires waitingPid in model.jobs && pid in model.jobs[waitingPid].blockFor && waitingPid in waitingOn
      requires pid in model.done && Met(model.jobs[waitingPid].blockFor[pid], model.done[pid])
      modifies this`waitingOn, this`toRun
      ensures Mid(View(), model, rest)
      ensures Reports(model.jobs, old(toRun), finished, toRun, finished, tasks)
      ensures waitingOn.Keys <= old(waitingOn.Keys)
    {
      hide Mid, Reports;
      MidFinished(View(), model, rest + {(pid, waitingPid)});
      MidWaiting(View(), model, rest + {(pid, waitingPid)}, pid, waitingPid);
      MidDrop(View(), model, rest, pid, waitingPid);
      var waiting := waitingOn[waitingPid];
      var conditions := waiting.conditions - {pid};
      if |conditions| == 0 {
        waitingOn := waitingOn - {waitingPid};
        toRun := toRun + {waitingPid};
        MidFinished(View(), model, rest);
        ReportsStart(model.jobs, old(toRun), finished, waitingPid);
        tasks := [Task.Start(waitingPid, waiting.cmd)];
      } else {
        waitingOn := waitingOn[waitingPid := Waiting(waiting.cmd, conditions)];
        ReportsNothing(model.jobs, toRun, finished);
        tasks := [];
      }
    }
  }
}
