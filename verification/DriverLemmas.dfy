// The worklist of the driver and what every step of it keeps.

module DriverLemmas {
  import opened Protocol
  import opened Scheduling
  import opened ScheduleLemmas
  import opened Driver
  import Pipes
  import Runs

  /** `tasks` starts exactly the processes of `ready`, once each, with their own commands. */
  ghost predicate Worklist<Cmd, State>(s: Schedule<Cmd, State>, ready: set<Pid>, tasks: seq<Task<Cmd>>) {
    && Runs.StartedOnce(tasks)
    && (forall t :: t in tasks ==> t.Start? && t.pid in ready && t.pid in s.jobs && t.cmd == s.jobs[t.pid].cmd)
    && (forall p :: p in ready ==> p in s.jobs && Task.Start(p, s.jobs[p].cmd) in tasks)
  }

  /** Processes that have been neither left running nor finished. */
  ghost function Idle<Cmd, State>(s: Schedule<Cmd, State>): set<Pid> {
    set p | p in s.jobs && p !in s.done && p !in s.started
  }

  /** Finishing `p` appends what it releases to the worklist. */
  lemma WorklistFinish<Cmd, State>(s: Schedule<Cmd, State>, p: Pid, status: ExitStatus, rest: seq<Task<Cmd>>)
    requires s.WellFormed() && p in s.jobs && p !in s.done && !s.Blocked(p) && !s.Contradicts(p, status)
    requires Worklist(s, s.Runnable() - {p}, rest)
    ensures Worklist(s.Finish(p, status), s.Finish(p, status).Runnable(), rest + s.Released(p))
  {
    hide Schedule.WellFormed, Dependents, Waiters, Schedule.Runnable, Schedule.Blocked, Schedule.Contradicts;
    var ds := Dependents(s.order, s.jobs, p);
    FinishRunnable(s, p, status);
    ReleasedExact(s, p);
    UnfinishedNotRunnable(s, p);
    WorklistAppend(s, s.Runnable() - {p}, rest, Freed(s, p, Waiters(ds)), s.Released(p));
    assert s.Finish(p, status).jobs == s.jobs;
  }

  lemma UnfinishedNotRunnable<Cmd, State>(s: Schedule<Cmd, State>, p: Pid)
    ensures forall w :: w in s.jobs && s.Unfinished(w).Keys == {p} ==> w !in s.Runnable()
  {
    forall w | w in s.jobs && s.Unfinished(w).Keys == {p} ensures s.Blocked(w) {
      assert p in s.Unfinished(w);
    }
  }

  lemma ReleasedExact<Cmd, State>(s: Schedule<Cmd, State>, p: Pid)
    requires s.WellFormed()
    ensures Worklist(s, Freed(s, p, Waiters(Dependents(s.order, s.jobs, p))), s.Released(p))
  {
    hide Schedule.Lawful, Dependents, Waiters, Schedule.Unfinished, Schedule.Starts, InOrder;
    var ds := Dependents(s.order, s.jobs, p);
    DependentsSound(s.order, s.jobs, p);
    Runs.StartsSound(s, ds, p);
    forall w | w in Freed(s, p, Waiters(ds)) ensures Task.Start(w, s.jobs[w].cmd) in s.Released(p) {
      Runs.StartsComplete(s, ds, p, w);
    }
  }

  lemma WorklistAppend<Cmd, State>(s: Schedule<Cmd, State>, a: set<Pid>, x: seq<Task<Cmd>>, b: set<Pid>,
                                   y: seq<Task<Cmd>>)
    requires Worklist(s, a, x) && Worklist(s, b, y) && a !! b
    ensures Worklist(s, a + b, x + y)
  {
    var all := x + y;
    forall i, j | 0 <= i < j < |all| && all[i].Start? && all[j].Start? ensures all[i].pid != all[j].pid {
      if i < |x| <= j {
        assert all[i] in x && all[j] in y;
      }
    }
  }

  lemma WorklistNext<Cmd, State>(s: Schedule<Cmd, State>, ready: set<Pid>, tasks: seq<Task<Cmd>>)
    requires Worklist(s, ready, tasks) && tasks != []
    ensures tasks[0].Start? && tasks[0].pid in ready
    ensures tasks[0].pid in s.jobs && tasks[0].cmd == s.jobs[tasks[0].pid].cmd
    ensures Worklist(s, ready - {tasks[0].pid}, tasks[1..])
  {
    assert tasks[0] in tasks;
    forall t | t in tasks[1..] ensures t in tasks && t.pid != tasks[0].pid {
      var i :| 0 <= i < |tasks[1..]| && tasks[1..][i] == t;
      assert tasks[i + 1] == t;
      assert t.Start?;
    }
    forall p | p in ready - {tasks[0].pid} ensures Task.Start(p, s.jobs[p].cmd) in tasks[1..] {
      assert tasks == [tasks[0]] + tasks[1..];
    }
  }

  lemma {:induction false} PerformAppend(t: Pipes.Table, a: seq<Pipes.Op>, b: seq<Pipes.Op>)
    ensures PerformOps(t, a + b)
         == match PerformOps(t, a) case Panicked => Panicked case Returned(u) => PerformOps(u, b)
    decreases a
  {
    if a == [] {
      assert a + b == b;
    } else {
      assert (a + b)[1..] == a[1..] + b;
      match Pipes.Perform(t, a[0]) {
        case Panicked =>
        case Returned((_, u)) => PerformAppend(u, a[1..], b);
      }
    }
  }

  lemma PerformOutputs(t: Pipes.Table, pipes: WritePipes)
    ensures PerformOps(t, Outputs(pipes))
         == match Pipes.TakeWrite(t, pipes.stdout)
            case Panicked => Panicked
            case Returned((_, u)) =>
              match Pipes.TakeWrite(u, pipes.stderr)
              case Panicked => Panicked
              case Returned((_, v)) => Returned(v)
  {
    hide Pipes.TakeWrite;
    var ops := Outputs(pipes);
    assert ops[0] == Pipes.WriteEnd(pipes.stdout);
    assert ops[1..] == [Pipes.WriteEnd(pipes.stderr)];
    match Pipes.Perform(t, ops[0]) {
      case Panicked =>
      case Returned((_, u)) =>
        assert PerformOps(t, ops) == PerformOps(u, ops[1..]);
        assert ops[1..][0] == Pipes.WriteEnd(pipes.stderr) && ops[1..][1..] == [];
        match Pipes.Perform(u, ops[1]) {
          case Panicked =>
          case Returned((_, v)) => assert PerformOps(u, ops[1..]) == PerformOps(v, []);
        }
    }
  }

  /** Attaching a program's streams takes all its ends. */
  lemma AttachPerforms(t: Pipes.Table, pipes: WritePipes)
    ensures PerformOps(t, AllEnds(pipes))
         == match Attach(t, pipes) case Panicked => Panicked case Returned((_, u)) => Returned(u)
  {
    hide Pipes.TakeRead, Pipes.TakeWrite;
    var ops := AllEnds(pipes);
    assert ops[0] == Pipes.ReadEnd(pipes.stdin) && ops[1..] == Outputs(pipes);
    match Pipes.Perform(t, ops[0]) {
      case Panicked =>
      case Returned((_, u)) => PerformOutputs(u, pipes);
    }
  }

  lemma RunnableFacts<Cmd, State>(s: Schedule<Cmd, State>, p: Pid)
    requires p in s.Runnable()
    ensures p in s.jobs && p !in s.done && p !in s.started && !s.Blocked(p)
  {
  }

  lemma PerformStart(t: Pipes.Table, c: RunCmd, ok: bool)
    ensures PerformOps(t, OpsOf(c, ok))
         == match PerformOps(t, RunOps(c))
            case Panicked => Panicked
            case Returned(u) => if ResultOf(c.cmd, ok).Error? then PerformOps(u, Outputs(c.pipes)) else Returned(u)
  {
    PerformAppend(t, RunOps(c), if ResultOf(c.cmd, ok).Error? then Outputs(c.pipes) else []);
  }

  lemma DispatchNext(b: Backend, acts: seq<Act>, c: Backend, a: Act)
    requires Fair(b, acts) && DispatchAll(b, acts) == Returned(c) && a.pid in c.sched.Runnable()
    ensures Fair(b, acts + [a]) && DispatchAll(b, acts + [a]) == Dispatch(c, a.pid, a.ok, a.text)
  {
    assert (acts + [a])[..|acts|] == acts;
  }

  lemma WorklistEmpty<Cmd, State>(s: Schedule<Cmd, State>, ready: set<Pid>)
    requires Worklist(s, ready, [])
    ensures ready == {}
  {
    assert forall p :: p in ready ==> Task.Start(p, s.jobs[p].cmd) in [];
  }

  /** Starting `p` finishes it, if no waiter objects, and sends its result, or leaves it running and asks
      at most one question. */
  lemma DispatchShape(b: Backend, p: Pid, ok: bool, text: Bytes) returns (more: seq<Entry>)
    requires p in b.sched.Runnable() && Dispatch(b, p, ok, text).Returned?
    ensures var c := Dispatch(b, p, ok, text).value;
            && c.log == b.log + [Ran(p)] + more
            && if p in c.sched.done then
                 && c.sched == b.sched.Finish(p, c.sched.done[p]) && !b.sched.Contradicts(p, c.sched.done[p])
                 && exists code :: more == [Sent(CommandDone(p, code))]
               else
                 && p in c.sched.started && c.sched == b.sched.Begin(p, c.sched.started[p])
                 && (more == [] || exists e, name :: more == [Sent(EditRequest(e, p, name))])
  {
    hide PerformOps, Schedule.Contradicts, Schedule.Runnable, OpsOf, Says, Wrote, WithChild;
    RunnableFacts(b.sched, p);
    var c, cmd := Dispatch(b, p, ok, text).value, b.sched.jobs[p].cmd.cmd;
    match ResultOf(cmd, ok) {
      case Process(_) =>
        more := if cmd.Edit? then [Sent(EditRequest(b.nextEdit, p, cmd.file))] else [];
      case AlreadyDone(_) => more := [Sent(CommandDone(p, 0))];
      case Error => more := [Sent(CommandDone(p, 1))];
    }
    assert b.log + [Ran(p)] + more == b.log + ([Ran(p)] + more);
  }

  /** Starting `p` turns the rest of the worklist, and what it releases, into the new
      worklist, and leaves one process fewer idle. */
  lemma DispatchWork(b: Backend, p: Pid, ok: bool, text: Bytes, rest: seq<Task<RunCmd>>)
    requires b.sched.WellFormed() && p in b.sched.Runnable() && Dispatch(b, p, ok, text).Returned?
    requires Worklist(b.sched, b.sched.Runnable() - {p}, rest)
    ensures var s := Dispatch(b, p, ok, text).value.sched;
            && s.WellFormed()
            && Worklist(s, s.Runnable(), rest + if p in s.done then b.sched.Released(p) else [])
            && Idle(s) < Idle(b.sched)
  {
    hide Schedule.WellFormed, Worklist, Dispatch, Schedule.Contradicts, Schedule.Released, Schedule.Runnable;
    var _ := DispatchShape(b, p, ok, text);
    RunnableFacts(b.sched, p);
    var s := Dispatch(b, p, ok, text).value.sched;
    if p in s.done {
      FinishWellFormed(b.sched, p, s.done[p]);
      WorklistFinish(b.sched, p, s.done[p], rest);
    } else {
      BeginWellFormed(b.sched, p, s.started[p]);
      BeginTables(b.sched, p, s.started[p]);
      WorklistSame(b.sched, s, b.sched.Runnable() - {p}, rest);
      assert rest + [] == rest;
    }
    assert p in Idle(b.sched) && p !in Idle(s);
  }

  lemma WorklistSame<Cmd, State>(s: Schedule<Cmd, State>, t: Schedule<Cmd, State>, ready: set<Pid>,
                                 tasks: seq<Task<Cmd>>)
    requires Worklist(s, ready, tasks) && s.jobs == t.jobs
    ensures Worklist(t, ready, tasks)
  {
  }

  lemma RepresentsWellFormed<Cmd, State>(t: Tables<Cmd, State>, s: Schedule<Cmd, State>)
    requires Represents(t, s)
    ensures s.WellFormed()
  {
  }

  lemma DispatchNothing(b: Backend)
    ensures Fair(b, []) && DispatchAll(b, []) == Returned(b)
  {
  }

  lemma WorklistEnqueue<Cmd, State>(s: Schedule<Cmd, State>, p: Pid, job: Job<Cmd>)
    requires s.WellFormed() && p !in s.jobs && s.Runnable() == {}
    ensures var t := s.Add(p, job);
            Worklist(t, t.Runnable(), if t.Blocked(p) then [] else [Task.Start(p, job.cmd)])
  {
    AddRunnable(s, p, job);
    hide Schedule.WellFormed, Schedule.Blocked, Schedule.Runnable;
    assert Task.Start(p, job.cmd) in [Task.Start(p, job.cmd)];
  }

  lemma WorklistExit<Cmd, State>(s: Schedule<Cmd, State>, p: Pid, status: ExitStatus)
    requires s.WellFormed() && p in s.Running() && !s.Contradicts(p, status) && s.Runnable() == {}
    ensures Worklist(s.Finish(p, status), s.Finish(p, status).Runnable(), s.Released(p))
  {
    hide Schedule.Released;
    WorklistNothing(s);
    assert s.Runnable() - {p} == {};
    WorklistFinish(s, p, status, []);
    assert [] + s.Released(p) == s.Released(p);
  }

  lemma WorklistNothing<Cmd, State>(s: Schedule<Cmd, State>)
    ensures Worklist(s, {}, [])
  {
  }

  lemma RepresentsRunning<Cmd, State>(t: Tables<Cmd, State>, s: Schedule<Cmd, State>)
    requires Represents(t, s)
    ensures t.running == s.Running()
  {
  }
}
