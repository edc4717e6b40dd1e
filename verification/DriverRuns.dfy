// Runs of the driver: the order of its answers, and when it panics.

module DriverRuns {
  import opened Protocol
  import opened Scheduling
  import opened ScheduleLemmas
  import opened Driver
  import opened DriverLemmas
  import Pipes

  predicate IsResult(e: Entry, p: Pid) {
    e.Sent? && e.response.CommandDone? && e.response.pid == p
  }

  ghost predicate Reported(log: seq<Entry>, p: Pid) {
    exists i :: 0 <= i < |log| && IsResult(log[i], p)
  }

  /** A process is started only after the result of everything it blocks on was sent. */
  ghost predicate ResultsFirst(jobs: map<Pid, Job<RunCmd>>, log: seq<Entry>) {
    forall i, d :: 0 <= i < |log| && log[i].Ran? && log[i].pid in jobs && d in jobs[log[i].pid].blockFor ==>
      Reported(log[..i], d)
  }

  /** No process is started twice and none is answered twice. */
  ghost predicate OnceEach(log: seq<Entry>) {
    && (forall i, j :: 0 <= i < j < |log| && log[i].Ran? ==> log[j] != log[i])
    && (forall i, j, p :: 0 <= i < j < |log| && IsResult(log[i], p) ==> !IsResult(log[j], p))
  }

  /** The log is in step with the schedule. */
  ghost predicate LogFollows(b: Backend) {
    && ResultsFirst(b.sched.jobs, b.log)
    && OnceEach(b.log)
    && (forall p :: p in b.sched.done ==> Reported(b.log, p))
    && (forall p :: Reported(b.log, p) && p in b.sched.jobs ==> p in b.sched.done)
    && (forall p :: Ran(p) in b.log <==> p in b.sched.started || p in b.sched.done)
  }

  /** One more entry. */
  lemma LogGrows(jobs: map<Pid, Job<RunCmd>>, log: seq<Entry>, e: Entry)
    requires ResultsFirst(jobs, log) && OnceEach(log)
    requires e.Ran? ==> e !in log && (e.pid in jobs ==> forall d :: d in jobs[e.pid].blockFor ==> Reported(log, d))
    requires forall p :: IsResult(e, p) ==> !Reported(log, p)
    ensures ResultsFirst(jobs, log + [e]) && OnceEach(log + [e])
    ensures forall p :: Reported(log + [e], p) <==> Reported(log, p) || IsResult(e, p)
  {
    var all := log + [e];
    forall p ensures Reported(all, p) <==> Reported(log, p) || IsResult(e, p) {
      if IsResult(e, p) { assert IsResult(all[|log|], p); }
      if Reported(log, p) {
        var i :| 0 <= i < |log| && IsResult(log[i], p);
        assert all[i] == log[i];
      }
    }
    forall i, d | 0 <= i < |all| && all[i].Ran? && all[i].pid in jobs && d in jobs[all[i].pid].blockFor
      ensures Reported(all[..i], d)
    {
      assert all[..i] == if i < |log| then log[..i] else log;
      assert i < |log| ==> all[i] == log[i];
    }
    forall i, j, p | 0 <= i < j < |all| && IsResult(all[i], p) ensures !IsResult(all[j], p) {
      assert i < |log| && all[i] == log[i];
      assert j < |log| ==> all[j] == log[j];
    }
  }

  lemma DispatchLog(b: Backend, p: Pid, ok: bool, text: Bytes)
    requires LogFollows(b) && b.sched.WellFormed() && p in b.sched.Runnable() && Dispatch(b, p, ok, text).Returned?
    ensures LogFollows(Dispatch(b, p, ok, text).value)
  {
    hide Schedule.WellFormed, Dispatch, ResultsFirst, OnceEach, Schedule.Contradicts, Schedule.Runnable, Reported;
    RunnableFacts(b.sched, p);
    RunnableReported(b, p);
    LogGrows(b.sched.jobs, b.log, Ran(p));
    var more := DispatchShape(b, p, ok, text);
    if more == [] {
      assert b.log + [Ran(p)] + more == b.log + [Ran(p)];
    } else {
      LogGrows(b.sched.jobs, b.log + [Ran(p)], more[0]);
    }
  }

  lemma RunnableReported(b: Backend, p: Pid)
    requires LogFollows(b) && p in b.sched.Runnable()
    ensures forall d :: d in b.sched.jobs[p].blockFor ==> Reported(b.log, d)
    ensures !Reported(b.log, p) && Ran(p) !in b.log
  {
  }

  // The frontend never uses a process id again.
  ghost predicate FreshEvent(b: Backend, e: Event) {
    e.Enqueue? ==> !Reported(b.log, e.pid)
  }

  lemma ReceiveLog(b: Backend, e: Event, ok: bool)
    requires LogFollows(b) && b.sched.WellFormed() && FreshEvent(b, e) && Receive(b, e, ok).Returned?
    ensures LogFollows(Receive(b, e, ok).value)
  {
    hide ResultsFirst, OnceEach, Mismatched, Schedule.Contradicts;
    match e {
      case Enqueue(p, cmd, blockFor) =>
        if Mismatched(b.sched.done, blockFor) {
          LogGrows(b.sched.jobs, b.log, Sent(CommandDone(p, 1)));
        } else {
          EnqueueLog(b, p, Job(cmd, blockFor));
        }
      case Completed(p, exitCode) => ExitLog(b, p, exitCode);
      case EditComplete(editId) => ExitLog(b.(edits := b.edits - {editId}), b.edits[editId].0, 0);
      case PipeOutput(id, data) => LogGrows(b.sched.jobs, b.log, Sent(PipeData(id, data)));
      case PipeEnd(id) => LogGrows(b.sched.jobs, b.log, Sent(PipeClosed(id)));
      case OpenOutputFile(_, _) =>
      case OpenInputFile(_, _) =>
      case BeginRead(_) =>
    }
  }

  /** A process that expects another status of a finished dependency is reported as failed, and that is all. */
  lemma RefusedTold(b: Backend, p: Pid, cmd: RunCmd, blockFor: map<Pid, Condition>, ok: bool)
    requires p !in b.sched.jobs
    requires exists d :: d in blockFor && d in b.sched.done && blockFor[d].Some? && blockFor[d].value != b.sched.done[d]
    ensures Receive(b, Enqueue(p, cmd, blockFor), ok) == Returned(b.(log := b.log + [Sent(CommandDone(p, 1))]))
  {
    MismatchedExactly(b.sched.done, blockFor);
  }

  /** A file that is opened on an unused pipe is what the other side of the pipe gets: whoever writes to it if it
      was opened for output, whoever reads it if for input.  Opening panics if the pipe is in use. */
  lemma FileOpened(b: Backend, id: PipeId, path: string, ok: bool)
    ensures Receive(b, Event.OpenOutputFile(id, path), ok).Panicked? <==> !ok || id in b.pipes.handles
    ensures Receive(b, Event.OpenInputFile(id, path), ok).Panicked? <==> !ok || id in b.pipes.handles
    ensures ok && id !in b.pipes.handles ==>
              var (out, into) := (Receive(b, Event.OpenOutputFile(id, path), ok).value,
                                  Receive(b, Event.OpenInputFile(id, path), ok).value);
              && Pipes.TakeWrite(out.pipes, id).Returned? && Pipes.TakeRead(out.pipes, id).Panicked?
              && Pipes.TakeWrite(out.pipes, id).value.0 == Pipes.FileWriter(b.pipes.nextOs, path)
              && Pipes.TakeRead(into.pipes, id).Returned? && Pipes.TakeWrite(into.pipes, id).Panicked?
              && Pipes.TakeRead(into.pipes, id).value.0 == Pipes.FileReader(b.pipes.nextOs, path)
  {
  }

  lemma ExitLog(b: Backend, p: Pid, exitCode: int)
    requires LogFollows(b) && b.sched.WellFormed() && Exit(b, p, exitCode).Returned?
    ensures LogFollows(Exit(b, p, exitCode).value)
  {
    hide ResultsFirst, OnceEach, Schedule.Contradicts;
    assert p in b.sched.jobs;
    LogGrows(b.sched.jobs, b.log, Sent(CommandDone(p, exitCode)));
  }

  lemma EnqueueLog(b: Backend, p: Pid, job: Job<RunCmd>)
    requires LogFollows(b) && b.sched.WellFormed() && p !in b.sched.jobs && !Reported(b.log, p)
    ensures LogFollows(b.(sched := b.sched.Add(p, job)))
  {
    forall i | 0 <= i < |b.log| && b.log[i].Ran? ensures b.log[i].pid != p {
      assert Ran(b.log[i].pid) in b.log;
    }
  }

  /** What the driver handled, with the processes each event started. */
  datatype Handling = Handling(event: Event, ok: bool, acts: seq<Act>)

  ghost function Driven(h: seq<Handling>): Outcome<Backend> {
    if h == [] then Returned(NewBackend())
    else
      match Driven(h[..|h| - 1])
      case Panicked => Panicked
      case Returned(b) =>
        match Receive(b, h[|h| - 1].event, h[|h| - 1].ok)
        case Panicked => Panicked
        case Returned(c) => DispatchAll(c, h[|h| - 1].acts)
  }

  /** `h` is a run: every event was handled to the end, and no process id came twice. */
  ghost predicate IsRun(h: seq<Handling>) {
    h == [] ||
    (var before, last := h[..|h| - 1], h[|h| - 1];
     && IsRun(before) && Driven(before).Returned? && Driven(h).Returned?
     && FreshEvent(Driven(before).value, last.event)
     && Handled(Driven(before).value, last.event, last.ok, last.acts, Driven(h).value))
  }

  /** In every run results come before the processes that block on them, no process is
      started or answered twice, nothing runnable is left behind, and when nothing
      is running every process has finished. */
  lemma {:induction false} RunKeeps(h: seq<Handling>)
    requires IsRun(h)
    ensures Driven(h).Returned?
    ensures var b := Driven(h).value;
            && b.sched.WellFormed() && LogFollows(b) && b.sched.Runnable() == {}
            && (b.sched.Running() == map[] ==> b.sched.done.Keys == b.sched.jobs.Keys)
  {
    hide Schedule.WellFormed, LogFollows, Receive, Dispatch;
    if h == [] {
      EmptyLog();
    } else {
      var before, last := h[..|h| - 1], h[|h| - 1];
      RunKeeps(before);
      var b := Driven(before).value;
      ReceiveWellFormed(b, last.event, last.ok);
      ReceiveLog(b, last.event, last.ok);
      DispatchAllKeeps(Receive(b, last.event, last.ok).value, last.acts);
    }
    if Driven(h).value.sched.Running() == map[] {
      NoDeadlock(Driven(h).value.sched);
    }
  }

  lemma EmptyLog()
    ensures NewBackend().sched.WellFormed() && LogFollows(NewBackend()) && NewBackend().sched.Runnable() == {}
  {
  }

  lemma ReceiveWellFormed(b: Backend, e: Event, ok: bool)
    requires b.sched.WellFormed() && Receive(b, e, ok).Returned?
    ensures Receive(b, e, ok).value.sched.WellFormed()
  {
    match e {
      case Enqueue(p, cmd, blockFor) =>
        if !Mismatched(b.sched.done, blockFor) { AddWellFormed(b.sched, p, Job(cmd, blockFor)); }
      case Completed(p, exitCode) => FinishWellFormed(b.sched, p, FromExitCode(exitCode));
      case EditComplete(editId) => FinishWellFormed(b.sched, b.edits[editId].0, FromExitCode(0));
      case _ =>
    }
  }

  lemma DispatchWellFormed(b: Backend, p: Pid, ok: bool, text: Bytes)
    requires b.sched.WellFormed() && p in b.sched.Runnable() && Dispatch(b, p, ok, text).Returned?
    ensures Dispatch(b, p, ok, text).value.sched.WellFormed()
  {
    hide Schedule.WellFormed, PerformOps, Schedule.Contradicts, Schedule.Runnable;
    RunnableFacts(b.sched, p);
    var s := Dispatch(b, p, ok, text).value.sched;
    if p in s.done {
      FinishWellFormed(b.sched, p, s.done[p]);
    } else {
      BeginWellFormed(b.sched, p, s.started[p]);
    }
  }

  lemma {:induction false} DispatchAllKeeps(b: Backend, acts: seq<Act>)
    requires b.sched.WellFormed() && LogFollows(b) && DispatchAll(b, acts).Returned?
    ensures DispatchAll(b, acts).value.sched.WellFormed() && LogFollows(DispatchAll(b, acts).value)
  {
    hide Schedule.WellFormed, LogFollows, Dispatch, Schedule.Runnable;
    if acts != [] {
      var before, a := acts[..|acts| - 1], acts[|acts| - 1];
      DispatchAllKeeps(b, before);
      var c := DispatchAll(b, before).value;
      DispatchWellFormed(c, a.pid, a.ok, a.text);
      DispatchLog(c, a.pid, a.ok, a.text);
    }
  }

  /** Taking the ends `ops` panics exactly when they clash with each other or with the past. */
  lemma {:induction false} TakingPanics(t: Pipes.Table, ends: seq<Pipes.End>, past: seq<Pipes.Op>, ops: seq<Pipes.Op>)
    requires Pipes.Describes(t, ends, past) && Pipes.ClashFree(past)
    ensures PerformOps(t, ops).Panicked? <==> !Pipes.ClashFree(past + ops)
    decreases ops
  {
    hide Pipes.Describes, Pipes.Perform, Pipes.ClashFree, Pipes.Blocks;
    if ops == [] {
      assert past + ops == past;
    } else {
      var op := ops[0];
      assert past + ops == (past + [op]) + ops[1..];
      Pipes.PerformOne(t, ends, past, op);
      Pipes.ClashFreeStep(past, op);
      if Pipes.Perform(t, op).Returned? {
        Pipes.PerformStep(t, ends, past, op);
        var (e, u) := Pipes.Perform(t, op).value;
        TakingPanics(u, ends + [e], past + [op], ops[1..]);
      } else {
        ClashStays(past + [op], ops[1..]);
      }
    }
  }

  lemma ClashStays(ops: seq<Pipes.Op>, more: seq<Pipes.Op>)
    ensures Pipes.ClashFree(ops + more) ==> Pipes.ClashFree(ops)
  {
    if Pipes.ClashFree(ops + more) {
      forall i, j | 0 <= i < j < |ops| ensures !Pipes.Clashes(ops[i], ops[j]) {
        assert (ops + more)[i] == ops[i] && (ops + more)[j] == ops[j];
      }
    }
  }

  /** Starting a process panics exactly when it takes a pipe end that is gone, or when
      it finishes at once with a status that a waiter rejects. */
  lemma DispatchPanics(b: Backend, ends: seq<Pipes.End>, past: seq<Pipes.Op>, p: Pid, ok: bool, text: Bytes)
    requires Pipes.Describes(b.pipes, ends, past) && Pipes.ClashFree(past)
    requires p in b.sched.Runnable()
    ensures var c := b.sched.jobs[p].cmd;
            Dispatch(b, p, ok, text).Panicked? <==>
            || !Pipes.ClashFree(past + OpsOf(c, ok))
            || (!c.cmd.Edit? && !c.cmd.Unknown? && b.sched.Contradicts(p, if ok then Success else Failure))
            || (c.cmd.Edit? && !ok && b.sched.Contradicts(p, Failure))
  {
    hide Pipes.Describes, Pipes.ClashFree, Schedule.Contradicts, PerformOps;
    var c := b.sched.jobs[p].cmd;
    RunnableFacts(b.sched, p);
    TakingPanics(b.pipes, ends, past, OpsOf(c, ok));
    if c.cmd.Unknown? && !ok {
      SpawnFailureClashes(past, c);
    }
  }

  /** The driver does not survive a failed spawn: by then the ends it closes are taken. */
  lemma SpawnFailureClashes(past: seq<Pipes.Op>, c: RunCmd)
    requires c.cmd.Unknown?
    ensures !Pipes.ClashFree(past + OpsOf(c, false))
  {
    var all := past + OpsOf(c, false);
    assert all[|past| + 1] == Pipes.WriteEnd(c.pipes.stdout) && all[|past| + 3] == Pipes.WriteEnd(c.pipes.stdout);
    assert Pipes.Clashes(all[|past| + 1], all[|past| + 3]);
  }

  /** The exit code reported for a process that finished at once agrees with the status
      its waiters see, except for a built-in that failed: it reports 0. */
  lemma ReportedCode(b: Backend, p: Pid, ok: bool, text: Bytes)
    requires p in b.sched.Runnable() && Dispatch(b, p, ok, text).Returned?
    requires p in Dispatch(b, p, ok, text).value.sched.done
    ensures var c := Dispatch(b, p, ok, text).value; var cmd := b.sched.jobs[p].cmd.cmd;
            exists code :: c.log[|c.log| - 1] == Sent(CommandDone(p, code))
              && (FromExitCode(code) == c.sched.done[p] <==> !((cmd.SetDirectory? || cmd.GetDirectory?) && !ok))
  {
    hide PerformOps, Schedule.Contradicts;
    var c := Dispatch(b, p, ok, text).value;
    assert c.log[|c.log| - 1] == Sent(CommandDone(p, c.log[|c.log| - 1].response.exitCode));
  }
}
