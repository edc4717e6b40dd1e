// The backend's driver (backend/src/exec.rs): the event handler, the worklist loop
// and the pipe table, over the scheduler of `Scheduler`.

module Exec {
  import opened Protocol
  import opened Scheduling
  import opened Scheduler
  import opened Driver
  import Pipes
  import opened DriverLemmas

  class ExecInternal {
    const editIds: Ids
    const machine: Machine<RunCmd, ProcessState>
    var openHandles: map<PipeId, Pipes.Pair>
    var nextOs: nat // the operating system's supply of pipes and files
    var activelyReading: set<PipeId>
    var written: map<PipeId, Bytes> // data given to writer threads
    var children: map<Pid, Stdio> // standard streams assigned to the programs that were spawned
    var waitingEdits: map<nat, (Pid, string)>
    var log: seq<Entry> // calls of `run` and of the response handler

    ghost function Table(): Pipes.Table
      reads this
    {
      Pipes.Table(openHandles, nextOs)
    }

    ghost function View(): Backend
      reads this, machine, editIds
    {
      Backend.Backend(machine.model, Table(), waitingEdits, editIds.nextId, activelyReading, written, children, log)
    }

    ghost predicate Valid()
      reads this, machine, editIds
    {
      machine.Valid()
    }

    constructor ()
      ensures Valid() && View() == NewBackend() && fresh(machine) && fresh(editIds)
    {
      editIds := new Ids();
      machine := new Machine();
      openHandles, nextOs := map[], 0;
      activelyReading, waitingEdits, written, children, log := {}, map[], map[], map[], [];
    }

    method ReadEnd(pipe: PipeId) returns (out: Outcome<Pipes.InEnd>)
      modifies this`openHandles, this`nextOs
      ensures out.Panicked? <==> Pipes.TakeRead(old(Table()), pipe).Panicked?
      ensures out.Returned? ==> Pipes.TakeRead(old(Table()), pipe) == Returned((out.value, Table()))
    {
      if pipe in openHandles {
        var handle := openHandles[pipe];
        if handle.read.None? {
          return Panicked; // expect("read side taken")
        }
        openHandles := openHandles[pipe := handle.(read := None)];
        out := Returned(handle.read.value);
      } else {
        openHandles := openHandles[pipe := Pipes.Pair(None, Some(Pipes.PipeWriter(nextOs)))];
        out := Returned(Pipes.PipeReader(nextOs));
        nextOs := nextOs + 1;
      }
    }

    method WriteEnd(pipe: PipeId) returns (out: Outcome<Pipes.OutEnd>)
      modifies this`openHandles, this`nextOs
      ensures out.Panicked? <==> Pipes.TakeWrite(old(Table()), pipe).Panicked?
      ensures out.Returned? ==> Pipes.TakeWrite(old(Table()), pipe) == Returned((out.value, Table()))
    {
      if pipe in openHandles {
        var handle := openHandles[pipe];
        if handle.write.None? {
          return Panicked; // expect("write side taken")
        }
        openHandles := openHandles[pipe := handle.(write := None)];
        out := Returned(handle.write.value);
      } else {
        openHandles := openHandles[pipe := Pipes.Pair(Some(Pipes.PipeReader(nextOs)), None)];
        out := Returned(Pipes.PipeWriter(nextOs));
        nextOs := nextOs + 1;
      }
    }

    /** Writer threads write `stdout` and `stderr`, as far as there is anything to write, and
        close both pipes. */
    method PipeOutputAndClose(pipes: WritePipes, stdout: Bytes, stderr: Bytes) returns (out: Outcome<()>)
      modifies this`openHandles, this`nextOs, this`written
      ensures PerformOps(old(Table()), Outputs(pipes)) == (if out.Panicked? then Panicked else Returned(Table()))
      ensures out.Returned? ==> written == Wrote(old(written), pipes, (stdout, stderr))
    {
      PerformOutputs(Table(), pipes);
      var first := WriteEnd(pipes.stdout);
      if first.Panicked? {
        return Panicked;
      }
      written := written[pipes.stdout := stdout];
      var second := WriteEnd(pipes.stderr);
      if second.Panicked? {
        return Panicked;
      }
      written := written[pipes.stderr := stderr];
      out := Returned(());
    }

    /** Starts `pid`.  `ok` and `text` stand for the operating system: whether the spawn, the
        directory change or the file read succeeds, and the directory's name or the error. */
    method Run(pid: Pid, c: RunCmd, ok: bool, text: Bytes) returns (out: Outcome<RunResult>)
      modifies this, editIds
      ensures out.Panicked? <==> PerformOps(old(Table()), RunOps(c)).Panicked?
      ensures out.Returned? ==>
                && PerformOps(old(Table()), RunOps(c)) == Returned(Table())
                && out.value == ResultOf(c.cmd, ok)
                && activelyReading == old(activelyReading)
                && children == (if !(c.cmd.Unknown? && ok) then old(children)
                                else WithChild(old(children), pid, old(Table()), c.pipes))
                && written == (if !ResultOf(c.cmd, ok).AlreadyDone? then old(written)
                               else Wrote(old(written), c.pipes, Says(c.cmd, ok, text)))
      ensures out.Returned? && c.cmd.Edit? && ok ==>
                && waitingEdits == old(waitingEdits)[old(editIds.nextId) := (pid, c.cmd.file)]
                && editIds.nextId == old(editIds.nextId) + 1
                && log == old(log) + [Ran(pid), Sent(EditRequest(old(editIds.nextId), pid, c.cmd.file))]
      ensures out.Returned? && !(c.cmd.Edit? && ok) ==>
                && waitingEdits == old(waitingEdits) && editIds.nextId == old(editIds.nextId)
                && log == old(log) + [Ran(pid)]
    {
      log := log + [Ran(pid)];
      match c.cmd {
        case Unknown(_, _) =>
          var stdin := ReadEnd(c.pipes.stdin);
          if stdin.Panicked? {
            return Panicked;
          }
          AttachPerforms(old(Table()), c.pipes);
          var stdout := WriteEnd(c.pipes.stdout);
          if stdout.Panicked? {
            return Panicked;
          }
          var stderr := WriteEnd(c.pipes.stderr);
          if stderr.Panicked? {
            return Panicked;
          }
          if ok {
            children := children[pid := Stdio(stdin.value, stdout.value, stderr.value)];
          }
          out := Returned(if ok then Process(Spawned) else Error);
        case SetDirectory(_) =>
          var closed := PipeOutputAndClose(c.pipes, if ok then "Success: ()" else "Error: " + text, []);
          if closed.Panicked? {
            return Panicked;
          }
          out := Returned(AlreadyDone(if ok then 0 else 1));
        case GetDirectory =>
          var name, error := if ok then text + "\n" else [], if ok then [] else "Error: " + text;
          var closed := PipeOutputAndClose(c.pipes, name, error);
          if closed.Panicked? {
            return Panicked;
          }
          out := Returned(AlreadyDone(if ok then 0 else 1));
        case Edit(path) =>
          if ok {
            var editId := editIds.Next();
            waitingEdits := waitingEdits[editId := (pid, path)];
            log := log + [Sent(EditRequest(editId, pid, path))];
            out := Returned(Process(AwaitingEdit));
          } else {
            out := Returned(Error);
          }
      }
    }

    // The `Task::Start` arm of `ProcessTasks`.
    method StartTask(pid: Pid, cmd: RunCmd)
      returns (out: Outcome<seq<Task<RunCmd>>>, ghost ok: bool, ghost text: Bytes)
      requires Valid() && pid in machine.model.Runnable() && cmd == machine.model.jobs[pid].cmd
      modifies this, machine, editIds
      ensures out.Panicked? <==> Dispatch(old(View()), pid, ok, text).Panicked?
      ensures out.Returned? ==> Valid() && Dispatch(old(View()), pid, ok, text) == Returned(View())
      ensures out.Returned? ==> out.value == if pid in machine.model.done then old(machine.model).Released(pid) else []
    {
      hide Represents, Schedule.Runnable, Schedule.Contradicts, Schedule.Released, Pipes.Perform, PerformOps, Outputs,
           RunOps, OpsOf;
      RunnableFacts(machine.model, pid);
      var reply: bool := *;
      var words: Bytes := *;
      ok, text := reply, words;
      var result := Run(pid, cmd, reply, words);
      PerformStart(old(Table()), cmd, ok);
      if result.Panicked? {
        return Panicked, ok, text;
      }
      match result.value {
        case Process(state) =>
          var started := machine.Start(pid, state);
          out := Returned([]);
        case AlreadyDone(exitCode) =>
          out := machine.StartCompleted(pid, FromExitCode(exitCode));
          if out.Panicked? {
            return;
          }
          log := log + [Sent(CommandDone(pid, 0))];
          assert log == old(log) + [Ran(pid), Sent(CommandDone(pid, 0))];
        case Error =>
          out := machine.StartCompleted(pid, Failure);
          if out.Panicked? {
            return;
          }
          var closed := PipeOutputAndClose(cmd.pipes, [], words);
          if closed.Panicked? {
            return Panicked, ok, text;
          }
          log := log + [Sent(CommandDone(pid, 1))];
          assert log == old(log) + [Ran(pid), Sent(CommandDone(pid, 1))];
      }
    }

    /** Starts processes until none is runnable.  `acts` lists the processes in the order
        in which they were started, and how the operating system answered.  A
        panic is the panic of the last one. */
    method ProcessTasks(initial: seq<Task<RunCmd>>) returns (out: Outcome<()>, ghost acts: seq<Act>)
      requires Valid() && Worklist(machine.model, machine.model.Runnable(), initial)
      modifies this, machine, editIds
      ensures Fair(old(View()), acts)
      ensures out.Panicked? <==> DispatchAll(old(View()), acts).Panicked?
      ensures out.Returned? ==> Valid() && DispatchAll(old(View()), acts) == Returned(View())
      ensures out.Returned? ==> machine.model.Runnable() == {}
    {
      hide Represents, Schedule.Runnable, Schedule.Released, Schedule.WellFormed;
      hide Worklist, Dispatch, DispatchAll, Fair, Idle;
      var tasks := initial;
      acts := [];
      DispatchNothing(View());
      while true
        invariant Valid() && Fair(old(View()), acts) && DispatchAll(old(View()), acts) == Returned(View())
        invariant Worklist(machine.model, machine.model.Runnable(), tasks)
        decreases Idle(machine.model)
      {
        var newTasks := [];
        ghost var idle := Idle(machine.model);
        assert tasks[0..] + newTasks == tasks;
        for i := 0 to |tasks|
          invariant Valid() && Fair(old(View()), acts) && DispatchAll(old(View()), acts) == Returned(View())
          invariant Worklist(machine.model, machine.model.Runnable(), tasks[i..] + newTasks)
          invariant Idle(machine.model) <= idle && (newTasks != [] ==> Idle(machine.model) < idle)
        {
          ghost var work, s, b := tasks[i..] + newTasks, machine.model, View();
          assert work[0] == tasks[i] && work[1..] == tasks[i + 1..] + newTasks;
          WorklistNext(s, s.Runnable(), work);
          RepresentsWellFormed(machine.View(), s);
          var t := tasks[i];
          var more, ok, text := StartTask(t.pid, t.cmd);
          DispatchNext(old(View()), acts, b, Act(t.pid, ok, text));
          acts := acts + [Act(t.pid, ok, text)];
          if more.Panicked? {
            return Panicked, acts;
          }
          DispatchWork(b, t.pid, ok, text, work[1..]);
          newTasks := newTasks + more.value;
          assert work[1..] + more.value == tasks[i + 1..] + newTasks;
        }
        assert tasks[|tasks|..] + newTasks == newTasks;
        if |newTasks| == 0 {
          break;
        }
        tasks := newTasks;
      }
      WorklistEmpty(machine.model, machine.model.Runnable());
      out := Returned(());
    }

    /** Handles one event, then starts processes until none is runnable.  `ok` stands for the
        operating system: whether a file can be opened or an edited file saved. */
    method Handle(e: Event, ok: bool) returns (out: Outcome<()>, ghost acts: seq<Act>)
      requires Valid() && machine.model.Runnable() == {}
      modifies this, machine, editIds
      ensures out.Returned? ==> Valid() && Handled(old(View()), e, ok, acts, View())
      ensures out.Panicked? ==>
                || Fails(old(View()), e, ok, acts)
                || (e.Enqueue? && !(e.blockFor.Keys <= old(machine.model).jobs.Keys))
    {
      hide Dispatch, DispatchAll, Fair, Schedule.WellFormed;
      acts := [];
      match e {
        case Enqueue(pid, cmd, blockFor) =>
          out, acts := EnqueueCommand(pid, cmd, blockFor, ok);
        case Completed(pid, exitCode) =>
          out, acts := ProcessExited(pid, exitCode);
        case OpenOutputFile(pipe, path) =>
          if pipe in openHandles {
            return Panicked, acts;
          }
          if !ok {
            return Panicked, acts; // unwrap in the event loop
          }
          openHandles := openHandles[pipe := Pipes.Pair(None, Some(Pipes.FileWriter(nextOs, path)))];
          nextOs := nextOs + 1;
          out := Returned(());
        case OpenInputFile(pipe, path) =>
          if pipe in openHandles {
            return Panicked, acts;
          }
          if !ok {
            return Panicked, acts; // unwrap in the event loop
          }
          openHandles := openHandles[pipe := Pipes.Pair(Some(Pipes.FileReader(nextOs, path)), None)];
          nextOs := nextOs + 1;
          out := Returned(());
        case BeginRead(pipe) =>
          var handle := ReadEnd(pipe);
          if handle.Panicked? {
            return Panicked, acts;
          }
          activelyReading := activelyReading + {pipe};
          out := Returned(());
        case PipeOutput(pipe, data) =>
          log := log + [Sent(PipeData(pipe, data))];
          out := Returned(());
        case PipeEnd(pipe) =>
          log := log + [Sent(PipeClosed(pipe))];
          out := Returned(());
        case EditComplete(editId) =>
          if editId !in waitingEdits {
            return Panicked, acts;
          }
          var (pid, _) := waitingEdits[editId];
          waitingEdits := waitingEdits - {editId};
          if !ok {
            return Panicked, acts; // unwrap in the event loop
          }
          out, acts := ProcessExited(pid, 0);
      }
      DispatchNothing(View());
    }

    method EnqueueCommand(pid: Pid, cmd: RunCmd, blockFor: map<Pid, Condition>, ghost ok: bool)
      returns (out: Outcome<()>,
                          ghost acts: seq<Act>)
      requires Valid() && machine.model.Runnable() == {}
      modifies this, machine, editIds
      ensures out.Returned? ==> Valid() && Handled(old(View()), Enqueue(pid, cmd, blockFor), ok, acts, View())
      ensures out.Panicked? ==>
                || Fails(old(View()), Enqueue(pid, cmd, blockFor), ok, acts)
                || !(blockFor.Keys <= old(machine.model).jobs.Keys)
    {
      hide Represents, Schedule.Runnable, Schedule.WellFormed, Mismatched, Worklist, Dispatch, DispatchAll, Fair;
      DispatchNothing(View());
      ghost var s := machine.model;
      RepresentsWellFormed(machine.View(), s);
      var tasks := machine.Enqueue(pid, cmd, blockFor);
      if tasks.Panicked? {
        return Panicked, [];
      }
      if |tasks.value| == 1 && tasks.value[0].ConditionFailed? {
        log := log + [Sent(CommandDone(pid, 1))];
        DispatchNothing(View());
        return Returned(()), [];
      }
      WorklistEnqueue(s, pid, Job(cmd, blockFor));
      out, acts := ProcessTasks(tasks.value);
    }

    method ProcessExited(pid: Pid, exitCode: int) returns (out: Outcome<()>, ghost acts: seq<Act>)
      requires Valid() && machine.model.Runnable() == {}
      modifies this, machine, editIds
      ensures out.Returned? ==> Valid() && Follows(Exit(old(View()), pid, exitCode), acts, View())
      ensures out.Panicked? ==> FailsAfter(Exit(old(View()), pid, exitCode), acts)
    {
      hide Represents, Schedule.WellFormed, Worklist, Dispatch, DispatchAll, Fair;
      DispatchNothing(View());
      ghost var s := machine.model;
      RepresentsWellFormed(machine.View(), s);
      RepresentsRunning(machine.View(), s);
      log := log + [Sent(CommandDone(pid, exitCode))];
      var tasks := machine.Completed(pid, FromExitCode(exitCode));
      if tasks.Panicked? {
        return Panicked, [];
      }
      WorklistExit(s, pid, FromExitCode(exitCode));
      out, acts := ProcessTasks(tasks.value);
    }
  }
}
