// The frontend: the protocol endpoint (protocol/src/comm.rs), the state of outstanding
// work (frontend/src/comm.rs) and the interpreter loop (frontend/src/main.rs).

module Frontend {
  import opened Protocol
  import opened Driver
  import opened Plans
  import opened ClientSide
  import opened Reading
  import Prefs
  import Utf8

  /** Allocates identifiers and sends requests. */
  class Endpoint {
    const ids: Ids
    var pipes: set<PipeId>
    var jobs: set<Pid>
    var sent: seq<Request>

    constructor ()
      ensures fresh(ids) && ids.nextId == 0 && pipes == {} && jobs == {} && sent == []
    {
      ids := new Ids();
      pipes, jobs, sent := {}, {}, [];
    }

    method AddPipe() returns (id: PipeId)
      modifies this`pipes, ids
      ensures id == old(ids.nextId) && ids.nextId == id + 1 && pipes == old(pipes) + {id}
    {
      id := ids.Next();
      pipes := pipes + {id};
    }

    method Command(cmd: RunCmd, blockFor: map<Pid, Condition>) returns (pid: Pid)
      modifies this`jobs, this`sent, ids
      ensures pid == old(ids.nextId) && ids.nextId == pid + 1 && jobs == old(jobs) + {pid}
      ensures sent == old(sent) + [BeginCommand(pid, blockFor, cmd)]
    {
      pid := ids.Next();
      sent := sent + [BeginCommand(pid, blockFor, cmd)];
      jobs := jobs + {pid};
    }

    method OpenOutputFile(path: string) returns (id: PipeId)
      modifies this`pipes, this`sent, ids
      ensures id == old(ids.nextId) && ids.nextId == id + 1 && pipes == old(pipes) + {id}
      ensures sent == old(sent) + [OpenFile(id, path)]
    {
      id := ids.Next();
      pipes := pipes + {id};
      sent := sent + [OpenFile(id, path)];
    }

    method PipeBeginRead(id: PipeId)
      modifies this`sent
      ensures sent == old(sent) + [StartRead(id)]
    {
      sent := sent + [StartRead(id)];
    }

    method PipeRead(id: PipeId, limit: nat)
      modifies this`sent
      ensures sent == old(sent) + [ReadUpTo(id, limit)]
    {
      sent := sent + [ReadUpTo(id, limit)];
    }

    method FinishEdit(command: Pid, editId: nat) returns (ok: bool)
      modifies this`sent
      ensures ok <==> command in jobs // expect("process not running")
      ensures sent == if ok then old(sent) + [Request.FinishEdit(editId)] else old(sent)
    {
      ok := command in jobs;
      if ok {
        sent := sent + [Request.FinishEdit(editId)];
      }
    }
  }

  /** The work that is outstanding, and what has been collected. */
  class StackedRemotes {
    var remotes: seq<nat>
    var waitingForRemote: Option<nat>
    var waitingFor: set<Pid>
    var waitingForEof: set<PipeId>
    var gatheringOutput: map<PipeId, Bytes>
    var finishedOutput: map<PipeId, Bytes>
    var cwdForRemote: map<nat, PipeId>
    var stdoutPipes: set<PipeId>
    var stderrPipes: set<PipeId>
    var workingDir: Bytes
    var printed: Bytes
    var complained: Bytes

    constructor ()
      ensures remotes == [] && waitingForRemote == Some(ROOT) && waitingFor == {} && waitingForEof == {}
      ensures gatheringOutput == map[] && finishedOutput == map[] && cwdForRemote == map[]
      ensures stdoutPipes == {} && stderrPipes == {} && workingDir == [] && printed == [] && complained == []
    {
      remotes, waitingForRemote, waitingFor, waitingForEof := [], Some(ROOT), {}, {};
      gatheringOutput, finishedOutput, cwdForRemote := map[], map[], map[];
      stdoutPipes, stderrPipes, workingDir, printed, complained := {}, {}, [], [], [];
    }
  }

  class Exec {
    const endpoint: Endpoint
    const handler: StackedRemotes

    ghost function View(): Client
      reads endpoint, endpoint.ids, handler
    {
      Client.Client(
        endpoint.ids.nextId, endpoint.pipes, endpoint.jobs, endpoint.sent,
        handler.remotes, handler.waitingForRemote, handler.waitingFor, handler.waitingForEof,
        handler.gatheringOutput, handler.finishedOutput, handler.cwdForRemote,
        handler.stdoutPipes, handler.stderrPipes, handler.workingDir, handler.printed, handler.complained)
    }

    constructor ()
      ensures View() == NewClient() && fresh(endpoint) && fresh(endpoint.ids) && fresh(handler)
    {
      endpoint := new Endpoint();
      handler := new StackedRemotes();
    }

    method TakeData(id: PipeId, data: Bytes) returns (out: Outcome<()>)
      modifies handler
      ensures Deliver(old(View()), Response.PipeData(id, data), true)
           == if out.Panicked? then Panicked else Returned(View())
    {
      if id !in endpoint.pipes {
        return Panicked; // assert!
      }
      if id in handler.gatheringOutput {
        handler.gatheringOutput := handler.gatheringOutput[id := handler.gatheringOutput[id] + data];
      } else if id in handler.stdoutPipes {
        handler.printed := handler.printed + data;
      } else if id in handler.stderrPipes {
        handler.complained := handler.complained + data;
      } else {
        return Panicked;
      }
      out := Returned(());
    }

    method TakeEnd(id: PipeId) returns (out: Outcome<()>)
      modifies handler
      ensures Deliver(old(View()), Response.PipeClosed(id), true)
           == if out.Panicked? then Panicked else Returned(View())
    {
      if id !in endpoint.pipes {
        return Panicked; // assert!
      }
      handler.waitingForEof := handler.waitingForEof - {id};
      if id in handler.gatheringOutput {
        var output := handler.gatheringOutput[id];
        handler.gatheringOutput := handler.gatheringOutput - {id};
        handler.finishedOutput := handler.finishedOutput[id := output];
      }
      out := Returned(());
    }

    /** Handles one response.  `ok` stands for the editor program's success. */
    method Receive(r: Response, ok: bool) returns (out: Outcome<()>)
      modifies endpoint, handler
      ensures Deliver(old(View()), r, ok) == if out.Panicked? then Panicked else Returned(View())
    {
      match r {
        case RemoteReady =>
          if handler.waitingForRemote != Some(ROOT) {
            return Panicked;
          }
          handler.waitingForRemote := None;
          handler.remotes := handler.remotes + [ROOT];
          out := Returned(());
        case CommandDone(pid, _) =>
          if pid !in handler.waitingFor {
            return Panicked;
          }
          handler.waitingFor := handler.waitingFor - {pid};
          out := Returned(());
        case EditRequest(editId, command, _) =>
          if !ok {
            return Panicked; // assert!
          }
          var known := endpoint.FinishEdit(command, editId);
          out := if known then Returned(()) else Panicked;
        case PipeData(id, data) =>
          out := TakeData(id, data);
        case PipeClosed(id) =>
          out := TakeEnd(id);
      }
    }

    // Takes in the working directory that was gathered for the last prompt.
    method SettleDirectory() returns (out: Outcome<()>)
      modifies handler
      ensures Settle(old(View())) == if out.Panicked? then Panicked else Returned(View())
    {
      if ROOT in handler.cwdForRemote {
        var stream := handler.cwdForRemote[ROOT];
        if stream !in handler.finishedOutput {
          return Panicked;
        }
        var result := handler.finishedOutput[stream];
        handler.cwdForRemote := handler.cwdForRemote - {ROOT};
        handler.finishedOutput := handler.finishedOutput - {stream};
        if |result| > 0 && result[|result| - 1] == NEWLINE {
          if !Utf8.WellFormed(result[..|result| - 1]) {
            return Panicked;
          }
          handler.workingDir := result[..|result| - 1];
        }
      }
      out := Returned(());
    }

    // The interpreter's loop over the steps of a plan.
    // Takes the ends of a command and sends it.
    method StartCommand(slots0: seq<Slot>, cmd: Command, p: PlanProcess, ghost wait: set<Pid>, ghost step: Step)
      returns (slots: seq<Slot>, pid: Pid)
      requires CanTake(slots0, p) && step.Remote? && step.step == Run(cmd, p)
      modifies endpoint, endpoint.ids
      ensures DoStep(old(View()), slots0, wait, step) == Going(View(), slots, wait + {pid})
    {
      var stdout, stderr := slots0[p.stdout].write.value, slots0[p.stderr].write.value;
      var pipes := WritePipes(slots0[p.stdin].read.value, stdout, stderr);
      slots := TakeRead(TakeWrite(TakeWrite(slots0, p.stdout), p.stderr), p.stdin);
      pid := endpoint.Command(RunCmd(cmd, pipes), map[]);
    }

    method RunSteps(steps: seq<Step>) returns (end: End, slots: seq<Slot>, wait: set<Pid>)
      modifies endpoint, endpoint.ids
      ensures EndsAs(end, DoSteps(old(View()), steps), View(), slots, wait)
    {
      slots, wait := [], {};
      for i := 0 to |steps|
        invariant DoSteps(old(View()), steps[..i]) == Going(View(), slots, wait)
      {
        assert steps[..i + 1][..i] == steps[..i];
        match steps[i] {
          case Pipe =>
            var id := endpoint.AddPipe();
            slots := slots + [Slot(Some(id), Some(id))];
          case Remote(_, Run(cmd, p)) =>
            if !CanTake(slots, p) {
              CrashStays(old(View()), steps, i + 1);
              return Crash, slots, wait;
            }
            var pid;
            slots, pid := StartCommand(slots, cmd, p, wait, steps[i]);
            wait := wait + {pid};
          case Remote(_, Close) =>
            CrashStays(old(View()), steps, i + 1);
            return Exit, slots, wait;
          case Remote(_, OpenOutputFile(path)) =>
            var id := endpoint.OpenOutputFile(path);
            slots := slots + [Slot(None, Some(id))];
          case _ =>
            CrashStays(old(View()), steps, i + 1);
            return Crash, slots, wait;
        }
      }
      assert steps[..|steps|] == steps;
      end := Done;
    }

    method SendQuery(wait: set<Pid>) returns (stdout: PipeId, stderr: PipeId, pid: Pid)
      modifies endpoint, endpoint.ids
      ensures var c := old(View());
              && (stdout, stderr, pid) == (c.nextId, c.nextId + 1, c.nextId + 3)
              && View() == c.WithPipe().WithPipe().WithPipe()
                            .WithCommand(map p | p in wait :: None,
                                         RunCmd(GetDirectory, WritePipes(c.nextId + 2, stdout, stderr)))
    {
      stdout := endpoint.AddPipe();
      stderr := endpoint.AddPipe();
      var stdin := endpoint.AddPipe();
      pid := endpoint.Command(RunCmd(GetDirectory, WritePipes(stdin, stdout, stderr)), map p | p in wait :: None);
    }

    // The request for the working directory that follows every plan.
    // Begins to read both pipes.
    method ReadBoth(stdout: PipeId, stderr: PipeId)
      modifies endpoint
      ensures View() == old(View()).(sent := old(endpoint.sent)
                + [StartRead(stdout), StartRead(stderr), ReadUpTo(stdout, READ_LIMIT), ReadUpTo(stderr, READ_LIMIT)])
    {
      endpoint.PipeBeginRead(stdout);
      endpoint.PipeBeginRead(stderr);
      endpoint.PipeRead(stdout, READ_LIMIT);
      endpoint.PipeRead(stderr, READ_LIMIT);
      assert endpoint.sent == old(endpoint.sent)
        + [StartRead(stdout), StartRead(stderr), ReadUpTo(stdout, READ_LIMIT), ReadUpTo(stderr, READ_LIMIT)];
    }

    method QueryDirectory(wait: set<Pid>) returns (everyone: set<Pid>)
      modifies endpoint, endpoint.ids, handler
      ensures AskDirectory(old(View()), wait) == (View(), everyone)
    {
      var stdout, stderr, pid := SendQuery(wait);
      ReadBoth(stdout, stderr);
      handler.gatheringOutput := handler.gatheringOutput[stdout := []];
      handler.waitingForEof := handler.waitingForEof + {stdout};
      handler.stderrPipes := handler.stderrPipes + {stderr};
      handler.cwdForRemote := handler.cwdForRemote[ROOT := stdout];
      everyone := wait + {pid};
    }

    // Starts reading the collected pipes.
    method ReadSinks(slots0: seq<Slot>, sinks: seq<Option<Sink>>) returns (out: Outcome<seq<Slot>>)
      modifies endpoint, handler
      ensures DoSinks(old(View()), slots0, sinks) == if out.Panicked? then Panicked else Returned((View(), out.value))
    {
      var slots := slots0;
      for k := 0 to |sinks|
        invariant DoSinks(old(View()), slots0, sinks[..k]) == Returned((View(), slots))
      {
        assert sinks[..k + 1][..k] == sinks[..k];
        if sinks[k].Some? {
          if k >= |slots| || slots[k].read.None? {
            SinkCrashStays(old(View()), slots0, sinks, k + 1);
            return Panicked;
          }
          var pipe := slots[k].read.value;
          slots := TakeRead(slots, k);
          ghost var before := endpoint.sent;
          endpoint.PipeBeginRead(pipe);
          endpoint.PipeRead(pipe, READ_LIMIT);
          assert endpoint.sent == before + [StartRead(pipe), ReadUpTo(pipe, READ_LIMIT)];
          match sinks[k].value {
            case DevNull =>
            case Stdout => handler.stdoutPipes := handler.stdoutPipes + {pipe};
            case Stderr => handler.stderrPipes := handler.stderrPipes + {pipe};
            case _ =>
              SinkCrashStays(old(View()), slots0, sinks, k + 1);
              return Panicked;
          }
        }
      }
      assert sinks[..|sinks|] == sinks;
      out := Returned(slots);
    }

    /** One turn of the loop at the prompt. */
    method Turn(aliases: seq<Prefs.Rule>, input: Input) returns (end: End)
      requires Prompting(View()) && (input.Text? ==> Utf8.WellFormed(input.line))
      modifies endpoint, endpoint.ids, handler
      ensures Ended(end, Issue(old(View()), Read(aliases, input)), View())
    {
      hide Perform, Settle, Read;
      var settled := SettleDirectory();
      if settled.Panicked? || |handler.remotes| == 0 {
        return Crash;
      }
      var read := GetCommand(aliases, input);
      match read {
        case Panic => end := Crash;
        case Err(_) => end := Exit;
        case Ok(plan) => end := RunPlan(plan);
      }
    }

    // What a turn does with a plan.
    method RunPlan(plan: Plan) returns (end: End)
      modifies endpoint, endpoint.ids, handler
      ensures Ended(end, Perform(old(View()), plan), View())
    {
      hide DoSteps, DoSinks, AskDirectory;
      var status, slots, wait := RunSteps(plan.steps);
      if status != Done {
        return status;
      }
      var everyone := QueryDirectory(wait);
      var sinks := ReadSinks(slots, plan.sinkMap);
      if sinks.Panicked? || handler.waitingFor != {} {
        return Crash;
      }
      handler.waitingFor := everyone;
      end := Done;
    }
  }

  datatype End = Done | Crash | Exit

  ghost predicate Ended(end: End, p: Progress, c: Client) {
    match end
    case Done => p.Going? && p.client == c
    case Crash => p.Crashed?
    case Exit => p.Exiting?
  }

  ghost predicate EndsAs(end: End, p: Progress, c: Client, slots: seq<Slot>, wait: set<Pid>) {
    match end
    case Done => p == Going(c, slots, wait)
    case Crash => p == Crashed
    case Exit => p == Exiting
  }

  lemma {:induction false} SinkCrashStays(c: Client, slots: seq<Slot>, sinks: seq<Option<Sink>>, k: nat)
    requires k <= |sinks| && DoSinks(c, slots, sinks[..k]).Panicked?
    ensures DoSinks(c, slots, sinks).Panicked?
    decreases |sinks|
  {
    if k < |sinks| {
      assert sinks[..|sinks| - 1][..k] == sinks[..k];
      SinkCrashStays(c, slots, sinks[..|sinks| - 1], k);
    } else {
      assert sinks[..k] == sinks;
    }
  }

  lemma {:induction false} CrashStays(c: Client, steps: seq<Step>, i: nat)
    requires i <= |steps| && !DoSteps(c, steps[..i]).Going?
    ensures DoSteps(c, steps) == DoSteps(c, steps[..i])
    decreases |steps|
  {
    if i < |steps| {
      assert steps[..|steps| - 1][..i] == steps[..i];
      CrashStays(c, steps[..|steps| - 1], i);
    } else {
      assert steps[..i] == steps;
    }
  }
}
