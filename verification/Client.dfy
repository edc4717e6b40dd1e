// The frontend's side of the protocol as a transition system: issuing the requests of
// a plan, and receiving responses.  `Frontend` is proved to take exactly these steps.

module ClientSide {
  import opened Protocol
  import opened Driver
  import opened Plans
  import opened Compiler
  import Utf8

  datatype Request =
    | BeginCommand(pid: Pid, blockFor: map<Pid, Condition>, cmd: RunCmd)
    | OpenFile(pipe: PipeId, path: string)
    | StartRead(pipe: PipeId)
    | ReadUpTo(pipe: PipeId, limit: nat)
    | FinishEdit(editId: nat)

  // The remote that the frontend talks to.
  const ROOT: nat := 0
  const READ_LIMIT: nat := 1024 * 1024
  const NEWLINE: char := '\n'

  datatype Client = Client(
    nextId: nat,
    pipes: set<PipeId>,
    jobs: set<Pid>,
    sent: seq<Request>,
    remotes: seq<nat>,
    waitingForRemote: Option<nat>,
    waitingFor: set<Pid>,
    waitingForEof: set<PipeId>,
    gathering: map<PipeId, Bytes>,
    finished: map<PipeId, Bytes>,
    cwdFor: map<nat, PipeId>,
    stdoutPipes: set<PipeId>,
    stderrPipes: set<PipeId>,
    workingDir: Bytes,
    printed: Bytes,
    complained: Bytes)
  {
    function WithPipe(): Client {
      this.(nextId := nextId + 1, pipes := pipes + {nextId})
    }

    function Send(r: Request): Client {
      this.(sent := sent + [r])
    }

    function WithCommand(blockFor: map<Pid, Condition>, cmd: RunCmd): Client {
      this.(nextId := nextId + 1, jobs := jobs + {nextId}, sent := sent + [BeginCommand(nextId, blockFor, cmd)])
    }

    function WithFile(path: string): Client {
      this.(nextId := nextId + 1, pipes := pipes + {nextId}, sent := sent + [OpenFile(nextId, path)])
    }

    function WithRead(pipe: PipeId): Client {
      this.(sent := sent + [StartRead(pipe), ReadUpTo(pipe, READ_LIMIT)])
    }
  }

  function NewClient(): Client {
    Client(0, {}, {}, [], [], Some(ROOT), {}, {}, map[], map[], map[], {}, {}, [], [], [])
  }

  // The two ends of a plan's pipe that are still in the interpreter's hands.
  datatype Slot = Slot(read: Option<PipeId>, write: Option<PipeId>)

  datatype Progress = Going(client: Client, slots: seq<Slot>, wait: set<Pid>) | Crashed | Exiting

  predicate CanTake(slots: seq<Slot>, p: PlanProcess) {
    && p.stdout < |slots| && slots[p.stdout].write.Some?
    && p.stderr < |slots| && slots[p.stderr].write.Some? && p.stderr != p.stdout
    && p.stdin < |slots| && slots[p.stdin].read.Some?
  }

  function TakeRead(slots: seq<Slot>, k: nat): seq<Slot>
    requires k < |slots|
  {
    slots[k := slots[k].(read := None)]
  }

  function TakeWrite(slots: seq<Slot>, k: nat): seq<Slot>
    requires k < |slots|
  {
    slots[k := slots[k].(write := None)]
  }

  /** One step of a plan; taking an end that is gone is a crash. */
  function DoStep(c: Client, slots: seq<Slot>, wait: set<Pid>, step: Step): Progress {
    match step
    case Pipe => Going(c.WithPipe(), slots + [Slot(Some(c.nextId), Some(c.nextId))], wait)
    case Remote(_, Run(cmd, p)) =>
      if !CanTake(slots, p) then Crashed
      else
        var pipes := WritePipes(slots[p.stdin].read.value, slots[p.stdout].write.value, slots[p.stderr].write.value);
        Going(c.WithCommand(map[], RunCmd(cmd, pipes)),
              TakeRead(TakeWrite(TakeWrite(slots, p.stdout), p.stderr), p.stdin),
              wait + {c.nextId})
    case Remote(_, Close) => Exiting // the root remote is the only one
    case Remote(_, OpenOutputFile(path)) =>
      Going(c.WithFile(path), slots + [Slot(None, Some(c.nextId))], wait)
    case _ => Crashed
  }

  function DoSteps(c: Client, steps: seq<Step>): Progress {
    if steps == [] then Going(c, [], {})
    else
      match DoSteps(c, steps[..|steps| - 1])
      case Going(d, slots, wait) => DoStep(d, slots, wait, steps[|steps| - 1])
      case Crashed => Crashed
      case Exiting => Exiting
  }

  /** Asks for the working directory, once everything in `wait` is done. */
  function AskDirectory(c: Client, wait: set<Pid>): (Client, set<Pid>) {
    var (out, err, input, pid) := (c.nextId, c.nextId + 1, c.nextId + 2, c.nextId + 3);
    var asked := c.WithPipe().WithPipe().WithPipe()
                 .WithCommand(map p | p in wait :: None, RunCmd(GetDirectory, WritePipes(input, out, err)));
    (asked.(sent := asked.sent + [StartRead(out), StartRead(err), ReadUpTo(out, READ_LIMIT), ReadUpTo(err, READ_LIMIT)],
            gathering := asked.gathering[out := []],
            waitingForEof := asked.waitingForEof + {out},
            stderrPipes := asked.stderrPipes + {err},
            cwdFor := asked.cwdFor[ROOT := out]),
     wait + {pid})
  }

  /** Starts reading the pipes that a plan collects. */
  function DoSinks(c: Client, slots: seq<Slot>, sinks: seq<Option<Sink>>): Outcome<(Client, seq<Slot>)> {
    if sinks == [] then Returned((c, slots))
    else
      var k := |sinks| - 1;
      match DoSinks(c, slots, sinks[..k])
      case Panicked => Panicked
      case Returned((d, left)) =>
        match sinks[k]
        case None => Returned((d, left))
        case Some(sink) =>
          if k < |left| && left[k].read.Some? then
            var pipe := left[k].read.value;
            var e := d.WithRead(pipe);
            match sink
            case DevNull => Returned((e, TakeRead(left, k)))
            case Stdout => Returned((e.(stdoutPipes := e.stdoutPipes + {pipe}), TakeRead(left, k)))
            case Stderr => Returned((e.(stderrPipes := e.stderrPipes + {pipe}), TakeRead(left, k)))
            case _ => Panicked
          else Panicked
  }

  /** Takes in the working directory that was gathered since the last prompt. */
  function Settle(c: Client): Outcome<Client> {
    if ROOT !in c.cwdFor then Returned(c)
    else if c.cwdFor[ROOT] !in c.finished then Panicked // unwrap
    else
      var text := c.finished[c.cwdFor[ROOT]];
      var settled := c.(cwdFor := c.cwdFor - {ROOT}, finished := c.finished - {c.cwdFor[ROOT]});
      if text == [] || text[|text| - 1] != NEWLINE then Returned(settled)
      else if !Utf8.WellFormed(text[..|text| - 1]) then Panicked // unwrap
      else Returned(settled.(workingDir := text[..|text| - 1]))
  }

  /** One turn of the loop at the prompt, where `read` came of what was read there.  An error
      ends the loop, as does a plan that closes the only remote. */
  function Issue(c: Client, read: Try<Plan>): Progress {
    match Settle(c)
    case Panicked => Crashed
    case Returned(settled) =>
      if settled.remotes == [] then Crashed // unwrap
      else
        match read
        case Panic => Crashed
        case Err(_) => Exiting
        case Ok(plan) => Perform(settled, plan)
  }

  /** Everything a turn does with a plan. */
  function Perform(c: Client, plan: Plan): Progress {
    match DoSteps(c, plan.steps)
    case Crashed => Crashed
    case Exiting => Exiting
    case Going(d, slots, wait) =>
      var (asked, everyone) := AskDirectory(d, wait);
      match DoSinks(asked, slots, plan.sinkMap)
      case Panicked => Crashed
      case Returned((e, left)) =>
        if e.waitingFor != {} then Crashed // assert!
        else Going(e.(waitingFor := everyone), left, everyone)
  }

  predicate Prompting(c: Client) {
    c.waitingForRemote.None? && c.waitingFor == {} && c.waitingForEof == {}
  }

  /** One response arrives.  `ok` is the answer of the editor program, if it is asked. */
  function Deliver(c: Client, r: Response, ok: bool): Outcome<Client> {
    match r
    case RemoteReady =>
      if c.waitingForRemote != Some(ROOT) then Panicked
      else Returned(c.(waitingForRemote := None, remotes := c.remotes + [ROOT]))
    case CommandDone(pid, _) =>
      if pid !in c.waitingFor then Panicked // assert!
      else Returned(c.(waitingFor := c.waitingFor - {pid}))
    case EditRequest(editId, command, _) =>
      if !ok || command !in c.jobs then Panicked // assert!, expect
      else Returned(c.Send(FinishEdit(editId)))
    case PipeData(id, data) =>
      if id !in c.pipes then Panicked // assert!
      else if id in c.gathering then Returned(c.(gathering := c.gathering[id := c.gathering[id] + data]))
      else if id in c.stdoutPipes then Returned(c.(printed := c.printed + data))
      else if id in c.stderrPipes then Returned(c.(complained := c.complained + data))
      else Panicked
    case PipeClosed(id) =>
      if id !in c.pipes then Panicked // assert!
      else
        var d := c.(waitingForEof := c.waitingForEof - {id});
        if id !in c.gathering then Returned(d)
        else Returned(d.(gathering := d.gathering - {id}, finished := d.finished[id := c.gathering[id]]))
  }
}
