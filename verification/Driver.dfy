// The backend's driver as a transition system: what handling one event does, and
// what starting one runnable process does.  `Exec.ExecInternal` is proved to take
// exactly these steps.

module Driver {
  import opened Protocol
  import opened Scheduling
  import Pipes

  datatype RunCmd = RunCmd(cmd: Command, pipes: WritePipes)

  datatype ProcessState = Spawned | AwaitingEdit

  datatype Response =
    | CommandDone(pid: Pid, exitCode: int)
    | EditRequest(editId: nat, command: Pid, name: string)
    | PipeData(pipe: PipeId, data: Bytes)
    | PipeClosed(closed: PipeId)
    | RemoteReady

  // What the driver does, in order: it starts processes and it answers the frontend.
  datatype Entry = Ran(pid: Pid) | Sent(response: Response)

  datatype Event =
    | Enqueue(pid: Pid, cmd: RunCmd, blockFor: map<Pid, Condition>)
    | Completed(pid: Pid, exitCode: int)
    | OpenOutputFile(pipe: PipeId, path: string)
    | OpenInputFile(pipe: PipeId, path: string)
    | BeginRead(pipe: PipeId)
    | PipeOutput(pipe: PipeId, data: Bytes)
    | PipeEnd(pipe: PipeId)
    | EditComplete(editId: nat)

  datatype Backend = Backend(
    sched: Schedule<RunCmd, ProcessState>,
    pipes: Pipes.Table,
    edits: map<nat, (Pid, string)>,
    nextEdit: nat,
    reading: set<PipeId>,
    written: map<PipeId, Bytes>, // what the backend itself wrote to pipes that it then closed
    children: map<Pid, Stdio>, // the standard streams of the programs that were spawned
    log: seq<Entry>)

  function NewBackend(): Backend {
    Backend(EmptySchedule(), Pipes.EmptyTable(), map[], 0, {}, map[], map[], [])
  }

  function PerformOps(t: Pipes.Table, ops: seq<Pipes.Op>): Outcome<Pipes.Table>
    decreases ops
  {
    if ops == [] then Returned(t)
    else
      match Pipes.Perform(t, ops[0])
      case Panicked => Panicked
      case Returned((_, u)) => PerformOps(u, ops[1..])
  }

  /** What `run` answers: a process left running, a finished built-in, or an error. */
  datatype RunResult = Process(state: ProcessState) | AlreadyDone(exitCode: int) | Error

  /** `ok` is the operating system's answer to the spawn, the directory change or the file read. */
  function ResultOf(cmd: Command, ok: bool): RunResult {
    match cmd
    case Unknown(_, _) => if ok then Process(Spawned) else Error
    case SetDirectory(_) => AlreadyDone(if ok then 0 else 1)
    case GetDirectory => AlreadyDone(if ok then 0 else 1)
    case Edit(_) => if ok then Process(AwaitingEdit) else Error
  }

  /** What the backend writes for a command that it does not leave running, as output and as
      errors.  `text` is what the system says: the name of the directory, or an error. */
  function Says(cmd: Command, ok: bool, text: Bytes): (Bytes, Bytes) {
    match cmd
    case SetDirectory(_) => (if ok then "Success: ()" else "Error: " + text, [])
    case GetDirectory => if ok then (text + "\n", []) else ([], "Error: " + text)
    case _ => ([], text)
  }

  function Wrote(written: map<PipeId, Bytes>, pipes: WritePipes, words: (Bytes, Bytes)): map<PipeId, Bytes> {
    written[pipes.stdout := words.0][pipes.stderr := words.1]
  }

  // The three ends that a program is given when it is spawned.
  datatype Stdio = Stdio(stdin: Pipes.InEnd, stdout: Pipes.OutEnd, stderr: Pipes.OutEnd)

  /** Takes the three ends of a program's standard streams, in this order. */
  function Attach(t: Pipes.Table, pipes: WritePipes): Outcome<(Stdio, Pipes.Table)> {
    match Pipes.TakeRead(t, pipes.stdin)
    case Panicked => Panicked
    case Returned((stdin, u)) =>
      match Pipes.TakeWrite(u, pipes.stdout)
      case Panicked => Panicked
      case Returned((stdout, v)) =>
        match Pipes.TakeWrite(v, pipes.stderr)
        case Panicked => Panicked
        case Returned((stderr, w)) => Returned((Stdio(stdin, stdout, stderr), w))
  }

  function WithChild(children: map<Pid, Stdio>, p: Pid, t: Pipes.Table, pipes: WritePipes): map<Pid, Stdio> {
    match Attach(t, pipes)
    case Panicked => children
    case Returned((stdio, _)) => children[p := stdio]
  }

  function Outputs(pipes: WritePipes): seq<Pipes.Op> {
    [Pipes.WriteEnd(pipes.stdout), Pipes.WriteEnd(pipes.stderr)]
  }

  // All three ends of a command's standard streams.
  function AllEnds(pipes: WritePipes): seq<Pipes.Op> {
    [Pipes.ReadEnd(pipes.stdin)] + Outputs(pipes)
  }

  /** The pipe ends taken by `run`. */
  function RunOps(c: RunCmd): seq<Pipes.Op> {
    match c.cmd
    case Unknown(_, _) => AllEnds(c.pipes)
    case SetDirectory(_) => Outputs(c.pipes)
    case GetDirectory => Outputs(c.pipes)
    case Edit(_) => []
  }

  /** All pipe ends taken by starting `c`: after an error the outputs are closed, which takes them. */
  function OpsOf(c: RunCmd, ok: bool): seq<Pipes.Op> {
    RunOps(c) + if ResultOf(c.cmd, ok).Error? then Outputs(c.pipes) else []
  }

  /** Starting the runnable process `p`. */
  ghost function Dispatch(b: Backend, p: Pid, ok: bool, text: Bytes): Outcome<Backend>
    requires p in b.sched.Runnable()
  {
    var c := b.sched.jobs[p].cmd;
    match PerformOps(b.pipes, OpsOf(c, ok))
    case Panicked => Panicked
    case Returned(pipes) =>
      var closed := b.(pipes := pipes, written := Wrote(b.written, c.pipes, Says(c.cmd, ok, text)));
      match ResultOf(c.cmd, ok)
      case Process(state) =>
        var ran := b.(sched := b.sched.Begin(p, state), pipes := pipes);
        if c.cmd.Edit? then
          Returned(ran.(edits := b.edits[b.nextEdit := (p, c.cmd.file)], nextEdit := b.nextEdit + 1,
                        log := b.log + [Ran(p), Sent(EditRequest(b.nextEdit, p, c.cmd.file))]))
        else Returned(ran.(children := WithChild(b.children, p, b.pipes, c.pipes), log := b.log + [Ran(p)]))
      case AlreadyDone(exitCode) => Over(closed, p, FromExitCode(exitCode), 0) // 0, whatever the exit code
      case Error => Over(closed, p, Failure, 1)
  }

  /** `p` finishes as soon as it is started. */
  ghost function Over(b: Backend, p: Pid, status: ExitStatus, reported: int): Outcome<Backend> {
    if b.sched.Contradicts(p, status) then Panicked
    else Returned(b.(sched := b.sched.Finish(p, status), log := b.log + [Ran(p), Sent(CommandDone(p, reported))]))
  }

  /** A process that was left running exits. */
  ghost function Exit(b: Backend, p: Pid, exitCode: int): Outcome<Backend> {
    if p !in b.sched.Running() || b.sched.Contradicts(p, FromExitCode(exitCode)) then Panicked
    else Returned(b.(sched := b.sched.Finish(p, FromExitCode(exitCode)),
                     log := b.log + [Sent(CommandDone(p, exitCode))]))
  }

  /** Handling one event, up to the point where runnable processes are started.  `ok` is
      the operating system's answer when a file is opened or an edited file is saved. */
  ghost function Receive(b: Backend, e: Event, ok: bool): Outcome<Backend> {
    match e
    case Enqueue(p, cmd, blockFor) =>
      if p in b.sched.jobs then Panicked
      else if Mismatched(b.sched.done, blockFor) then Returned(b.(log := b.log + [Sent(CommandDone(p, 1))]))
      else if !(blockFor.Keys <= b.sched.jobs.Keys) then Panicked
      else Returned(b.(sched := b.sched.Add(p, Job(cmd, blockFor))))
    case Completed(p, exitCode) => Exit(b, p, exitCode)
    case OpenOutputFile(id, path) => if ok then WithPipes(b, Pipes.OpenOutput(id, path)) else Panicked // unwrap
    case OpenInputFile(id, path) => if ok then WithPipes(b, Pipes.OpenInput(id, path)) else Panicked // unwrap
    case BeginRead(id) =>
      (match WithPipes(b, Pipes.ReadEnd(id))
       case Panicked => Panicked
       case Returned(c) => Returned(c.(reading := b.reading + {id})))
    case PipeOutput(id, data) => Returned(b.(log := b.log + [Sent(PipeData(id, data))]))
    case PipeEnd(id) => Returned(b.(log := b.log + [Sent(PipeClosed(id))]))
    case EditComplete(editId) =>
      if editId !in b.edits || !ok then Panicked // unwrap, of either
      else Exit(b.(edits := b.edits - {editId}), b.edits[editId].0, 0)
  }

  function WithPipes(b: Backend, op: Pipes.Op): Outcome<Backend> {
    match Pipes.Perform(b.pipes, op)
    case Panicked => Panicked
    case Returned((_, u)) => Returned(b.(pipes := u))
  }

  datatype Act = Act(pid: Pid, ok: bool, text: Bytes)

  /** `acts` starts processes one after another, beginning in `b`; the last one may panic. */
  ghost function DispatchAll(b: Backend, acts: seq<Act>): Outcome<Backend> {
    if acts == [] then Returned(b)
    else
      match DispatchAll(b, acts[..|acts| - 1])
      case Panicked => Panicked
      case Returned(c) =>
        var a := acts[|acts| - 1];
        if a.pid in c.sched.Runnable() then Dispatch(c, a.pid, a.ok, a.text) else Panicked
  }

  /** Every process in `acts` was runnable when its turn came. */
  ghost predicate Fair(b: Backend, acts: seq<Act>) {
    acts == [] ||
    (var before := DispatchAll(b, acts[..|acts| - 1]);
     Fair(b, acts[..|acts| - 1]) && before.Returned? && acts[|acts| - 1].pid in before.value.sched.Runnable())
  }

  /** `first` did not panic, and starting `acts` afterwards leads to `c`, where nothing is runnable. */
  ghost predicate Follows(first: Outcome<Backend>, acts: seq<Act>, c: Backend) {
    && first.Returned?
    && Fair(first.value, acts)
    && DispatchAll(first.value, acts) == Returned(c)
    && c.sched.Runnable() == {}
  }

  /** `first` panicked, or starting the last of `acts` did. */
  ghost predicate FailsAfter(first: Outcome<Backend>, acts: seq<Act>) {
    first.Panicked? || (Fair(first.value, acts) && DispatchAll(first.value, acts).Panicked?)
  }

  /** Handling `e` in `b` and then starting `acts` leads to `c`. */
  ghost predicate Handled(b: Backend, e: Event, ok: bool, acts: seq<Act>, c: Backend) {
    Follows(Receive(b, e, ok), acts, c)
  }

  ghost predicate Fails(b: Backend, e: Event, ok: bool, acts: seq<Act>) {
    FailsAfter(Receive(b, e, ok), acts)
  }
}
