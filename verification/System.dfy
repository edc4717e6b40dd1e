// The frontend and the backend joined by queues.  Requests arrive in the order in
// which they were sent; so do responses.  What the backend's own threads report
// (`local`) is merged with the requests in any order.

module System {
  import opened Protocol
  import opened Scheduling
  import opened Driver
  import opened ClientSide
  import opened Compilable
  import opened Reading
  import opened Requests
  import DriverRuns
  import Parsing
  import Pipes
  import Prefs
  import Scanner
  import Utf8

  datatype System = System(
    aliases: seq<Prefs.Rule>,
    c: Client,
    taken: nat,                      // how many of the requests the backend has handled
    b: Backend,
    outbox: seq<Response>,           // sent by the backend, not yet received
    local: seq<Event>,               // reported by process and reader threads, not yet handled
    ended: set<PipeId>,              // pipes whose reader thread has seen the end
    past: seq<Pipes.Op>,             // history: the pipe operations performed so far
    answers: map<Pid, (bool, Bytes)>, // history: what the system answered when a process was started
    exits: map<Pid, int>,            // history: the exit codes of programs
    produced: map<PipeId, Bytes>,    // history: the bytes that reader threads have read
    delivered: seq<(PipeId, Bytes)>, // history: the data that the frontend has received
    over: bool)                      // the frontend has left its loop
  {
    function Inbox(): seq<Request>
      requires taken <= |c.sent|
    {
      c.sent[taken..]
    }
  }

  /** Everything that concerns the pipes read by the frontend. */
  datatype Feed = Feed(
    reading: set<PipeId>,
    outbox: seq<Response>,
    local: seq<Event>,
    ended: set<PipeId>,
    produced: map<PipeId, Bytes>,
    delivered: seq<(PipeId, Bytes)>)

  function FeedOf(s: System): Feed {
    Feed(s.b.reading, s.outbox, s.local, s.ended, s.produced, s.delivered)
  }

  function NewSystem(aliases: seq<Prefs.Rule>): System {
    System(aliases, NewClient(), 0, NewBackend(), [RemoteReady], [], {}, [], map[], map[], map[], [], false)
  }

  // `ok` is always the answer of the operating system, or of a program that is asked.
  datatype Move =
    | Prompt(input: Input)                    // the frontend reads a command line
    | Arrive(ok: bool)                        // the frontend receives a response
    | TakeRequest(ok: bool)                   // the backend handles a request
    | TakeLocal                               // the backend handles a report of one of its threads
    | Launch(pid: Pid, ok: bool, text: Bytes) // the backend starts a runnable process; see `Says`
    | ProcessExits(pid: Pid, exitCode: int)
    | ReaderReads(pipe: PipeId, data: Bytes)
    | ReaderEnds(pipe: PipeId)

  /** The write end of the pipe has been handed out: while it is parked in the backend's own
      table, nothing can be written and the pipe cannot end. */
  predicate Flows(t: Pipes.Table, id: PipeId) {
    id in t.handles && t.handles[id].write.None?
  }

  /** Which moves are possible.  The backend finishes starting processes before it takes the next
      event.  What the system says is text; what the backend wrote to a pipe is what is read there. */
  ghost predicate Enabled(s: System, m: Move)
    requires s.taken <= |s.c.sent|
  {
    !s.over &&
    match m
    case Prompt(input) => Prompting(s.c) && (input.Text? ==> Utf8.WellFormed(input.line))
    case Arrive(_) => !Prompting(s.c) && s.outbox != []
    case TakeRequest(_) => s.b.sched.Runnable() == {} && s.Inbox() != []
    case TakeLocal => s.b.sched.Runnable() == {} && s.local != []
    case Launch(p, _, text) => p in s.b.sched.Runnable() && Utf8.WellFormed(text)
    case ProcessExits(p, _) =>
      p in s.b.sched.Running() && s.b.sched.Running()[p] == Spawned &&
      forall e :: e in s.local ==> !(e.Completed? && e.pid == p)
    case ReaderReads(id, data) =>
      && id in s.b.reading && id !in s.ended && Flows(s.b.pipes, id) && data != []
      && (id in s.b.written ==> BytesOf(s.produced, id) + data <= s.b.written[id])
    case ReaderEnds(id) =>
      && id in s.b.reading && id !in s.ended && Flows(s.b.pipes, id)
      && (id in s.b.written ==> BytesOf(s.produced, id) == s.b.written[id])
  }

  function ResponsesOf(log: seq<Entry>): seq<Response> {
    if log == [] then []
    else ResponsesOf(log[..|log| - 1]) + match log[|log| - 1] case Sent(r) => [r] case Ran(_) => []
  }

  /** The responses by which the log of `b` goes beyond that of `a`. */
  function News(a: Backend, b: Backend): seq<Response> {
    if |a.log| <= |b.log| then ResponsesOf(b.log[|a.log|..]) else []
  }

  function DataIn(r: Response): seq<(PipeId, Bytes)> {
    if r.PipeData? then [(r.pipe, r.data)] else []
  }

  /** What a request makes the backend do, if anything: limits on reading are ignored. */
  function EventOf(r: Request): Option<Event> {
    match r
    case BeginCommand(pid, blockFor, cmd) => Some(Event.Enqueue(pid, cmd, blockFor))
    case OpenFile(id, path) => Some(Event.OpenOutputFile(id, path))
    case StartRead(id) => Some(Event.BeginRead(id))
    case FinishEdit(editId) => Some(Event.EditComplete(editId))
    case ReadUpTo(_, _) => None
  }

  // The pipe operation performed when a request is handled.
  function OpsNow(r: Request): seq<Pipes.Op> {
    if r.BeginCommand? then [] else RequestOps(r)
  }

  ghost function Next(s: System, m: Move): Outcome<System>
    requires s.taken <= |s.c.sent| && Enabled(s, m)
  {
    match m
    case Prompt(input) =>
      (match Issue(s.c, Read(s.aliases, input))
       case Going(d, _, _) => Returned(s.(c := d))
       case Exiting => Returned(s.(over := true))
       case Crashed => Panicked)
    case Arrive(ok) =>
      (match Deliver(s.c, s.outbox[0], ok)
       case Panicked => Panicked
       case Returned(d) =>
         Returned(s.(c := d, outbox := s.outbox[1..], delivered := s.delivered + DataIn(s.outbox[0]))))
    case TakeRequest(ok) =>
      var r := s.c.sent[s.taken];
      if EventOf(r).None? then Returned(s.(taken := s.taken + 1))
      else
        (match Receive(s.b, EventOf(r).value, ok)
         case Panicked => Panicked
         case Returned(b) =>
           Returned(s.(taken := s.taken + 1, b := b, outbox := s.outbox + News(s.b, b), past := s.past + OpsNow(r))))
    case TakeLocal =>
      (match Receive(s.b, s.local[0], true)
       case Panicked => Panicked
       case Returned(b) => Returned(s.(b := b, outbox := s.outbox + News(s.b, b), local := s.local[1..])))
    case Launch(p, ok, text) =>
      (match Dispatch(s.b, p, ok, text)
       case Panicked => Panicked
       case Returned(b) =>
         Returned(s.(b := b, outbox := s.outbox + News(s.b, b), past := s.past + OpsOf(s.b.sched.jobs[p].cmd, ok),
                     answers := s.answers[p := (ok, text)])))
    case ProcessExits(p, code) =>
      Returned(s.(local := s.local + [Event.Completed(p, code)], exits := s.exits[p := code]))
    case ReaderReads(id, data) =>
      Returned(s.(local := s.local + [PipeOutput(id, data)],
                  produced := s.produced[id := BytesOf(s.produced, id) + data]))
    case ReaderEnds(id) => Returned(s.(local := s.local + [PipeEnd(id)], ended := s.ended + {id}))
  }

  /** A run from the beginning. */
  ghost function Played(aliases: seq<Prefs.Rule>, moves: seq<Move>): Outcome<System> {
    if moves == [] then Returned(NewSystem(aliases))
    else
      match Played(aliases, moves[..|moves| - 1])
      case Panicked => Panicked
      case Returned(s) =>
        if s.taken <= |s.c.sent| && Enabled(s, moves[|moves| - 1]) then Next(s, moves[|moves| - 1]) else Panicked
  }

  /** Every move of the run was possible when it was made. */
  ghost predicate Legal(aliases: seq<Prefs.Rule>, moves: seq<Move>) {
    moves == [] ||
    (var before := Played(aliases, moves[..|moves| - 1]);
     && Legal(aliases, moves[..|moves| - 1])
     && before.Returned? && before.value.taken <= |before.value.c.sent| && Enabled(before.value, moves[|moves| - 1]))
  }

  // --- What the code does not survive ---

  /** The line has an open quote, a quote inside a word or a word after a file name; or it holds
      a sequence, or a command that cannot be converted, before any other failure. */
  predicate BadLine(aliases: seq<Prefs.Rule>, line: string) {
    if Scanner.Scan(Scanner.Gap, line).Some? then true
    else Parsing.Line(line).Fine? && CheckAll(aliases, Leaves(Parsing.Line(line).value)).Panic?
  }

  /** The first failure of the line is an error that is reported. */
  predicate ErrorLine(aliases: seq<Prefs.Rule>, line: string) {
    && Scanner.Scan(Scanner.Gap, line).None?
    && Parsing.Line(line).Fine? && CheckAll(aliases, Leaves(Parsing.Line(line).value)).Err?
  }

  /** The answers and inputs on which one of the two sides panics: a command that cannot be
      spawned, a file that cannot be opened, an edited file that cannot be saved, an editor that
      fails, and a bad line. */
  ghost predicate Refused(s: System, m: Move) {
    match m
    case Prompt(input) => input.Text? && BadLine(s.aliases, input.line)
    case Arrive(ok) => s.outbox != [] && s.outbox[0].EditRequest? && !ok
    case TakeRequest(ok) =>
      s.taken < |s.c.sent| && (s.c.sent[s.taken].OpenFile? || s.c.sent[s.taken].FinishEdit?) && !ok
    case Launch(p, ok, _) => p in s.b.sched.jobs && s.b.sched.jobs[p].cmd.cmd.Unknown? && !ok
    case _ => false
  }

  // --- What every reachable state satisfies ---

  ghost predicate Unconditional(s: Schedule<RunCmd, ProcessState>) {
    forall p, d :: p in s.jobs && d in s.jobs[p].blockFor ==> s.jobs[p].blockFor[d] == None
  }

  function Announced(outbox: seq<Response>): set<Pid> {
    set r | r in outbox && r.CommandDone? :: r.pid
  }

  ghost predicate OneResultEach(outbox: seq<Response>) {
    forall i, j :: 0 <= i < j < |outbox| && outbox[i].CommandDone? && outbox[j].CommandDone? ==>
      outbox[i].pid != outbox[j].pid
  }

  /** Processes and their results: the frontend waits for exactly those processes whose
      result it has not received, and each result is under way at most once. */
  ghost predicate Commands(c: Client, taken: nat, sched: Schedule<RunCmd, ProcessState>, outbox: seq<Response>) {
    && Sane(c) && taken <= |c.sent|
    && sched.WellFormed() && Unconditional(sched)
    && sched.jobs.Keys == Pids(c.sent[..taken])
    && c.waitingFor == Pids(c.sent) - (sched.done.Keys - Announced(outbox))
    && Announced(outbox) <= sched.done.Keys
    && OneResultEach(outbox)
  }

  ghost predicate Asked(outbox: seq<Response>, e: nat) {
    exists i :: 0 <= i < |outbox| && outbox[i].EditRequest? && outbox[i].editId == e
  }

  /** Processes that are edited: each has one question or one answer under way. */
  ghost predicate Edits(edits: map<nat, (Pid, string)>, nextEdit: nat, running: map<Pid, ProcessState>,
                        outbox: seq<Response>, inbox: seq<Request>)
  {
    && (forall e :: e in edits ==> e < nextEdit && edits[e].0 in running && running[edits[e].0] == AwaitingEdit)
    && (forall e, f :: e in edits && f in edits && e != f ==> edits[e].0 != edits[f].0)
    && (forall p :: p in running && running[p] == AwaitingEdit ==> exists e :: e in edits && edits[e].0 == p)
    && (forall e :: e in edits ==> Asked(outbox, e) || FinishEdit(e) in inbox)
    && (forall i :: 0 <= i < |outbox| && outbox[i].EditRequest? ==>
          && outbox[i].editId in edits && edits[outbox[i].editId].0 == outbox[i].command
          && FinishEdit(outbox[i].editId) !in inbox)
    && (forall i, j :: 0 <= i < j < |outbox| && outbox[i].EditRequest? && outbox[j].EditRequest? ==>
          outbox[i].editId != outbox[j].editId)
    && (forall r :: r in inbox && r.FinishEdit? ==> r.editId in edits)
    && (forall i, j :: 0 <= i < j < |inbox| && inbox[i].FinishEdit? ==> inbox[j] != inbox[i])
  }

  /** Exits that were reported but not handled. */
  ghost predicate Exits(local: seq<Event>, running: map<Pid, ProcessState>) {
    && (forall e :: e in local ==> e.Completed? || e.PipeOutput? || e.PipeEnd?)
    && (forall e :: e in local && e.Completed? ==> e.pid in running && running[e.pid] == Spawned)
    && (forall i, j :: 0 <= i < j < |local| && local[i].Completed? && local[j].Completed? ==>
          local[i].pid != local[j].pid)
  }

  /** The pipe operations of the processes of `ws` that have not been started. */
  ghost function IdleOps(ws: seq<Pid>, sched: Schedule<RunCmd, ProcessState>): seq<Pipes.Op> {
    if ws == [] then []
    else
      var p := ws[|ws| - 1];
      IdleOps(ws[..|ws| - 1], sched)
      + if p in sched.jobs && p !in sched.done && p !in sched.started then AllEnds(sched.jobs[p].cmd.pipes) else []
  }

  /** Pipe ends: what was taken and what can still be asked for do not clash. */
  ghost predicate Linked(t: Pipes.Table, past: seq<Pipes.Op>, idle: seq<Pipes.Op>, inbox: seq<Request>, nextId: nat) {
    && Pipes.ClashFree(past + idle + AllOps(inbox))
    && (forall op :: op in past + idle + AllOps(inbox) ==> op.id < nextId)
    && Pipes.PerformAll(past).Returned? && Pipes.PerformAll(past).value.1 == t
  }

  // What is under way about a pipe: its data, and `None` for its end.
  type Traffic = seq<Option<Bytes>>

  function Told(outbox: seq<Response>, id: PipeId): Traffic {
    if outbox == [] then []
    else
      (match outbox[0]
       case PipeData(pipe, data) => if pipe == id then [Some(data)] else []
       case PipeClosed(pipe) => if pipe == id then [None] else []
       case _ => [])
      + Told(outbox[1..], id)
  }

  function Heard(local: seq<Event>, id: PipeId): Traffic {
    if local == [] then []
    else
      (match local[0]
       case PipeOutput(pipe, data) => if pipe == id then [Some(data)] else []
       case PipeEnd(pipe) => if pipe == id then [None] else []
       case _ => [])
      + Heard(local[1..], id)
  }

  function DataOf(t: Traffic): Bytes {
    if t == [] then [] else (if t[0].Some? then t[0].value else []) + DataOf(t[1..])
  }

  predicate Collects(c: Client, id: PipeId) {
    id in c.gathering || id in c.stdoutPipes || id in c.stderrPipes
  }

  /** One pipe that the frontend reads: nothing is lost or reordered on the way, the end
      comes last and once, and the frontend still has a place for whatever comes. */
  ghost predicate StreamAt(c: Client, inbox: seq<Request>, reading: set<PipeId>, t: Traffic, ended: bool,
                           produced: Bytes, sofar: Bytes, id: PipeId)
  {
    var asked := id in reading || StartRead(id) in inbox;
    && sofar + DataOf(t) == produced
    && (id !in reading ==> t == [] && !ended && produced == [])
    && (id in reading ==> StartRead(id) in c.sent)
    && (forall k :: 0 <= k < |t| && t[k].None? ==> k == |t| - 1 && ended)
    && (ended && t != [] ==> t[|t| - 1] == None)
    && (asked ==> Collects(c, id) || (ended && t == []))
    && (id in c.gathering ==> asked && c.gathering[id] == sofar && !(ended && t == []))
    && (id in c.finished ==> c.finished[id] == sofar && ended && t == [])
  }

  ghost predicate StreamOf(c: Client, inbox: seq<Request>, f: Feed, id: PipeId) {
    StreamAt(c, inbox, f.reading, Under(f.outbox, f.local, id), id in f.ended, BytesOf(f.produced, id),
             Only(f.delivered, {id}), id)
  }

  ghost predicate Streams(c: Client, inbox: seq<Request>, f: Feed) {
    forall id: nat :: StreamOf(c, inbox, f, id)
  }

  /** What is under way about `id`. */
  function Under(outbox: seq<Response>, local: seq<Event>, id: PipeId): Traffic {
    Told(outbox, id) + Heard(local, id)
  }

  function BytesOf(produced: map<PipeId, Bytes>, id: PipeId): Bytes {
    if id in produced then produced[id] else []
  }

  /** The bytes that came from one of `pipes`, in order. */
  function Only(delivered: seq<(PipeId, Bytes)>, pipes: set<PipeId>): Bytes {
    if delivered == [] then []
    else
      var (id, data) := delivered[|delivered| - 1];
      Only(delivered[..|delivered| - 1], pipes) + if id in pipes then data else []
  }

  /** What the frontend showed is what its output pipes delivered. */
  ghost predicate Output(c: Client, delivered: seq<(PipeId, Bytes)>) {
    && c.printed == Only(delivered, c.stdoutPipes) && c.complained == Only(delivered, c.stderrPipes)
    && c.stdoutPipes !! c.stderrPipes !! c.gathering.Keys
    && (forall id :: id in c.stdoutPipes || id in c.stderrPipes || id in c.gathering ==> id < c.nextId)
    && (forall k :: 0 <= k < |delivered| ==> delivered[k].0 < c.nextId)
  }

  /** The stream of the working directory is being gathered or is complete. */
  ghost predicate Directory(c: Client) {
    && c.waitingForEof == c.gathering.Keys
    && c.cwdFor.Keys <= {ROOT}
    && (ROOT in c.cwdFor ==> c.cwdFor[ROOT] in c.gathering || c.cwdFor[ROOT] in c.finished)
  }

  /** The backend's first message, and no other, says that it is ready. */
  ghost predicate Greeting(c: Client, outbox: seq<Response>) {
    if c.waitingForRemote.Some? then
      c.waitingForRemote == Some(ROOT) && outbox != [] && outbox[0] == RemoteReady && RemoteReady !in outbox[1..]
    else
      c.remotes != [] && RemoteReady !in outbox
  }

  /** The backend knows every command that it was sent, as it was sent. */
  ghost predicate Placed(taken: seq<Request>, sched: Schedule<RunCmd, ProcessState>) {
    forall r :: r in taken && r.BeginCommand? ==> r.pid in sched.jobs && sched.jobs[r.pid] == Job(r.cmd, r.blockFor)
  }

  /** A process with the command `c` was started: it was left running or not, as the system answered; it
      has taken its ends; and if it was not left running the backend wrote what the command says. */
  ghost predicate Answered(c: RunCmd, left: bool, answer: (bool, Bytes), past: seq<Pipes.Op>,
                           written: map<PipeId, Bytes>)
  {
    && Utf8.WellFormed(answer.1)
    && (left <==> ResultOf(c.cmd, answer.0).Process?) && (c.cmd.Unknown? ==> answer.0)
    && (forall op :: op in OpsOf(c, answer.0) ==> op in past)
    && (!left ==>
          && c.pipes.stdout in written && written[c.pipes.stdout] == Says(c.cmd, answer.0, answer.1).0
          && c.pipes.stderr in written && written[c.pipes.stderr] == Says(c.cmd, answer.0, answer.1).1)
  }

  /** Performing `past` from the beginning, `op` was handed `e`. */
  ghost predicate Given(past: seq<Pipes.Op>, op: Pipes.Op, e: Pipes.End) {
    && Pipes.PerformAll(past).Returned? && |Pipes.PerformAll(past).value.0| == |past|
    && exists i :: 0 <= i < |past| && past[i] == op && Pipes.PerformAll(past).value.0[i] == e
  }

  /** A program that was spawned has, as its standard streams, the ends that were handed out for its pipes. */
  ghost predicate Equipped(children: map<Pid, Stdio>, sched: Schedule<RunCmd, ProcessState>, past: seq<Pipes.Op>) {
    forall p :: p in sched.jobs && p in sched.started && sched.jobs[p].cmd.cmd.Unknown? ==>
      && p in children
      && Given(past, Pipes.ReadEnd(sched.jobs[p].cmd.pipes.stdin), Pipes.In(children[p].stdin))
      && Given(past, Pipes.WriteEnd(sched.jobs[p].cmd.pipes.stdout), Pipes.Out(children[p].stdout))
      && Given(past, Pipes.WriteEnd(sched.jobs[p].cmd.pipes.stderr), Pipes.Out(children[p].stderr))
  }

  /** `id` is an output of the started command `p`, which is not one that is left to be edited. */
  ghost predicate Writer(sched: Schedule<RunCmd, ProcessState>, p: Pid, id: PipeId) {
    && p in sched.jobs && (p in sched.started || p in sched.done)
    && !(sched.jobs[p].cmd.cmd.Edit? && p in sched.started)
    && (sched.jobs[p].cmd.pipes.stdout == id || sched.jobs[p].cmd.pipes.stderr == id)
  }

  /** A process that was started has taken its ends, a pipe that was opened or read is in use, and
      write ends were taken by nobody but started commands. */
  ghost predicate Began(taken: seq<Request>, sched: Schedule<RunCmd, ProcessState>, past: seq<Pipes.Op>,
                        answers: map<Pid, (bool, Bytes)>, written: map<PipeId, Bytes>)
  {
    && (forall p :: p in sched.jobs && (p in sched.started || p in sched.done) ==>
          p in answers && Answered(sched.jobs[p].cmd, p in sched.started, answers[p], past, written))
    && (forall p :: p in sched.started && p in sched.jobs && p in answers ==>
          ResultOf(sched.jobs[p].cmd.cmd, answers[p].0) == Process(sched.started[p]))
    && (forall r, op :: r in taken && !r.BeginCommand? && op in RequestOps(r) ==> op in past)
    && (forall op :: op in past ==> !op.OpenInput? && (op.WriteEnd? ==> exists p :: Writer(sched, p, op.id)))
  }

  /** What is read of a pipe was written after its write end was taken; of what the backend wrote
      it is the beginning, and at the end of the pipe all. */
  ghost predicate Genuine(past: seq<Pipes.Op>, written: map<PipeId, Bytes>, produced: map<PipeId, Bytes>,
                          ended: set<PipeId>)
  {
    && (forall id :: id in written || id in produced || id in ended ==> Pipes.WriteEnd(id) in past)
    && (forall id :: id in written ==> BytesOf(produced, id) <= written[id])
    && (forall id :: id in written && id in ended ==> BytesOf(produced, id) == written[id])
  }

  /** Every question about an edit concerns a command that is one, and names its file; the edits that
      have not ended are those that were asked about, under the number that was sent. */
  ghost predicate Asks(b: Backend) {
    && (forall e: nat, p, name :: Sent(EditRequest(e, p, name)) in b.log ==>
          && e < b.nextEdit && p in b.sched.jobs && b.sched.jobs[p].cmd.cmd == Edit(name)
          && (e in b.edits ==> b.edits[e] == (p, name)))
    && (forall e :: e in b.edits ==> Sent(EditRequest(e, b.edits[e].0, b.edits[e].1)) in b.log)
  }

  /** The driver's log is in order, only results of known processes were sent, and only edits asked about. */
  ghost predicate Logged(b: Backend) {
    DriverRuns.LogFollows(b) && (forall p :: DriverRuns.Reported(b.log, p) ==> p in b.sched.jobs) && Asks(b)
  }

  /** The result `code` that was sent for `p`, and the status that its waiters see, are right: for a program its
      exit code, for an edit whether it was begun, for a built-in always 0 and whether it succeeded. */
  ghost predicate Tells(c: Command, left: bool, ok: bool, exits: map<Pid, int>, p: Pid, status: ExitStatus, code: int) {
    match c
    case Unknown(_, _) => p in exits && code == exits[p] && (status == Success <==> code == 0)
    case Edit(_) => if left then code == 0 && status == Success else code == 1 && status == Failure
    case _ => code == 0 && (status == Success <==> ok)
  }

  /** Every result that was sent is right, and every exit that was reported is one. */
  ghost predicate Results(sched: Schedule<RunCmd, ProcessState>, log: seq<Entry>, local: seq<Event>,
                          answers: map<Pid, (bool, Bytes)>, exits: map<Pid, int>)
  {
    && (forall p, code :: Event.Completed(p, code) in local ==> p in exits && exits[p] == code)
    && (forall p, code :: Sent(CommandDone(p, code)) in log ==>
          && p in sched.jobs && p in sched.done && p in answers
          && Tells(sched.jobs[p].cmd.cmd, p in sched.started, answers[p].0, exits, p, sched.done[p], code))
  }

  /** What is or was gathered is the output of a question for the working directory. */
  ghost predicate Gathers(c: Client) {
    forall id :: id in c.gathering || (ROOT in c.cwdFor && c.cwdFor[ROOT] == id) ==>
      exists r :: r in c.sent && r.BeginCommand? && r.cmd.cmd == GetDirectory && r.cmd.pipes.stdout == id
  }

  ghost predicate Invariant(s: System) {
    && Commands(s.c, s.taken, s.b.sched, s.outbox)
    && Edits(s.b.edits, s.b.nextEdit, s.b.sched.Running(), s.outbox, s.Inbox())
    && Exits(s.local, s.b.sched.Running())
    && Linked(s.b.pipes, s.past, IdleOps(s.b.sched.order, s.b.sched), s.Inbox(), s.c.nextId)
    && Streams(s.c, s.Inbox(), FeedOf(s))
    && Output(s.c, s.delivered)
    && Directory(s.c)
    && Greeting(s.c, s.outbox)
    && Placed(s.c.sent[..s.taken], s.b.sched)
    && Began(s.c.sent[..s.taken], s.b.sched, s.past, s.answers, s.b.written)
    && Genuine(s.past, s.b.written, s.produced, s.ended)
    && Equipped(s.b.children, s.b.sched, s.past)
    && Logged(s.b)
    && Results(s.b.sched, s.b.log, s.local, s.answers, s.exits)
    && Gathers(s.c)
  }
}
