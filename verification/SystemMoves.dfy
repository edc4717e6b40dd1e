// When a move of the system panics, and that every other move keeps the invariant.

module SystemMoves {
  import opened Protocol
  import opened Scheduling
  import opened Driver
  import opened DriverLemmas
  import opened ClientSide
  import opened Compilable
  import opened Compiler
  import opened Plans
  import opened Reading
  import opened Requests
  import opened System
  import opened SystemCommands
  import opened SystemHistory
  import opened SystemPipes
  import opened SystemPrompts
  import opened SystemStreams
  import DriverRuns
  import Interpretation
  import Parsing
  import Pipes
  import Prefs
  import Scanner
  import Syntax
  import Utf8

  // --- What the backend answers ---

  lemma NewsOf(a: Backend, b: Backend, more: seq<Entry>)
    requires b.log == a.log + more
    ensures News(a, b) == ResponsesOf(more)
  {
    assert b.log[|a.log|..] == more;
  }

  lemma Responses(p: Pid, r: Response)
    ensures ResponsesOf([]) == [] && ResponsesOf([Sent(r)]) == [r]
    ensures ResponsesOf([Ran(p)]) == [] && ResponsesOf([Ran(p), Sent(r)]) == [r]
  {
    assert [Ran(p), Sent(r)][..1] == [Ran(p)] && [Ran(p)][..0] == [] && [Sent(r)][..0] == [];
  }

  lemma Nothing<T>(a: seq<T>)
    ensures a + [] == a
  {
  }

  lemma NoneAdded(a: set<PipeId>)
    ensures a + {} == a
  {
  }

  // --- The frontend's moves ---

  /** What is read at a prompt is a panic exactly for a bad line, and a plan is one that the
      interpreter can carry out, or leaves the shell. */
  lemma ReadsWell(aliases: seq<Prefs.Rule>, input: Input)
    ensures Read(aliases, input).Panic? <==> input.Text? && BadLine(aliases, input.line)
    ensures Read(aliases, input).Err? <==> input.Text? && ErrorLine(aliases, input.line)
    ensures Read(aliases, input).Ok? && !input.EndOfInput? ==> GoodPlan(Read(aliases, input).value)
  {
    hide Scanner.Scan, Parsing.Line, Compiled, CheckAll, Leaves, GoodPlan;
    match input {
      case Text(line) =>
        Scanner.AcceptsExactly(line);
        match Parsing.Line(line) {
          case Broken(_) =>
          case Fine(ast, _) => CompiledReads(aliases, ast);
        }
      case Interrupt =>
        EmptyLine(aliases, 0);
        CompiledReads(aliases, Syntax.Empty);
      case EndOfInput =>
    }
  }

  lemma CompiledReads(aliases: seq<Prefs.Rule>, ast: Syntax.Ast)
    ensures Compiled(aliases, 0, ast).Panic? <==> CheckAll(aliases, Leaves(ast)).Panic?
    ensures Compiled(aliases, 0, ast).Err? <==> CheckAll(aliases, Leaves(ast)).Err?
    ensures Compiled(aliases, 0, ast).Ok? ==> GoodPlan(Compiled(aliases, 0, ast).value)
  {
    hide CheckAll, Leaves;
    CompilesExactly(aliases, 0, ast);
    if Compiled(aliases, 0, ast).Ok? { Interpretation.CompiledLinear(aliases, 0, ast); }
  }

  lemma ExitsLoop(c: Client)
    ensures Perform(c, EXIT_PLAN).Exiting?
  {
    assert EXIT_PLAN.steps[..0] == [];
    assert DoSteps(c, EXIT_PLAN.steps[..0]) == Going(c, [], {});
  }

  /** A prompt panics exactly when the line is bad, and the frontend leaves its loop exactly at the end
      of the input or on an error. */
  lemma PromptSafe(s: System, input: Input)
    requires Invariant(s) && s.taken <= |s.c.sent| && Enabled(s, Prompt(input))
    ensures Next(s, Prompt(input)).Panicked? <==> Refused(s, Prompt(input))
    ensures Next(s, Prompt(input)).Returned? ==>
              && Invariant(Next(s, Prompt(input)).value)
              && (Next(s, Prompt(input)).value.over
                  <==> input.EndOfInput? || (input.Text? && ErrorLine(s.aliases, input.line)))
  {
    hide Sane, AllOps, Pids, Placed, Began, Genuine, Equipped, Logged, Results, Gathers, Commands, Edits, Exits,
         Linked, Streams, IdleOps, Settle, GoodPlan, Issued, Schedule.Running, Read, Perform, BadLine, ErrorLine,
         Output;
    var _ := DirectorySettles(s);
    CommandsSane(s.c, s.taken, s.b.sched, s.outbox);
    ReadsWell(s.aliases, input);
    var read := Read(s.aliases, input);
    if read.Ok? {
      var settled := Settle(s.c).value;
      if input.EndOfInput? {
        ExitsLoop(settled);
        EndReads(s.aliases);
      } else {
        SaneFields(s.c, settled);
        IssueKeeps(settled, read.value);
        PromptInvariant(s, settled, Perform(settled, read.value).client, read.value.steps);
      }
    }
    OverInvariant(s);
  }

  lemma EndReads(aliases: seq<Prefs.Rule>)
    ensures Read(aliases, EndOfInput) == Ok(EXIT_PLAN)
  {
  }

  lemma OverInvariant(s: System)
    requires Invariant(s)
    ensures Invariant(s.(over := true))
  {
    hide Sane, AllOps, Pids, Placed, Began, Genuine, Equipped, Logged, Results, Gathers, Commands, Edits, Exits,
         Linked, Streams, IdleOps, Schedule.Running, Output, Directory, Greeting;
  }

  lemma IssuedSent(c: Client, d: Client, steps: seq<Step>) returns (cwd: PipeId)
    requires Issued(c, d, steps)
    ensures c.sent <= d.sent && d.sent == c.sent + d.sent[|c.sent|..] && c.nextId <= d.nextId
    ensures Sane(d) && d.remotes == c.remotes && d.waitingForRemote == c.waitingForRemote
    ensures c.stdoutPipes <= d.stdoutPipes && c.stderrPipes <= d.stderrPipes
    ensures forall r :: r in d.sent[|c.sent|..] ==> !r.FinishEdit?
    ensures forall op :: op in AllOps(d.sent[|c.sent|..]) ==> c.nextId <= op.id
    ensures forall r :: r in d.sent[|c.sent|..] && r.StartRead? ==> Collects(d, r.pipe)
    ensures c.nextId <= cwd && StartRead(cwd) in d.sent[|c.sent|..] && d.finished == c.finished
    ensures d.gathering == c.gathering[cwd := []] && d.waitingForEof == c.waitingForEof + {cwd}
    ensures d.cwdFor == c.cwdFor[ROOT := cwd]
  {
    hide AllOps, Pids, Sane, Interpretation.Wires, Queries, Collects, Reads;
    var b :| Submits(c, d, steps, b);
    cwd := b.query.cmd.pipes.stdout;
    SubmittedReads(c, d, steps, b);
  }

  lemma SubmittedReads(c: Client, d: Client, steps: seq<Step>, b: Submission)
    requires Submits(c, d, steps, b)
    ensures d.sent == c.sent + d.sent[|c.sent|..]
    ensures forall r :: r in d.sent[|c.sent|..] && r.StartRead? ==> Collects(d, r.pipe)
    ensures StartRead(b.query.cmd.pipes.stdout) in d.sent[|c.sent|..]
  {
    hide Pids, Interpretation.Wires, Queries;
    var q := b.query.cmd.pipes;
    var after := Reads(q.stdout, q.stderr, b.ids[0], b.ids[1]);
    assert d.sent[|c.sent|..] == b.line + [b.query] + after;
    assert after[0] == StartRead(q.stdout);
    assert StartRead(q.stdout) in b.line + [b.query] + after;
    LineStarts(steps, b.ids, b.line);
  }

  // The requests of a plan's steps read nothing.
  lemma {:induction false} LineStarts(steps: seq<Step>, ids: seq<PipeId>, line: seq<Request>)
    requires Interpretation.Wires(steps, ids, line)
    ensures forall r :: r in line ==> r.BeginCommand? || r.OpenFile?
    decreases |steps|
  {
    if steps != [] {
      var rest, last := steps[..|steps| - 1], steps[|steps| - 1];
      match last {
        case Pipe => LineStarts(rest, ids[..|ids| - 1], line);
        case Remote(_, OpenOutputFile(_)) => LineStarts(rest, ids[..|ids| - 1], line[..|line| - 1]);
        case Remote(_, Run(_, _)) => LineStarts(rest, ids, line[..|line| - 1]);
      }
    }
  }

  lemma PromptInvariant(s: System, settled: Client, d: Client, steps: seq<Step>)
    requires Invariant(s) && Prompting(s.c) && s.c.gathering == map[] && s.taken <= |s.c.sent|
    requires Settled(s.c, settled)
    requires Issued(settled, d, steps)
    ensures Invariant(s.(c := d))
  {
    hide Sane, AllOps, Pids, Placed, Began, Genuine, Equipped, Logged, Results, Gathers, Commands, Edits, Exits,
         Linked, Streams, IdleOps, Issued, Schedule.Running, Collects, Pipes.ClashFree, Output;
    var c := s.c;
    var cwd := IssuedSent(settled, d, steps);
    var more := d.sent[|c.sent|..];
    assert d.sent[s.taken..] == s.Inbox() + more;
    PromptKeeps(c, settled, d, steps, s.taken, s.b.sched, s.outbox);
    EditsMore(s.b.edits, s.b.nextEdit, s.b.sched.Running(), s.outbox, s.Inbox(), more);
    SentOps(d, |c.sent|);
    LinkedPrompt(s.b.pipes, s.past, IdleOps(s.b.sched.order, s.b.sched), s.Inbox(), more, c.nextId, d.nextId);
    if StartRead(cwd) in c.sent {
      CommandsSane(c, s.taken, s.b.sched, s.outbox);
      ReadsAreOld(c, cwd);
    }
    assert d.gathering == map[cwd := []];
    StreamsPrompt(c, d, s.Inbox(), more, FeedOf(s), cwd);
    OutputPrompt(c, settled, d, steps, s.delivered);
    assert d.sent[..s.taken] == c.sent[..s.taken];
    GathersPrompt(settled, d, steps);
  }

  /** A response that arrives panics exactly when it is a question and the editor fails. */
  lemma ArriveSafe(s: System, ok: bool)
    requires Invariant(s) && s.taken <= |s.c.sent| && Enabled(s, Arrive(ok))
    ensures Next(s, Arrive(ok)).Panicked? <==> Refused(s, Arrive(ok))
    ensures Next(s, Arrive(ok)).Returned? ==> Invariant(Next(s, Arrive(ok)).value)
  {
    hide Invariant;
    match s.outbox[0] {
      case RemoteReady => ReadyArrives(s, ok);
      case CommandDone(_, _) => ResultArrives(s, ok);
      case EditRequest(_, _, _) => if ok { QuestionArrives(s); }
      case PipeData(_, _) => DataArrives(s, ok);
      case PipeClosed(_) => EndArrives(s, ok);
    }
  }

  // The frontend received the first response and became `d`.
  ghost predicate Received(s: System, d: Client, ok: bool) {
    s.outbox != [] && Deliver(s.c, s.outbox[0], ok) == Returned(d) && s.taken <= |d.sent|
    && Invariant(s.(c := d, outbox := s.outbox[1..], delivered := s.delivered + DataIn(s.outbox[0])))
  }

  lemma ReadyArrives(s: System, ok: bool)
    requires Invariant(s) && s.outbox != [] && s.outbox[0].RemoteReady?
    ensures Deliver(s.c, s.outbox[0], ok).Returned? && Received(s, Deliver(s.c, s.outbox[0], ok).value, ok)
  {
    hide Sane, AllOps, Pids, Placed, Began, Genuine, Equipped, Logged, Results, Gathers, Commands, Edits, Exits,
         Linked, Streams, IdleOps, Schedule.Running, Output;
    CommandsSane(s.c, s.taken, s.b.sched, s.outbox);
    assert RemoteReady in s.outbox;
    var d := Deliver(s.c, s.outbox[0], ok).value;
    SaneFields(s.c, d);
    GathersMore(s.c, d);
    assert d.sent[..s.taken] == s.c.sent[..s.taken];
    ArriveKeeps(s.c, d, s.taken, s.b.sched, s.outbox);
    OutputSame(s.c, d, s.delivered);
    Nothing(s.delivered);
    EditsArrive(s.b.edits, s.b.nextEdit, s.b.sched.Running(), s.outbox, s.Inbox());
    StreamsArrive(s.c, d, s.Inbox(), [], FeedOf(s));
    Nothing(s.Inbox());
  }

  lemma GreetingArrives(c: Client, d: Client, outbox: seq<Response>)
    requires Greeting(c, outbox) && outbox != [] && !outbox[0].RemoteReady?
    requires d.waitingForRemote == c.waitingForRemote && d.remotes == c.remotes
    ensures Greeting(d, outbox[1..])
  {
  }

  lemma ResultArrives(s: System, ok: bool)
    requires Invariant(s) && s.outbox != [] && s.outbox[0].CommandDone?
    ensures Deliver(s.c, s.outbox[0], ok).Returned? && Received(s, Deliver(s.c, s.outbox[0], ok).value, ok)
  {
    hide Sane, AllOps, Pids, Placed, Began, Genuine, Equipped, Logged, Results, Gathers, Commands, Edits, Exits,
         Linked, Streams, IdleOps, Schedule.Running, Greeting, Output;
    CommandsSane(s.c, s.taken, s.b.sched, s.outbox);
    ResultAwaited(s.c, s.taken, s.b.sched, s.outbox);
    var d := Deliver(s.c, s.outbox[0], ok).value;
    SaneFields(s.c, d);
    GathersMore(s.c, d);
    assert d.sent[..s.taken] == s.c.sent[..s.taken];
    ArriveKeeps(s.c, d, s.taken, s.b.sched, s.outbox);
    OutputSame(s.c, d, s.delivered);
    Nothing(s.delivered);
    EditsArrive(s.b.edits, s.b.nextEdit, s.b.sched.Running(), s.outbox, s.Inbox());
    StreamsArrive(s.c, d, s.Inbox(), [], FeedOf(s));
    Nothing(s.Inbox());
    GreetingArrives(s.c, d, s.outbox);
  }

  lemma RunningKnown(s: System, p: Pid)
    requires Invariant(s) && p in s.b.sched.Running()
    ensures p in s.c.jobs
  {
    DoneArePids(s.c, s.taken, s.b.sched, s.outbox);
  }

  lemma QuestionArrives(s: System)
    requires Invariant(s) && s.outbox != [] && s.outbox[0].EditRequest?
    ensures Deliver(s.c, s.outbox[0], true).Returned? && Received(s, Deliver(s.c, s.outbox[0], true).value, true)
  {
    hide Sane, AllOps, Pids, Placed, Began, Genuine, Equipped, Logged, Results, Gathers, Commands, Edits, Exits,
         Linked, Streams, IdleOps, Schedule.Running, Greeting, Output;
    CommandsSane(s.c, s.taken, s.b.sched, s.outbox);
    EditsAnswer(s.b.edits, s.b.nextEdit, s.b.sched.Running(), s.outbox, s.Inbox());
    RunningKnown(s, s.outbox[0].command);
    var d, editId := Deliver(s.c, s.outbox[0], true).value, s.outbox[0].editId;
    assert d.sent[s.taken..] == s.Inbox() + [FinishEdit(editId)];
    OutputSame(s.c, d, s.delivered);
    Nothing(s.delivered);
    AnswerSane(s.c, editId);
    GathersMore(s.c, d);
    assert d.sent[..s.taken] == s.c.sent[..s.taken];
    ArriveKeeps(s.c, d, s.taken, s.b.sched, s.outbox);
    LinkedAnswer(s.b.pipes, s.past, IdleOps(s.b.sched.order, s.b.sched), s.Inbox(), s.c.nextId, editId);
    StreamsArrive(s.c, d, s.Inbox(), [FinishEdit(editId)], FeedOf(s));
    GreetingArrives(s.c, d, s.outbox);
  }

  lemma DataArrives(s: System, ok: bool)
    requires Invariant(s) && s.outbox != [] && s.outbox[0].PipeData?
    ensures Deliver(s.c, s.outbox[0], ok).Returned? && Received(s, Deliver(s.c, s.outbox[0], ok).value, ok)
  {
    hide Sane, AllOps, Pids, Placed, Began, Genuine, Equipped, Logged, Results, Gathers, Commands, Edits, Exits,
         Linked, Streams, IdleOps, Schedule.Running, Greeting, Output;
    CommandsSane(s.c, s.taken, s.b.sched, s.outbox);
    StreamsData(s.c, s.Inbox(), FeedOf(s), ok);
    var d := Deliver(s.c, s.outbox[0], ok).value;
    DataDelivered(s.c, s.Inbox(), FeedOf(s), ok);
    OutputData(s.c, s.delivered, s.outbox[0].pipe, s.outbox[0].data, ok);
    SaneFields(s.c, d);
    GathersMore(s.c, d);
    assert d.sent[..s.taken] == s.c.sent[..s.taken];
    ArriveKeeps(s.c, d, s.taken, s.b.sched, s.outbox);
    EditsArrive(s.b.edits, s.b.nextEdit, s.b.sched.Running(), s.outbox, s.Inbox());
    GreetingArrives(s.c, d, s.outbox);
  }

  lemma EndArrives(s: System, ok: bool)
    requires Invariant(s) && s.outbox != [] && s.outbox[0].PipeClosed?
    ensures Deliver(s.c, s.outbox[0], ok).Returned? && Received(s, Deliver(s.c, s.outbox[0], ok).value, ok)
  {
    hide Sane, AllOps, Pids, Placed, Began, Genuine, Equipped, Logged, Results, Gathers, Commands, Edits, Exits,
         Linked, Streams, IdleOps, Schedule.Running, Greeting, Output;
    CommandsSane(s.c, s.taken, s.b.sched, s.outbox);
    StreamsClosed(s.c, s.Inbox(), FeedOf(s), ok);
    var d := Deliver(s.c, s.outbox[0], ok).value;
    SaneFields(s.c, d);
    GathersMore(s.c, d);
    assert d.sent[..s.taken] == s.c.sent[..s.taken];
    ArriveKeeps(s.c, d, s.taken, s.b.sched, s.outbox);
    OutputSame(s.c, d, s.delivered);
    Nothing(s.delivered);
    EditsArrive(s.b.edits, s.b.nextEdit, s.b.sched.Running(), s.outbox, s.Inbox());
    GreetingArrives(s.c, d, s.outbox);
  }

  // --- The backend's moves ---

  lemma GreetingQuiet(c: Client, outbox: seq<Response>, r: Response)
    requires Greeting(c, outbox) && !r.RemoteReady?
    ensures Greeting(c, outbox + [r])
  {
    assert outbox != [] ==> (outbox + [r])[1..] == outbox[1..] + [r];
  }

  lemma InboxNext(s: System)
    requires s.taken < |s.c.sent|
    ensures s.Inbox() != [] && s.Inbox()[0] == s.c.sent[s.taken] && s.Inbox()[1..] == s.c.sent[s.taken + 1..]
    ensures forall r :: r in s.Inbox() ==> r in s.c.sent
  {
  }

  /** A running process finishes and its result is sent. */
  lemma ExitNext(b: Backend, p: Pid, exitCode: int)
    requires b.sched.WellFormed() && Unconditional(b.sched) && p in b.sched.Running()
    ensures Exit(b, p, exitCode) == Returned(b.(sched := b.sched.Finish(p, FromExitCode(exitCode)),
                                              log := b.log + [Sent(CommandDone(p, exitCode))]))
    ensures News(b, Exit(b, p, exitCode).value) == [CommandDone(p, exitCode)]
  {
    NothingContradicts(b.sched, p, FromExitCode(exitCode));
    NewsOf(b, Exit(b, p, exitCode).value, [Sent(CommandDone(p, exitCode))]);
    Responses(p, CommandDone(p, exitCode));
  }

  /** A request panics exactly when it opens a file or ends an edit and the system refuses. */
  lemma TakeSafe(s: System, ok: bool)
    requires Invariant(s) && s.taken <= |s.c.sent| && Enabled(s, TakeRequest(ok))
    ensures Next(s, TakeRequest(ok)).Panicked? <==> Refused(s, TakeRequest(ok))
    ensures Next(s, TakeRequest(ok)).Returned? ==> Invariant(Next(s, TakeRequest(ok)).value)
  {
    hide Invariant, News, Schedule.Runnable, Mismatched, Exit, WithPipes;
    match s.c.sent[s.taken] {
      case BeginCommand(_, _, _) => TakeCommand(s, ok);
      case OpenFile(_, _) => if ok { TakeOpen(s); }
      case StartRead(_) => TakeRead(s, ok);
      case ReadUpTo(_, _) => TakeLimit(s);
      case FinishEdit(_) => if ok { TakeAnswer(s); }
    }
  }

  // What `Next` makes of a handled request.
  ghost predicate Took(s: System, ok: bool) {
    && s.taken < |s.c.sent| && EventOf(s.c.sent[s.taken]).Some?
    && Receive(s.b, EventOf(s.c.sent[s.taken]).value, ok).Returned?
    && var b := Receive(s.b, EventOf(s.c.sent[s.taken]).value, ok).value;
       Invariant(s.(taken := s.taken + 1, b := b, outbox := s.outbox + News(s.b, b),
                    past := s.past + OpsNow(s.c.sent[s.taken])))
  }

  lemma TakeCommand(s: System, ok: bool)
    requires Invariant(s) && s.taken < |s.c.sent| && s.c.sent[s.taken].BeginCommand?
    ensures Took(s, ok)
  {
    hide Sane, AllOps, Pids, Placed, Began, Genuine, Equipped, Logged, Results, Gathers, Commands, Edits, Exits,
         Linked, Streams, IdleOps, Schedule.Running, Greeting, Output, Directory, Schedule.WellFormed, Unconditional,
         AllEnds, Mismatched;
    var r := s.c.sent[s.taken];
    var job := Job(r.cmd, r.blockFor);
    CommandsSane(s.c, s.taken, s.b.sched, s.outbox);
    InboxNext(s);
    TakeOne(s.c.sent, s.taken);
    EnqueueKeeps(s.c, s.taken, s.b.sched, s.outbox);
    PlacedAdd(s.c.sent[..s.taken], s.b.sched, r);
    BeganAdd(s.c.sent[..s.taken], s.b.sched, s.past, s.answers, s.b.written, r);
    LoggedAdd(s.b, r.pid, job);
    StreamsStay(s, s.b.sched.Add(r.pid, job));
    ResultsMore(s.b.sched, s.b.sched.Add(r.pid, job), s.b.log, [], s.local, s.local, s.answers, s.exits);
    NewsOf(s.b, Receive(s.b, EventOf(r).value, ok).value, []);
    Responses(0, RemoteReady);
    Nothing(s.b.log);
    Nothing(s.outbox);
    Nothing(s.past);
    AddRunning(s.b.sched, r.pid, job);
    EditsSkip(s.b.edits, s.b.nextEdit, s.b.sched.Running(), s.outbox, s.Inbox());
    LinkedEnqueue(s.b.pipes, s.past, IdleOps(s.b.sched.order, s.b.sched), s.Inbox(), s.c.nextId);
    IdleAdd(s.b.sched, r.pid, job);
    StreamsTake(s.c, s.Inbox(), FeedOf(s));
    NoneAdded(s.b.reading);
  }

  lemma TakeOpen(s: System)
    requires Invariant(s) && s.taken < |s.c.sent| && s.c.sent[s.taken].OpenFile?
    ensures Took(s, true)
  {
    hide Sane, AllOps, Pids, Placed, Began, Genuine, Equipped, Logged, Results, Gathers, Commands, Edits, Exits,
         Linked, Streams, IdleOps, Schedule.Running, Greeting, Output, Directory, Schedule.WellFormed, Unconditional,
         EndsOnly, Pipes.Perform;
    var r := s.c.sent[s.taken];
    CommandsSane(s.c, s.taken, s.b.sched, s.outbox);
    InboxNext(s);
    TakeOne(s.c.sent, s.taken);
    PlacedSkip(s.c.sent[..s.taken], s.b.sched, r);
    BeganNow(s.c.sent[..s.taken], s.b.sched, s.past, s.answers, s.b.written, r);
    IdleEndsOnly(s.b.sched.order, s.b.sched);
    LinkedNow(s.b.pipes, s.past, IdleOps(s.b.sched.order, s.b.sched), s.Inbox(), s.c.nextId,
              Pipes.OpenOutput(r.pipe, r.path));
    GenuineMore(s.past, OpsNow(r), s.b.written, s.produced, s.ended);
    StreamsTaken(s, Receive(s.b, EventOf(r).value, true).value.pipes, OpsNow(r));
    LoggedSame(s.b, Receive(s.b, EventOf(r).value, true).value);
    NewsOf(s.b, Receive(s.b, EventOf(r).value, true).value, []);
    Responses(0, RemoteReady);
    Nothing(s.b.log);
    Nothing(s.outbox);
    SkipKeeps(s.c, s.taken, s.b.sched, s.outbox);
    EditsSkip(s.b.edits, s.b.nextEdit, s.b.sched.Running(), s.outbox, s.Inbox());
    StreamsTake(s.c, s.Inbox(), FeedOf(s));
    NoneAdded(s.b.reading);
  }

  lemma TakeRead(s: System, ok: bool)
    requires Invariant(s) && s.taken < |s.c.sent| && s.c.sent[s.taken].StartRead?
    ensures Took(s, ok)
  {
    hide Sane, AllOps, Pids, Placed, Began, Genuine, Equipped, Logged, Results, Gathers, Commands, Edits, Exits,
         Linked, Streams, IdleOps, Schedule.Running, Greeting, Output, Directory, Schedule.WellFormed, Unconditional,
         EndsOnly, Pipes.Perform;
    var r := s.c.sent[s.taken];
    CommandsSane(s.c, s.taken, s.b.sched, s.outbox);
    InboxNext(s);
    TakeOne(s.c.sent, s.taken);
    PlacedSkip(s.c.sent[..s.taken], s.b.sched, r);
    BeganNow(s.c.sent[..s.taken], s.b.sched, s.past, s.answers, s.b.written, r);
    IdleEndsOnly(s.b.sched.order, s.b.sched);
    LinkedNow(s.b.pipes, s.past, IdleOps(s.b.sched.order, s.b.sched), s.Inbox(), s.c.nextId, Pipes.ReadEnd(r.pipe));
    GenuineMore(s.past, OpsNow(r), s.b.written, s.produced, s.ended);
    StreamsTaken(s, Receive(s.b, EventOf(r).value, ok).value.pipes, OpsNow(r));
    LoggedSame(s.b, Receive(s.b, EventOf(r).value, ok).value);
    NewsOf(s.b, Receive(s.b, EventOf(r).value, ok).value, []);
    Responses(0, RemoteReady);
    Nothing(s.b.log);
    Nothing(s.outbox);
    SkipKeeps(s.c, s.taken, s.b.sched, s.outbox);
    EditsSkip(s.b.edits, s.b.nextEdit, s.b.sched.Running(), s.outbox, s.Inbox());
    StreamsTake(s.c, s.Inbox(), FeedOf(s));
    NoneAdded(s.b.reading);
  }

  /** No program was spawned, and `more` was performed on the table. */
  lemma StreamsTaken(s: System, t: Pipes.Table, more: Ops)
    requires Invariant(s) && s.taken < |s.c.sent|
    requires Linked(t, s.past + more, IdleOps(s.b.sched.order, s.b.sched), s.Inbox()[1..], s.c.nextId)
    ensures Equipped(s.b.children, s.b.sched, s.past + more)
  {
    hide Edits, Exits, Linked, Streams, Output, Placed, Began, Genuine, Logged, Results, Gathers, Directory, Greeting,
         Equipped, Sane, Pids, OneResultEach, Unconditional, IdleOps;
    LinkedPerforms(t, s.past + more, IdleOps(s.b.sched.order, s.b.sched), s.Inbox()[1..], s.c.nextId);
    EquippedMore(s.b.children, s.b.sched, s.b.sched, s.past, more);
  }

  /** No program was spawned, and the table is what it was. */
  lemma StreamsStay(s: System, after: Sched)
    requires Invariant(s)
    requires forall p :: p in s.b.sched.jobs ==> p in after.jobs && after.jobs[p] == s.b.sched.jobs[p]
    requires forall p | p in after.started && p in after.jobs && after.jobs[p].cmd.cmd.Unknown? ::
               p in s.b.sched.started
    ensures Equipped(s.b.children, after, s.past)
  {
    hide Edits, Exits, Linked, Streams, Output, Placed, Began, Genuine, Logged, Results, Gathers, Directory, Greeting,
         Equipped, Sane, Pids, OneResultEach, Unconditional, IdleOps;
    LinkedPerforms(s.b.pipes, s.past, IdleOps(s.b.sched.order, s.b.sched), s.Inbox(), s.c.nextId);
    Nothing(s.past);
    EquippedMore(s.b.children, s.b.sched, after, s.past, []);
  }

  lemma TakeLimit(s: System)
    requires Invariant(s) && s.taken < |s.c.sent| && s.c.sent[s.taken].ReadUpTo?
    ensures Invariant(s.(taken := s.taken + 1))
  {
    hide Sane, AllOps, Pids, Placed, Began, Genuine, Equipped, Logged, Results, Gathers, Commands, Edits, Exits,
         Linked, Streams, IdleOps, Schedule.Running, Greeting, Output, Directory;
    InboxNext(s);
    TakeOne(s.c.sent, s.taken);
    PlacedSkip(s.c.sent[..s.taken], s.b.sched, s.c.sent[s.taken]);
    BeganNow(s.c.sent[..s.taken], s.b.sched, s.past, s.answers, s.b.written, s.c.sent[s.taken]);
    Nothing(s.past);
    SkipKeeps(s.c, s.taken, s.b.sched, s.outbox);
    EditsSkip(s.b.edits, s.b.nextEdit, s.b.sched.Running(), s.outbox, s.Inbox());
    LinkedSkip(s.b.pipes, s.past, IdleOps(s.b.sched.order, s.b.sched), s.Inbox(), s.c.nextId);
    StreamsTake(s.c, s.Inbox(), FeedOf(s));
    NoneAdded(s.b.reading);
  }

  lemma TakeAnswer(s: System)
    requires Invariant(s) && s.taken < |s.c.sent| && s.c.sent[s.taken].FinishEdit?
    ensures Took(s, true)
  {
    hide Sane, AllOps, Pids, Placed, Began, Genuine, Equipped, Logged, Results, Gathers, Commands, Edits, Exits,
         Linked, Streams, IdleOps, Schedule.Running, Greeting, Output, Directory, Schedule.WellFormed, Unconditional,
         Exit;
    var editId := s.c.sent[s.taken].editId;
    CommandsSane(s.c, s.taken, s.b.sched, s.outbox);
    InboxNext(s);
    TakeOne(s.c.sent, s.taken);
    PlacedSkip(s.c.sent[..s.taken], s.b.sched, s.c.sent[s.taken]);
    BeganNow(s.c.sent[..s.taken], s.b.sched, s.past, s.answers, s.b.written, s.c.sent[s.taken]);
    Nothing(s.past);
    EditsClose(s.b.edits, s.b.nextEdit, s.b.sched.Running(), s.outbox, s.Inbox());
    var p := s.b.edits[editId].0;
    var left := s.b.(edits := s.b.edits - {editId});
    ExitNext(left, p, 0);
    assert News(s.b, Exit(left, p, 0).value) == News(left, Exit(left, p, 0).value);
    RunningFacts(s.b.sched, p);
    SkipKeeps(s.c, s.taken, s.b.sched, s.outbox);
    var r := CommandDone(p, 0);
    FinishKeeps(s.c, s.taken + 1, s.b.sched, s.outbox, p, Success, 0);
    FinishRunning(s.b.sched, p, Success);
    EditsQuiet(left.edits, left.nextEdit, s.b.sched.Running() - {p}, s.outbox, s.Inbox()[1..], r);
    ExitsEdited(s.local, s.b.sched.Running(), p);
    LinkedSkip(s.b.pipes, s.past, IdleOps(s.b.sched.order, s.b.sched), s.Inbox(), s.c.nextId);
    RunningStarted(s.b.sched, p);
    IdleFinish(s.b.sched, p, Success);
    PlacedSame(s.c.sent[..s.taken + 1], s.b.sched, s.b.sched.Finish(p, Success));
    BeganFinish(s.c.sent[..s.taken + 1], s.b.sched, s.past, s.answers, s.b.written, p, Success);
    LoggedSame(s.b, left);
    LoggedExit(left, p, 0);
    AnswerResults(s, p);
    StreamsStay(s, s.b.sched.Finish(p, Success));
    StreamsTake(s.c, s.Inbox(), FeedOf(s));
    NoneAdded(s.b.reading);
    StreamsQuiet(s.c, s.Inbox()[1..], FeedOf(s), r);
    GreetingQuiet(s.c, s.outbox, r);
  }

  lemma RunningStarted(sched: Sched, p: Pid)
    requires p in sched.Running()
    ensures p in sched.started
  {
  }

  // The report at the front of `local` was handled and answered with `r`.
  ghost predicate Relayed(s: System) {
    && s.local != [] && Receive(s.b, s.local[0], true).Returned?
    && var b := Receive(s.b, s.local[0], true).value;
       Invariant(s.(b := b, outbox := s.outbox + News(s.b, b), local := s.local[1..]))
  }

  lemma LocalSafe(s: System)
    requires Invariant(s) && s.taken <= |s.c.sent| && Enabled(s, TakeLocal)
    ensures Next(s, TakeLocal).Returned? && Invariant(Next(s, TakeLocal).value)
  {
    hide Receive, News, Schedule.Runnable, Schedule.Running, Commands, Edits, Linked, Streams, Exits, Placed, Began,
         Genuine, Equipped, Logged, Results, Gathers, Output, Directory, Greeting;
    ExitsTake(s.local, s.b.sched.Running());
    match s.local[0] {
      case Completed(p, exitCode) => ExitHandled(s, p, exitCode);
      case PipeOutput(id, data) => OutputHandled(s, Driver.PipeData(id, data));
      case PipeEnd(id) => OutputHandled(s, Driver.PipeClosed(id));
    }
  }

  lemma ExitHandled(s: System, p: Pid, exitCode: int)
    requires Invariant(s) && s.local != [] && s.local[0] == Event.Completed(p, exitCode)
    ensures Relayed(s)
  {
    hide Sane, AllOps, Pids, Placed, Began, Genuine, Equipped, Logged, Results, Gathers, Commands, Edits, Exits,
         Linked, Streams, IdleOps, Schedule.Running, Greeting, Output, Directory, Schedule.WellFormed, Unconditional,
         Exit;
    var r, status := CommandDone(p, exitCode), FromExitCode(exitCode);
    CommandsSane(s.c, s.taken, s.b.sched, s.outbox);
    ExitsTake(s.local, s.b.sched.Running());
    ExitNext(s.b, p, exitCode);
    RunningFacts(s.b.sched, p);
    FinishKeeps(s.c, s.taken, s.b.sched, s.outbox, p, status, exitCode);
    FinishRunning(s.b.sched, p, status);
    EditsExit(s.b.edits, s.b.nextEdit, s.b.sched.Running(), s.outbox, s.Inbox(), p);
    EditsQuiet(s.b.edits, s.b.nextEdit, s.b.sched.Running() - {p}, s.outbox, s.Inbox(), r);
    RunningStarted(s.b.sched, p);
    IdleFinish(s.b.sched, p, status);
    PlacedSame(s.c.sent[..s.taken], s.b.sched, s.b.sched.Finish(p, status));
    BeganFinish(s.c.sent[..s.taken], s.b.sched, s.past, s.answers, s.b.written, p, status);
    LoggedExit(s.b, p, exitCode);
    ExitResults(s, p, exitCode);
    StreamsStay(s, s.b.sched.Finish(p, status));
    StreamsPass(s.c, s.Inbox(), FeedOf(s), r);
    GreetingQuiet(s.c, s.outbox, r);
  }

  lemma AnswerResults(s: System, p: Pid)
    requires Invariant(s) && p in s.b.sched.Running() && s.b.sched.Running()[p] == AwaitingEdit
    ensures Results(s.b.sched.Finish(p, Success), s.b.log + [Sent(CommandDone(p, 0))], s.local, s.answers, s.exits)
  {
    hide Invariant, Results, Schedule.Running;
    LeftAs(s, p);
    ResultsNow(s);
    ResultsFinish(s.b.sched, s.b.log, s.local, s.answers, s.exits, p, Success, 0, [Sent(CommandDone(p, 0))]);
  }

  lemma ResultsNow(s: System)
    requires Invariant(s)
    ensures Results(s.b.sched, s.b.log, s.local, s.answers, s.exits)
  {
    hide Commands, Edits, Exits, Linked, Streams, Output, Placed, Began, Genuine, Logged, Gathers, Directory, Greeting,
         Results;
  }

  lemma ExitResults(s: System, p: Pid, exitCode: int)
    requires Invariant(s) && s.local != [] && s.local[0] == Event.Completed(p, exitCode) && p in s.b.sched.Running()
    requires s.b.sched.Running()[p] == Spawned
    ensures Results(s.b.sched.Finish(p, FromExitCode(exitCode)), s.b.log + [Sent(CommandDone(p, exitCode))],
                    s.local[1..], s.answers, s.exits)
  {
    hide Invariant, Results, Schedule.Running;
    LeftAs(s, p);
    KnownExit(s, p, exitCode);
    Nothing(s.b.log);
    ResultsMore(s.b.sched, s.b.sched, s.b.log, [], s.local, s.local[1..], s.answers, s.exits);
    ResultsFinish(s.b.sched, s.b.log, s.local[1..], s.answers, s.exits, p, FromExitCode(exitCode), exitCode,
                  [Sent(CommandDone(p, exitCode))]);
  }

  lemma KnownExit(s: System, p: Pid, exitCode: int)
    requires Invariant(s) && s.local != [] && s.local[0] == Event.Completed(p, exitCode)
    ensures Results(s.b.sched, s.b.log, s.local, s.answers, s.exits) && p in s.exits && s.exits[p] == exitCode
  {
    hide Commands, Edits, Exits, Linked, Streams, Output, Placed, Began, Genuine, Logged, Gathers, Directory, Greeting,
         Tells;
    assert Event.Completed(p, exitCode) in s.local;
  }

  /** What was left running is a program or an edit, as its state says. */
  lemma LeftAs(s: System, p: Pid)
    requires Invariant(s) && p in s.b.sched.Running()
    ensures p in s.b.sched.jobs && p !in s.b.sched.done && p in s.b.sched.started && p in s.answers
    ensures s.b.sched.Running()[p] == Spawned <==> s.b.sched.jobs[p].cmd.cmd.Unknown?
    ensures s.b.sched.Running()[p] == AwaitingEdit <==> s.b.sched.jobs[p].cmd.cmd.Edit?
  {
    hide Edits, Exits, Linked, Streams, Output, Placed, Genuine, Equipped, Logged, Results, Gathers, Directory,
         Greeting, Answered, Writer, Sane, OneResultEach;
  }

  lemma OutputHandled(s: System, r: Response)
    requires Invariant(s) && s.local != []
    requires match s.local[0]
             case PipeOutput(id, data) => r == PipeData(id, data)
             case PipeEnd(id) => r == PipeClosed(id)
             case _ => false
    ensures Relayed(s)
  {
    hide Sane, AllOps, Pids, Placed, Began, Genuine, Equipped, Logged, Results, Gathers, Commands, Edits, Exits,
         Linked, Streams, IdleOps, Schedule.Running, Greeting, Output, Directory;
    CommandsSane(s.c, s.taken, s.b.sched, s.outbox);
    ExitsTake(s.local, s.b.sched.Running());
    NewsOf(s.b, Receive(s.b, s.local[0], true).value, [Sent(r)]);
    Responses(0, r);
    QuietKeeps(s.c, s.taken, s.b.sched, s.outbox, r);
    LoggedQuiet(s.b, r);
    ResultsMore(s.b.sched, s.b.sched, s.b.log, [Sent(r)], s.local, s.local[1..], s.answers, s.exits);
    EditsQuiet(s.b.edits, s.b.nextEdit, s.b.sched.Running(), s.outbox, s.Inbox(), r);
    StreamsPass(s.c, s.Inbox(), FeedOf(s), r);
    GreetingQuiet(s.c, s.outbox, r);
  }

  // --- Starting processes ---

  // `p` was started.
  ghost predicate Launched(s: System, p: Pid, ok: bool, text: Bytes) {
    && p in s.b.sched.Runnable() && Dispatch(s.b, p, ok, text).Returned? && s.taken <= |s.c.sent|
    && var b := Dispatch(s.b, p, ok, text).value;
       Invariant(s.(b := b, outbox := s.outbox + News(s.b, b), past := s.past + OpsOf(s.b.sched.jobs[p].cmd, ok),
                    answers := s.answers[p := (ok, text)]))
  }

  lemma LaunchSafe(s: System, p: Pid, ok: bool, text: Bytes)
    requires Invariant(s) && s.taken <= |s.c.sent| && Enabled(s, Launch(p, ok, text))
    ensures Next(s, Launch(p, ok, text)).Panicked? <==> Refused(s, Launch(p, ok, text))
    ensures Next(s, Launch(p, ok, text)).Returned? ==> Invariant(Next(s, Launch(p, ok, text)).value)
  {
    hide Invariant, Dispatch, News, OpsOf, Schedule.Runnable;
    RunnableFacts(s.b.sched, p);
    var cmd := s.b.sched.jobs[p].cmd.cmd;
    if cmd.Unknown? && !ok {
      SpawnFailurePanics(s, p, text);
    } else if cmd.Unknown? {
      LaunchSpawn(s, p, text);
    } else if cmd.Edit? && ok {
      LaunchEdit(s, p, text);
    } else {
      LaunchOver(s, p, ok, text);
    }
  }

  /** What was recorded about the past is kept when `p` is started; `s'` is the schedule afterwards. */
  lemma HistoryLaunch(s: System, s': Sched, p: Pid, ok: bool, text: Bytes)
    requires Invariant(s) && StartsNow(s.b.sched, s', p, ok) && Utf8.WellFormed(text) && s.taken <= |s.c.sent|
    requires s.b.sched.jobs[p].cmd.cmd.Unknown? ==> ok
    requires Pipes.ClashFree(s.past + OpsOf(s.b.sched.jobs[p].cmd, ok))
    ensures var c := s.b.sched.jobs[p].cmd; var words := WordsAfter(c, (ok, text), s.b.written);
            && Began(s.c.sent[..s.taken], s', s.past + OpsOf(c, ok), s.answers[p := (ok, text)], words)
            && Genuine(s.past + OpsOf(c, ok), words, s.produced, s.ended)
  {
    hide Sane, AllOps, Pids, Placed, Began, Genuine, Equipped, Logged, Results, Gathers, Commands, Edits, Exits,
         Linked, Streams, IdleOps, Schedule.Running, Greeting, Output, Directory, OpsOf, WordsAfter, Pipes.ClashFree;
    BeganLaunch(s.c.sent[..s.taken], s.b.sched, s', s.past, s.answers, s.b.written, p, (ok, text));
    GenuineLaunch(s.b.sched.jobs[p].cmd, (ok, text), s.past, s.b.written, s.produced, s.ended);
  }

  /** The streams of the program that is spawned are its ends. */
  lemma SpawnEquips(s: System, p: Pid)
    requires Invariant(s) && p in s.b.sched.Runnable() && s.b.sched.jobs[p].cmd.cmd.Unknown?
    ensures Equipped(WithChild(s.b.children, p, s.b.pipes, s.b.sched.jobs[p].cmd.pipes), s.b.sched.Begin(p, Spawned),
                     s.past + OpsOf(s.b.sched.jobs[p].cmd, true))
  {
    hide Edits, Exits, Linked, Streams, Output, Placed, Began, Genuine, Logged, Results, Gathers, Directory, Greeting,
         Equipped, Sane, Pids, OneResultEach, Unconditional, IdleOps, Schedule.Runnable, Schedule.WellFormed, AllEnds,
         WithChild;
    RunnableFacts(s.b.sched, p);
    var c := s.b.sched.jobs[p].cmd;
    LaunchLinked(s.b.pipes, s.past, s.b.sched, s.b.sched.Begin(p, Spawned), s.Inbox(), s.c.nextId, p, true);
    LinkedPerforms(s.b.pipes, s.past, IdleOps(s.b.sched.order, s.b.sched), s.Inbox(), s.c.nextId);
    Nothing(AllEnds(c.pipes));
    assert OpsOf(c, true) == AllEnds(c.pipes);
    EquippedSpawn(s.b.children, s.b.sched, s.b.pipes, s.past, p, Spawned);
  }

  /** Nothing was spawned when `p` was started. */
  lemma LaunchStreams(s: System, after: Sched, p: Pid, ok: bool)
    requires Invariant(s) && p in s.b.sched.Runnable() && !s.b.sched.jobs[p].cmd.cmd.Unknown?
    requires after.jobs == s.b.sched.jobs && after.order == s.b.sched.order && !IdleAt(after, p)
    requires forall w :: w != p ==> (IdleAt(s.b.sched, w) <==> IdleAt(after, w))
    requires forall q :: q in after.started && q != p ==> q in s.b.sched.started
    ensures Equipped(s.b.children, after, s.past + OpsOf(s.b.sched.jobs[p].cmd, ok))
  {
    hide Edits, Exits, Linked, Streams, Output, Placed, Began, Genuine, Logged, Results, Gathers, Directory, Greeting,
         Equipped, Sane, Pids, OneResultEach, Unconditional, IdleOps, Schedule.Runnable, Schedule.WellFormed, OpsOf;
    RunnableFacts(s.b.sched, p);
    var ops := OpsOf(s.b.sched.jobs[p].cmd, ok);
    LaunchLinked(s.b.pipes, s.past, s.b.sched, after, s.Inbox(), s.c.nextId, p, ok);
    LinkedPerforms(PerformOps(s.b.pipes, ops).value, s.past + ops, IdleOps(after.order, after), s.Inbox(), s.c.nextId);
    EquippedMore(s.b.children, s.b.sched, after, s.past, ops);
  }

  lemma LaunchSpawn(s: System, p: Pid, text: Bytes)
    requires Invariant(s) && p in s.b.sched.Runnable() && s.b.sched.jobs[p].cmd.cmd.Unknown? && Utf8.WellFormed(text)
    ensures Launched(s, p, true, text)
  {
    hide Sane, AllOps, Pids, Placed, Began, Genuine, Equipped, Logged, Results, Gathers, Commands, Edits, Exits,
         Linked, Streams, IdleOps, Schedule.Running, Greeting, Output, Directory, Schedule.WellFormed, Unconditional,
         Schedule.Runnable, PerformOps, OpsOf;
    CommandsSane(s.c, s.taken, s.b.sched, s.outbox);
    RunnableFacts(s.b.sched, p);
    var after := s.b.sched.Begin(p, Spawned);
    LaunchLinked(s.b.pipes, s.past, s.b.sched, after, s.Inbox(), s.c.nextId, p, true);
    NewsOf(s.b, Dispatch(s.b, p, true, text).value, [Ran(p)]);
    Responses(p, RemoteReady);
    Nothing(s.outbox);
    BeginRunning(s.b.sched, p, Spawned);
    BeginKeeps(s.c, s.taken, s.b.sched, s.outbox, p, Spawned);
    EditsBegin(s.b.edits, s.b.nextEdit, s.b.sched.Running(), s.outbox, s.Inbox(), p);
    ExitsBegin(s.local, s.b.sched.Running(), p, Spawned);
    PlacedSame(s.c.sent[..s.taken], s.b.sched, after);
    HistoryLaunch(s, after, p, true, text);
    LoggedDispatch(s.b, p, true, text);
    ResultsBegin(s.b.sched, s.b.log, s.local, s.answers, s.exits, p, Spawned, (true, text), [Ran(p)]);
    SpawnEquips(s, p);
  }

  lemma LaunchEdit(s: System, p: Pid, text: Bytes)
    requires Invariant(s) && p in s.b.sched.Runnable() && s.b.sched.jobs[p].cmd.cmd.Edit? && Utf8.WellFormed(text)
    ensures Launched(s, p, true, text)
  {
    hide Sane, AllOps, Pids, Placed, Began, Genuine, Equipped, Logged, Results, Gathers, Commands, Edits, Exits,
         Linked, Streams, IdleOps, Schedule.Running, Greeting, Output, Directory, Schedule.WellFormed, Unconditional,
         Schedule.Runnable, PerformOps, OpsOf, Schedule.Blocked, Pipes.ClashFree;
    CommandsSane(s.c, s.taken, s.b.sched, s.outbox);
    RunnableFacts(s.b.sched, p);
    var after, file := s.b.sched.Begin(p, AwaitingEdit), s.b.sched.jobs[p].cmd.cmd.file;
    var r := EditRequest(s.b.nextEdit, p, file);
    EditAccounted(s, p);
    LaunchLinked(s.b.pipes, s.past, s.b.sched, after, s.Inbox(), s.c.nextId, p, true);
    NewsOf(s.b, Dispatch(s.b, p, true, text).value, [Ran(p), Sent(r)]);
    Responses(p, r);
    HistoryLaunch(s, after, p, true, text);
    LoggedDispatch(s.b, p, true, text);
    ResultsBegin(s.b.sched, s.b.log, s.local, s.answers, s.exits, p, AwaitingEdit, (true, text), [Ran(p), Sent(r)]);
    LaunchStreams(s, after, p, true);
  }

  // The question about `p`, which is left to be edited, is sent.
  lemma EditAccounted(s: System, p: Pid)
    requires Invariant(s) && p in s.b.sched.Runnable() && s.b.sched.jobs[p].cmd.cmd.Edit? && s.taken <= |s.c.sent|
    ensures var after, file := s.b.sched.Begin(p, AwaitingEdit), s.b.sched.jobs[p].cmd.cmd.file;
            var outbox := s.outbox + [EditRequest(s.b.nextEdit, p, file)];
            && Commands(s.c, s.taken, after, outbox)
            && Edits(s.b.edits[s.b.nextEdit := (p, file)], s.b.nextEdit + 1, after.Running(), outbox, s.Inbox())
            && Exits(s.local, after.Running())
            && Streams(s.c, s.Inbox(), FeedOf(s).(outbox := outbox))
            && Greeting(s.c, outbox)
            && Placed(s.c.sent[..s.taken], after)
  {
    hide Sane, AllOps, Pids, Placed, Began, Genuine, Equipped, Logged, Results, Gathers, Commands, Edits, Exits,
         Linked, Streams, IdleOps, Schedule.Running, Greeting, Output, Directory, Schedule.WellFormed, Unconditional,
         Schedule.Runnable, PerformOps, OpsOf;
    RunnableFacts(s.b.sched, p);
    var after, file := s.b.sched.Begin(p, AwaitingEdit), s.b.sched.jobs[p].cmd.cmd.file;
    var r := EditRequest(s.b.nextEdit, p, file);
    BeginRunning(s.b.sched, p, AwaitingEdit);
    BeginKeeps(s.c, s.taken, s.b.sched, s.outbox, p, AwaitingEdit);
    QuietKeeps(s.c, s.taken, after, s.outbox, r);
    EditsOpen(s.b.edits, s.b.nextEdit, s.b.sched.Running(), s.outbox, s.Inbox(), p, file);
    ExitsBegin(s.local, s.b.sched.Running(), p, AwaitingEdit);
    StreamsQuiet(s.c, s.Inbox(), FeedOf(s), r);
    GreetingQuiet(s.c, s.outbox, r);
    PlacedSame(s.c.sent[..s.taken], s.b.sched, after);
  }

  // The backend after `p` finished as soon as it was started, with `status`, and `r` was sent.
  ghost function OverAtOnce(b: Backend, p: Pid, ok: bool, text: Bytes, status: ExitStatus, r: Response): Backend
    requires p in b.sched.jobs && PerformOps(b.pipes, OpsOf(b.sched.jobs[p].cmd, ok)).Returned?
  {
    var c := b.sched.jobs[p].cmd;
    b.(sched := b.sched.Finish(p, status), pipes := PerformOps(b.pipes, OpsOf(c, ok)).value,
       written := WordsAfter(c, (ok, text), b.written), log := b.log + [Ran(p), Sent(r)])
  }

  lemma OverNext(b: Backend, p: Pid, ok: bool, text: Bytes) returns (status: ExitStatus, code: int)
    requires Unconditional(b.sched) && p in b.sched.Runnable()
    requires !b.sched.jobs[p].cmd.cmd.Unknown? && !(b.sched.jobs[p].cmd.cmd.Edit? && ok)
    ensures status == (if ok then Success else Failure) && code == if b.sched.jobs[p].cmd.cmd.Edit? then 1 else 0
    ensures PerformOps(b.pipes, OpsOf(b.sched.jobs[p].cmd, ok)).Returned? ==>
              Dispatch(b, p, ok, text) == Returned(OverAtOnce(b, p, ok, text, status, CommandDone(p, code)))
  {
    hide PerformOps, OpsOf, Schedule.Runnable;
    RunnableFacts(b.sched, p);
    status := if ok then Success else Failure;
    code := if b.sched.jobs[p].cmd.cmd.Edit? then 1 else 0;
    NothingContradicts(b.sched, p, status);
  }

  lemma LaunchOver(s: System, p: Pid, ok: bool, text: Bytes)
    requires Invariant(s) && p in s.b.sched.Runnable() && Utf8.WellFormed(text)
    requires !s.b.sched.jobs[p].cmd.cmd.Unknown? && !(s.b.sched.jobs[p].cmd.cmd.Edit? && ok)
    ensures Launched(s, p, ok, text)
  {
    hide Sane, AllOps, Pids, Placed, Began, Genuine, Equipped, Logged, Results, Gathers, Commands, Edits, Exits,
         Linked, Streams, IdleOps, Schedule.Running, Greeting, Output, Directory, Schedule.WellFormed, Unconditional,
         Schedule.Runnable, PerformOps, OpsOf, Dispatch, WordsAfter, Schedule.Blocked, Pipes.ClashFree,
         Schedule.Finish;
    CommandsSane(s.c, s.taken, s.b.sched, s.outbox);
    RunnableFacts(s.b.sched, p);
    var status, code := OverNext(s.b, p, ok, text);
    OverAccounted(s, p, status, code);
    OverRecorded(s, p, ok, text, status);
    OverResults(s, p, (ok, text), status, code);
    LoggedDispatch(s.b, p, ok, text);
    NewsOf(s.b, OverAtOnce(s.b, p, ok, text, status, CommandDone(p, code)), [Ran(p), Sent(CommandDone(p, code))]);
    Responses(p, CommandDone(p, code));
  }

  // The result of `p`, which finished at once, is sent.
  lemma OverAccounted(s: System, p: Pid, status: ExitStatus, code: int)
    requires Invariant(s) && p in s.b.sched.Runnable() && s.taken <= |s.c.sent|
    ensures var after, outbox := s.b.sched.Finish(p, status), s.outbox + [CommandDone(p, code)];
            && Commands(s.c, s.taken, after, outbox)
            && Edits(s.b.edits, s.b.nextEdit, after.Running(), outbox, s.Inbox())
            && Exits(s.local, after.Running())
            && Streams(s.c, s.Inbox(), FeedOf(s).(outbox := outbox))
            && Greeting(s.c, outbox)
            && Placed(s.c.sent[..s.taken], after)
  {
    hide Sane, AllOps, Pids, Placed, Began, Genuine, Equipped, Logged, Results, Gathers, Commands, Edits, Exits,
         Linked, Streams, IdleOps, Schedule.Running, Greeting, Output, Directory, Schedule.WellFormed, Unconditional,
         Schedule.Runnable;
    var r := CommandDone(p, code);
    CommandsSane(s.c, s.taken, s.b.sched, s.outbox);
    RunnableFacts(s.b.sched, p);
    FinishRunning(s.b.sched, p, status);
    FinishKeeps(s.c, s.taken, s.b.sched, s.outbox, p, status, code);
    EditsQuiet(s.b.edits, s.b.nextEdit, s.b.sched.Running(), s.outbox, s.Inbox(), r);
    StreamsQuiet(s.c, s.Inbox(), FeedOf(s), r);
    GreetingQuiet(s.c, s.outbox, r);
    PlacedSame(s.c.sent[..s.taken], s.b.sched, s.b.sched.Finish(p, status));
  }

  lemma OverResults(s: System, p: Pid, answer: (bool, Bytes), status: ExitStatus, code: int)
    requires Results(s.b.sched, s.b.log, s.local, s.answers, s.exits) && p in s.b.sched.Runnable()
    requires status == (if answer.0 then Success else Failure)
    requires code == if s.b.sched.jobs[p].cmd.cmd.Edit? then 1 else 0
    requires !s.b.sched.jobs[p].cmd.cmd.Unknown? && !(s.b.sched.jobs[p].cmd.cmd.Edit? && answer.0)
    ensures Results(s.b.sched.Finish(p, status), s.b.log + [Ran(p), Sent(CommandDone(p, code))], s.local,
                    s.answers[p := answer], s.exits)
  {
    hide Schedule.Runnable, Results;
    RunnableFacts(s.b.sched, p);
    ResultsAnswer(s.b.sched, s.b.log, s.local, s.answers, s.exits, p, answer);
    ResultsFinish(s.b.sched, s.b.log, s.local, s.answers[p := answer], s.exits, p, status, code,
                  [Ran(p), Sent(CommandDone(p, code))]);
  }

  // The ends of `p`, which finished at once, were taken, and what there is to say was written.
  lemma OverRecorded(s: System, p: Pid, ok: bool, text: Bytes, status: ExitStatus)
    requires Invariant(s) && p in s.b.sched.Runnable() && Utf8.WellFormed(text) && s.taken <= |s.c.sent|
    requires !s.b.sched.jobs[p].cmd.cmd.Unknown? && !(s.b.sched.jobs[p].cmd.cmd.Edit? && ok)
    ensures var c, after := s.b.sched.jobs[p].cmd, s.b.sched.Finish(p, status);
            var ops, words := OpsOf(c, ok), WordsAfter(c, (ok, text), s.b.written);
            && PerformOps(s.b.pipes, ops).Returned?
            && Linked(PerformOps(s.b.pipes, ops).value, s.past + ops, IdleOps(after.order, after), s.Inbox(),
                      s.c.nextId)
            && Began(s.c.sent[..s.taken], after, s.past + ops, s.answers[p := (ok, text)], words)
            && Genuine(s.past + ops, words, s.produced, s.ended)
            && Equipped(s.b.children, after, s.past + ops)
  {
    hide Sane, AllOps, Pids, Placed, Began, Genuine, Equipped, Logged, Results, Gathers, Commands, Edits, Exits,
         Linked, Streams, IdleOps, Schedule.Running, Greeting, Output, Directory, Schedule.WellFormed, Unconditional,
         Schedule.Runnable, PerformOps, OpsOf, WordsAfter, Schedule.Blocked, Pipes.ClashFree;
    CommandsSane(s.c, s.taken, s.b.sched, s.outbox);
    RunnableFacts(s.b.sched, p);
    LaunchLinked(s.b.pipes, s.past, s.b.sched, s.b.sched.Finish(p, status), s.Inbox(), s.c.nextId, p, ok);
    HistoryLaunch(s, s.b.sched.Finish(p, status), p, ok, text);
    LaunchStreams(s, s.b.sched.Finish(p, status), p, ok);
  }

  // --- Threads ---

  lemma ThreadSafe(s: System, m: Move)
    requires Invariant(s) && s.taken <= |s.c.sent| && Enabled(s, m)
    requires m.ProcessExits? || m.ReaderReads? || m.ReaderEnds?
    ensures Next(s, m).Returned? && Invariant(Next(s, m).value)
  {
    hide Sane, AllOps, Pids, Placed, Began, Genuine, Equipped, Logged, Results, Gathers, Commands, Edits, Exits,
         Linked, Streams, IdleOps, Schedule.Running, Greeting, Output, Directory, Told, Heard;
    CommandsSane(s.c, s.taken, s.b.sched, s.outbox);
    match m {
      case ProcessExits(p, exitCode) =>
        ExitsReport(s.local, s.b.sched.Running(), p, exitCode);
        LeftAs(s, p);
        ResultsExit(s.b.sched, s.b.log, s.local, s.answers, s.exits, p, exitCode);
        StreamsReported(s.c, s.Inbox(), FeedOf(s), Event.Completed(p, exitCode));
      case ReaderReads(id, data) =>
        ExitsQuiet(s.local, s.b.sched.Running(), PipeOutput(id, data));
        Nothing(s.b.log);
        ResultsMore(s.b.sched, s.b.sched, s.b.log, [], s.local, s.local + [PipeOutput(id, data)], s.answers, s.exits);
        FlowsNow(s, id);
        GenuineReads(s.past, s.b.written, s.produced, s.ended, id, data);
        StreamsReads(s.c, s.Inbox(), FeedOf(s), id, data);
      case ReaderEnds(id) =>
        ExitsQuiet(s.local, s.b.sched.Running(), PipeEnd(id));
        Nothing(s.b.log);
        ResultsMore(s.b.sched, s.b.sched, s.b.log, [], s.local, s.local + [PipeEnd(id)], s.answers, s.exits);
        FlowsNow(s, id);
        GenuineEnds(s.past, s.b.written, s.produced, s.ended, id);
        StreamsEnds(s.c, s.Inbox(), FeedOf(s), id);
    }
  }

  /** In a reachable state the pipes that flow are those whose write end was taken. */
  lemma FlowsNow(s: System, id: PipeId)
    requires Invariant(s)
    ensures Flows(s.b.pipes, id) <==> Pipes.WriteEnd(id) in s.past
  {
    hide Commands, Edits, Exits, Linked, Streams, Output, Placed, Genuine, Equipped, Logged, Results, Gathers,
         Directory, Greeting, Answered, Writer, Flows;
    InboxExists(s);
    FlowsExactly(s.b.pipes, s.past, IdleOps(s.b.sched.order, s.b.sched), s.Inbox(), s.c.nextId, id);
  }

  /** By the time a spawn has failed, the ends that are closed afterwards have been taken. */
  lemma SpawnFailurePanics(s: System, p: Pid, text: Bytes)
    requires Invariant(s) && p in s.b.sched.Runnable() && s.b.sched.jobs[p].cmd.cmd.Unknown?
    ensures Dispatch(s.b, p, false, text).Panicked?
  {
    hide Commands, Edits, Exits, Streams, Pipes.ClashFree, OpsOf, AllOps, IdleOps, PerformOps, Schedule.Contradicts;
    Pipes.RunDescribed(s.past);
    DriverRuns.DispatchPanics(s.b, Pipes.PerformAll(s.past).value.0, s.past, p, false, text);
    DriverRuns.SpawnFailureClashes(s.past, s.b.sched.jobs[p].cmd);
  }

  /** Whatever the system does next, it panics exactly when something is refused, and otherwise
      the invariant holds again. */
  lemma MoveSafe(s: System, m: Move)
    requires Invariant(s) && s.taken <= |s.c.sent| && Enabled(s, m)
    ensures Next(s, m).Panicked? <==> Refused(s, m)
    ensures Next(s, m).Returned? ==> Invariant(Next(s, m).value)
  {
    hide Invariant, Next, Enabled, Refused;
    match m {
      case Prompt(input) => PromptSafe(s, input);
      case Arrive(ok) => ArriveSafe(s, ok);
      case TakeRequest(ok) => TakeSafe(s, ok);
      case TakeLocal => LocalSafe(s);
      case Launch(p, ok, text) => LaunchSafe(s, p, ok, text);
      case _ => ThreadSafe(s, m);
    }
    RefusesNothing(s, m);
  }

  lemma RefusesNothing(s: System, m: Move)
    ensures m.TakeLocal? || m.ProcessExits? || m.ReaderReads? || m.ReaderEnds? ==> !Refused(s, m)
  {
  }
}
