// What becomes of the plan of a command line in a run of the whole system: its commands hold
// the ends of the pipes and files to which the plan connects them, and the working directory
// is asked for only after all of them were answered.

module SystemWiring {
  import opened Protocol
  import opened Scheduling
  import opened Driver
  import opened DriverRuns
  import opened ClientSide
  import opened Interpretation
  import opened Plans
  import opened Reading
  import opened Requests
  import opened System
  import opened SystemCommands
  import opened SystemHistory
  import opened SystemMoves
  import opened SystemPipes
  import opened SystemPrompts
  import opened SystemRuns
  import opened SystemStreams
  import Pipes
  import Prefs

  /** The reader and the writer of the pipe hold the two ends of one object. */
  ghost predicate Connected(past: seq<Pipes.Op>, id: PipeId) {
    exists os :: Given(past, Pipes.WriteEnd(id), Pipes.Out(Pipes.PipeWriter(os)))
              && Given(past, Pipes.ReadEnd(id), Pipes.In(Pipes.PipeReader(os)))
  }

  /** The writer of the pipe holds the file. */
  ghost predicate IntoFile(past: seq<Pipes.Op>, id: PipeId, path: string) {
    exists os :: Given(past, Pipes.WriteEnd(id), Pipes.Out(Pipes.FileWriter(os, path)))
  }

  /** What the program `w` writes to `id` is what the program `r` reads: they hold the two ends of one pipe. */
  ghost predicate Piped(s: System, w: Request, r: Request, id: PipeId)
    requires w.BeginCommand? && r.BeginCommand?
  {
    var (children, pipes) := (s.b.children, w.cmd.pipes);
    && w.pid in children && r.pid in children
    && exists os :: children[r.pid].stdin == Pipes.PipeReader(os)
         && (pipes.stdout == id ==> children[w.pid].stdout == Pipes.PipeWriter(os))
         && (pipes.stderr == id ==> children[w.pid].stderr == Pipes.PipeWriter(os))
  }

  /** What the program writes to `id` goes to the file. */
  ghost predicate Filed(s: System, w: Request, id: PipeId, path: string)
    requires w.BeginCommand?
  {
    && w.pid in s.b.children
    && exists os ::
         && (w.cmd.pipes.stdout == id ==> s.b.children[w.pid].stdout == Pipes.FileWriter(os, path))
         && (w.cmd.pipes.stderr == id ==> s.b.children[w.pid].stderr == Pipes.FileWriter(os, path))
  }

  /** An end is handed out once. */
  lemma GivenOnce(past: seq<Pipes.Op>, op: Pipes.Op, e: Pipes.End, f: Pipes.End)
    requires Pipes.ClashFree(past) && (op.ReadEnd? || op.WriteEnd?) && Given(past, op, e) && Given(past, op, f)
    ensures e == f
  {
    var ends := Pipes.PerformAll(past).value.0;
    var i :| 0 <= i < |past| && past[i] == op && ends[i] == e;
    var j :| 0 <= j < |past| && past[j] == op && ends[j] == f;
    assert i != j ==> Pipes.Clashes(op, op);
  }

  /** The streams of a program that was started. */
  lemma ProgramStreams(s: System, r: Request)
    requires Invariant(s) && r in s.c.sent && r.BeginCommand? && Begun(s, r.pid) && r.cmd.cmd.Unknown?
    ensures r.pid in s.b.children
    ensures Given(s.past, Pipes.ReadEnd(r.cmd.pipes.stdin), Pipes.In(s.b.children[r.pid].stdin))
    ensures Given(s.past, Pipes.WriteEnd(r.cmd.pipes.stdout), Pipes.Out(s.b.children[r.pid].stdout))
    ensures Given(s.past, Pipes.WriteEnd(r.cmd.pipes.stderr), Pipes.Out(s.b.children[r.pid].stderr))
  {
    hide Commands, Edits, Exits, Linked, Streams, Output, Placed, Began, Genuine, Logged, Results, Gathers, Directory,
         Greeting, Given;
    AsSent(s, r);
    StartedAsSent(s, r);
  }

  lemma ProgramsPiped(s: System, w: Request, r: Request, id: PipeId)
    requires Invariant(s) && w in s.c.sent && r in s.c.sent && Joins(s, w, r, id) && w.cmd.cmd.Unknown?
    requires Pipes.ClashFree(s.past) && Connected(s.past, id)
    ensures Piped(s, w, r, id)
  {
    hide Invariant, Begun, Given, Pipes.ClashFree;
    ProgramStreams(s, w);
    ProgramStreams(s, r);
    var os :| Given(s.past, Pipes.WriteEnd(id), Pipes.Out(Pipes.PipeWriter(os)))
           && Given(s.past, Pipes.ReadEnd(id), Pipes.In(Pipes.PipeReader(os)));
    var stdio := s.b.children[w.pid];
    GivenOnce(s.past, Pipes.ReadEnd(id), Pipes.In(Pipes.PipeReader(os)), Pipes.In(s.b.children[r.pid].stdin));
    if w.cmd.pipes.stdout == id {
      GivenOnce(s.past, Pipes.WriteEnd(id), Pipes.Out(Pipes.PipeWriter(os)), Pipes.Out(stdio.stdout));
    }
    if w.cmd.pipes.stderr == id {
      GivenOnce(s.past, Pipes.WriteEnd(id), Pipes.Out(Pipes.PipeWriter(os)), Pipes.Out(stdio.stderr));
    }
  }

  lemma ProgramFiled(s: System, w: Request, id: PipeId, path: string)
    requires Invariant(s) && w in s.c.sent && w.BeginCommand? && w.cmd.cmd.Unknown? && Begun(s, w.pid)
    requires Pipes.ClashFree(s.past) && IntoFile(s.past, id, path)
    ensures Filed(s, w, id, path)
  {
    hide Invariant, Begun, Given, Pipes.ClashFree;
    ProgramStreams(s, w);
    var os :| Given(s.past, Pipes.WriteEnd(id), Pipes.Out(Pipes.FileWriter(os, path)));
    var stdio := s.b.children[w.pid];
    if w.cmd.pipes.stdout == id {
      GivenOnce(s.past, Pipes.WriteEnd(id), Pipes.Out(Pipes.FileWriter(os, path)), Pipes.Out(stdio.stdout));
    }
    if w.cmd.pipes.stderr == id {
      GivenOnce(s.past, Pipes.WriteEnd(id), Pipes.Out(Pipes.FileWriter(os, path)), Pipes.Out(stdio.stderr));
    }
  }

  lemma BothEnds(past: seq<Pipes.Op>, id: PipeId)
    requires Pipes.ClashFree(past) && Pipes.WriteEnd(id) in past && Pipes.ReadEnd(id) in past
    ensures Connected(past, id)
  {
    Pipes.Rendezvous(past);
    var ends := Pipes.PerformAll(past).value.0;
    var i :| 0 <= i < |past| && past[i] == Pipes.ReadEnd(id);
    var j :| 0 <= j < |past| && past[j] == Pipes.WriteEnd(id);
    assert ends[i] == Pipes.In(Pipes.PipeReader(Pipes.Os(ends[i])));
    assert ends[j] == Pipes.Out(Pipes.PipeWriter(Pipes.Os(ends[i])));
    assert Given(past, past[j], ends[j]) && Given(past, past[i], ends[i]);
  }

  lemma FileEnd(past: seq<Pipes.Op>, id: PipeId, path: string)
    requires Pipes.ClashFree(past) && Pipes.WriteEnd(id) in past && Pipes.OpenOutput(id, path) in past
    ensures IntoFile(past, id, path)
  {
    Pipes.Rendezvous(past);
    var ends := Pipes.PerformAll(past).value.0;
    var i :| 0 <= i < |past| && past[i] == Pipes.OpenOutput(id, path);
    var j :| 0 <= j < |past| && past[j] == Pipes.WriteEnd(id);
    if j < i { assert Pipes.Clashes(past[j], past[i]); }
    assert ends[j] == Pipes.Out(Pipes.FileWriter(Pipes.Os(ends[j]), path));
    assert Given(past, past[j], ends[j]);
  }

  // --- From requests to processes ---

  /** A started command has taken the read end of its input, if it is a program, and the write ends of
      its outputs, unless it is an edit that was begun. */
  lemma BegunTook(s: System, r: Request)
    requires Invariant(s) && r in s.c.sent && r.BeginCommand? && Begun(s, r.pid)
    ensures r.cmd.cmd.Unknown? ==> Pipes.ReadEnd(r.cmd.pipes.stdin) in s.past
    ensures !(r.cmd.cmd.Edit? && r.pid in s.b.sched.started) ==>
              Pipes.WriteEnd(r.cmd.pipes.stdout) in s.past && Pipes.WriteEnd(r.cmd.pipes.stderr) in s.past
  {
    hide Invariant;
    StartedAsSent(s, r);
    BothTaken(r.cmd, s.answers[r.pid].0);
  }

  lemma BothTaken(c: RunCmd, ok: bool)
    ensures c.cmd.Unknown? ==> Pipes.ReadEnd(c.pipes.stdin) in OpsOf(c, ok)
    ensures !(c.cmd.Edit? && ok) ==>
              Pipes.WriteEnd(c.pipes.stdout) in OpsOf(c, ok) && Pipes.WriteEnd(c.pipes.stderr) in OpsOf(c, ok)
  {
    var ops := OpsOf(c, ok);
    if !ResultOf(c.cmd, ok).Process? {
      ClosedOutputs(c, ok);
    } else if c.cmd.Unknown? {
      assert ops[1] == Pipes.WriteEnd(c.pipes.stdout) && ops[2] == Pipes.WriteEnd(c.pipes.stderr);
    }
    if c.cmd.Unknown? { assert ops[0] == Pipes.ReadEnd(c.pipes.stdin); }
  }

  /** A file is open by the time a command that writes to it has started. */
  lemma OpenInTime(s: System, f: Request)
    requires Invariant(s) && f in s.c.sent && f.OpenFile? && Pipes.WriteEnd(f.pipe) in s.past
    ensures Pipes.OpenOutput(f.pipe, f.path) in s.past
  {
    hide Invariant;
    InboxExists(s);
    assert s.c.sent == s.c.sent[..s.taken] + s.Inbox();
    if f in s.Inbox() { NotYetWritten(s, f); }
    OpenedFile(s, f);
  }

  lemma OpenedFile(s: System, f: Request)
    requires Invariant(s) && s.taken <= |s.c.sent| && f in s.c.sent[..s.taken] && f.OpenFile?
    ensures Pipes.OpenOutput(f.pipe, f.path) in s.past
  {
    hide Commands, Edits, Exits, Linked, Streams, Output, Placed, Genuine, Equipped, Logged, Results, Gathers,
         Directory, Greeting, Answered, Writer;
    assert Pipes.OpenOutput(f.pipe, f.path) in RequestOps(f);
  }

  // Nobody has written to a file that is still to be opened.
  lemma NotYetWritten(s: System, f: Request)
    requires Invariant(s) && s.taken <= |s.c.sent| && f in s.Inbox() && f.OpenFile?
    ensures Pipes.WriteEnd(f.pipe) !in s.past
  {
    hide Commands, Edits, Exits, Streams, Output, Placed, Began, Genuine, Equipped, Logged, Results, Gathers,
         Directory, Greeting, AllOps, IdleOps, Pipes.ClashFree;
    var op := Pipes.OpenOutput(f.pipe, f.path);
    assert op in RequestOps(f);
    RequestInAll(s.Inbox(), f, op);
    ClashFreeThree(s.past, IdleOps(s.b.sched.order, s.b.sched), AllOps(s.Inbox()));
    assert Pipes.Clashes(Pipes.WriteEnd(f.pipe), op);
  }

  // --- Which outputs flow ---

  /** No two requests have an output in common. */
  lemma OutputsOnce(reqs: seq<Request>, x: Request, y: Request, id: PipeId)
    requires Pipes.ClashFree(AllOps(reqs)) && x in reqs && y in reqs
    requires Pipes.WriteEnd(id) in RequestOps(x) && Pipes.WriteEnd(id) in RequestOps(y)
    ensures x == y
  {
    hide Pipes.ClashFree, AllOps, RequestOps;
    var i :| 0 <= i < |reqs| && reqs[i] == x;
    var j :| 0 <= j < |reqs| && reqs[j] == y;
    if i != j {
      var n, op := if i < j then j else i, Pipes.WriteEnd(id);
      assert reqs == reqs[..n] + reqs[n..];
      AllOpsAppend(reqs[..n], reqs[n..]);
      assert reqs[..n][i + j - n] == reqs[i + j - n] && reqs[n..][0] == reqs[n];
      RequestInAll(reqs[..n], reqs[i + j - n], op);
      RequestInAll(reqs[n..], reqs[n], op);
      NoClash(AllOps(reqs[..n]), AllOps(reqs[n..]), op, op);
      assert false;
    }
  }

  /** Only the started command whose output it is has taken a write end. */
  lemma WriterOf(s: System, r: Request, id: PipeId)
    requires Invariant(s) && r in s.c.sent && r.BeginCommand? && Pipes.WriteEnd(id) in s.past
    requires id == r.cmd.pipes.stdout || id == r.cmd.pipes.stderr
    ensures Begun(s, r.pid) && !(r.cmd.cmd.Edit? && r.pid in s.b.sched.started)
  {
    hide Edits, Exits, Linked, Streams, Output, Genuine, Equipped, Logged, Results, Gathers, Directory, Greeting,
         AllOps, Schedule.WellFormed, Answered, Dependable, Unconditional, OneResultEach;
    var p :| Writer(s.b.sched, p, id);
    assert p in Pids(s.c.sent[..s.taken]);
    var w :| w in s.c.sent[..s.taken] && w.BeginCommand? && w.pid == p;
    WriteOfOutput(w.cmd.pipes, id);
    WriteOfOutput(r.cmd.pipes, id);
    OutputsOnce(s.c.sent, w, r, id);
  }

  lemma WriteOfOutput(pipes: WritePipes, id: PipeId)
    requires id == pipes.stdout || id == pipes.stderr
    ensures Pipes.WriteEnd(id) in AllEnds(pipes)
  {
    assert AllEnds(pipes)[1] == Pipes.WriteEnd(pipes.stdout) && AllEnds(pipes)[2] == Pipes.WriteEnd(pipes.stderr);
  }

  /** In every reachable state, of every command that was sent: its outputs can be read, and can end, exactly
      when it was started and is not an edit that was begun.  The outputs of such an edit stay parked in
      the backend, while the file is edited and ever after; those of an edit whose file cannot be read
      are closed like those of any command. */
  lemma OutputsFlow(aliases: seq<Prefs.Rule>, moves: seq<Move>, s: System, r: Request)
    requires Legal(aliases, moves) && Played(aliases, moves) == Returned(s) && r in s.c.sent && r.BeginCommand?
    ensures var taken := Begun(s, r.pid) && !(r.cmd.cmd.Edit? && r.pid in s.b.sched.started);
            && (Flows(s.b.pipes, r.cmd.pipes.stdout) <==> taken)
            && (Flows(s.b.pipes, r.cmd.pipes.stderr) <==> taken)
  {
    hide Invariant, Legal, Played, Flows, Begun;
    Safe(aliases, moves);
    FlowsNow(s, r.cmd.pipes.stdout);
    FlowsNow(s, r.cmd.pipes.stderr);
    if Pipes.WriteEnd(r.cmd.pipes.stdout) in s.past { WriterOf(s, r, r.cmd.pipes.stdout); }
    if Pipes.WriteEnd(r.cmd.pipes.stderr) in s.past { WriterOf(s, r, r.cmd.pipes.stderr); }
    if Begun(s, r.pid) { BegunTook(s, r); }
  }

  // --- A line in a run ---

  // Ends that a command really takes: an edit that was begun takes none, and only programs read.
  predicate Writes(s: System, r: Request, id: PipeId) {
    && r.BeginCommand? && !(r.cmd.cmd.Edit? && r.pid in s.b.sched.started)
    && (r.cmd.pipes.stdout == id || r.cmd.pipes.stderr == id)
  }

  predicate ReadsFrom(r: Request, id: PipeId) {
    r.BeginCommand? && r.cmd.cmd.Unknown? && r.cmd.pipes.stdin == id
  }

  // Both processes have started; one writes to the pipe that the other reads.
  ghost predicate Joins(s: System, w: Request, r: Request, id: PipeId) {
    Writes(s, w, id) && ReadsFrom(r, id) && Begun(s, w.pid) && Begun(s, r.pid)
  }

  /** In `s` the line `b` is carried out as planned: started commands that share a pipe hold its two
      ends, started commands that write to a file hold it, and the working directory is asked
      for only after the result of every command of the line was sent. */
  ghost predicate Realized(s: System, b: Submission) {
    && (forall w, r, id :: w in b.line && r in b.line && Joins(s, w, r, id) ==>
          Connected(s.past, id) && (w.cmd.cmd.Unknown? ==> Piped(s, w, r, id)))
    && (forall w, f :: w in b.line && f in b.line && f.OpenFile? && Writes(s, w, f.pipe) && Begun(s, w.pid) ==>
          IntoFile(s.past, f.pipe, f.path) && (w.cmd.cmd.Unknown? ==> Filed(s, w, f.pipe, f.path)))
    && (b.query.BeginCommand? ==>
          forall i, p :: 0 <= i < |s.b.log| && s.b.log[i] == Ran(b.query.pid) && p in Pids(b.line) ==>
            Reported(s.b.log[..i], p))
  }

  /** In `s` all of the line has been carried out: its processes and the question that follows are done, whoever
      reads what another one writes is connected to it, and whoever writes to a file has it. */
  ghost predicate CarriedOut(s: System, b: Submission) {
    && (forall r :: (r in b.line || r == b.query) && r.BeginCommand? ==> r.pid in s.b.sched.done)
    && (forall w, r, id :: w in b.line && r in b.line && Writes(s, w, id) && ReadsFrom(r, id) ==>
          Connected(s.past, id) && (w.cmd.cmd.Unknown? ==> Piped(s, w, r, id)))
    && (forall w, f :: w in b.line && f in b.line && f.OpenFile? && Writes(s, w, f.pipe) ==>
          IntoFile(s.past, f.pipe, f.path) && (w.cmd.cmd.Unknown? ==> Filed(s, w, f.pipe, f.path)))
  }

  /** The line's requests were sent. */
  ghost predicate Pending(s: System, b: Submission) {
    && (forall r :: r in b.line ==> r in s.c.sent)
    && b.query in s.c.sent && b.query.BeginCommand?
    && Queries(b.query, Pids(b.line), b.query.cmd.pipes.stdout, b.query.cmd.pipes.stderr)
  }

  lemma SentIsRealized(s: System, b: Submission)
    requires Invariant(s) && Pending(s, b)
    ensures Realized(s, b)
  {
    hide Invariant, Begun, Connected, IntoFile, Piped, Filed, Reported, Pids, Pipes.ClashFree;
    NoClashSoFar(s);
    forall w, id | w in b.line && Writes(s, w, id) && Begun(s, w.pid) ensures Pipes.WriteEnd(id) in s.past {
      BegunTook(s, w);
    }
    forall r, id | r in b.line && ReadsFrom(r, id) && Begun(s, r.pid) ensures Pipes.ReadEnd(id) in s.past {
      BegunTook(s, r);
    }
    forall w, r, id | w in b.line && r in b.line && Joins(s, w, r, id)
      ensures Connected(s.past, id) && (w.cmd.cmd.Unknown? ==> Piped(s, w, r, id))
    {
      BothEnds(s.past, id);
      if w.cmd.cmd.Unknown? { ProgramsPiped(s, w, r, id); }
    }
    forall w, f | w in b.line && f in b.line && f.OpenFile? && Writes(s, w, f.pipe) && Begun(s, w.pid)
      ensures IntoFile(s.past, f.pipe, f.path) && (w.cmd.cmd.Unknown? ==> Filed(s, w, f.pipe, f.path))
    {
      OpenInTime(s, f);
      FileEnd(s.past, f.pipe, f.path);
      if w.cmd.cmd.Unknown? { ProgramFiled(s, w, f.pipe, f.path); }
    }
    forall i, p | 0 <= i < |s.b.log| && s.b.log[i] == Ran(b.query.pid) && p in Pids(b.line)
      ensures Reported(s.b.log[..i], p)
    {
      AnsweredBefore(s, b.query, i, p);
    }
  }

  /** When nothing is waited for, whatever was planned has happened. */
  lemma PromptCompletes(s: System, b: Submission)
    requires Invariant(s) && Pending(s, b) && s.c.waitingFor == {}
    ensures CarriedOut(s, b)
  {
    hide Invariant, Connected, IntoFile, Piped, Filed, Reported, Queries, Begun;
    SentIsRealized(s, b);
    forall r | (r in b.line || r == b.query) && r.BeginCommand? ensures Begun(s, r.pid) && r.pid in s.b.sched.done {
      SentIsBegun(s, r);
    }
    forall w, r, id | w in b.line && r in b.line && Writes(s, w, id) && ReadsFrom(r, id)
      ensures Connected(s.past, id) && (w.cmd.cmd.Unknown? ==> Piped(s, w, r, id))
    {
      assert Joins(s, w, r, id);
    }
  }

  lemma NoClashSoFar(s: System)
    requires Invariant(s)
    ensures Pipes.ClashFree(s.past)
  {
    hide Commands, Edits, Exits, Linked, Streams, Output, Placed, Began, Genuine, Equipped, Logged, Results, Gathers,
         Directory, Greeting, Pipes.ClashFree;
    InboxExists(s);
    PastClashFree(s.b.pipes, s.past, IdleOps(s.b.sched.order, s.b.sched), s.Inbox(), s.c.nextId);
  }

  lemma StartedKnown(sched: Sched, p: Pid)
    requires sched.WellFormed() && (p in sched.started || p in sched.done)
    ensures p in sched.jobs
  {
  }

  /** A process starts only after the results of everything its request waits for were sent. */
  lemma AnsweredBefore(s: System, q: Request, i: nat, p: Pid)
    requires Invariant(s) && q in s.c.sent && q.BeginCommand? && p in q.blockFor
    requires i < |s.b.log| && s.b.log[i] == Ran(q.pid)
    ensures Reported(s.b.log[..i], p)
  {
    hide Commands, Edits, Exits, Linked, Streams, Output, Placed, Began, Genuine, Equipped, Results, Gathers,
         Directory, Greeting, OnceEach, Reported;
    assert Ran(q.pid) in s.b.log;
    CommandsSane(s.c, s.taken, s.b.sched, s.outbox);
    StartedKnown(s.b.sched, q.pid);
    AsSent(s, q);
  }

  lemma SentByMove(s: System, m: Move)
    requires Invariant(s) && s.taken <= |s.c.sent| && Enabled(s, m) && Next(s, m).Returned?
    ensures s.c.sent <= Next(s, m).value.c.sent
    ensures s.c.stdoutPipes <= Next(s, m).value.c.stdoutPipes && s.c.stderrPipes <= Next(s, m).value.c.stderrPipes
  {
    hide Invariant, Issue, Receive, Dispatch, Deliver, News, OpsOf, Schedule.Runnable, Schedule.Running;
    match m {
      case Prompt(input) =>
        PromptSends(s, input);
      case Arrive(ok) =>
        ArriveSends(s.c, s.outbox[0], ok);
      case _ =>
    }
  }

  lemma ArriveSends(c: Client, r: Response, ok: bool)
    requires Deliver(c, r, ok).Returned?
    ensures var d := Deliver(c, r, ok).value;
            c.sent <= d.sent && d.stdoutPipes == c.stdoutPipes && d.stderrPipes == c.stderrPipes
  {
  }

  lemma PromptSends(s: System, input: Input)
    requires Invariant(s) && s.taken <= |s.c.sent| && Enabled(s, Prompt(input)) && Next(s, Prompt(input)).Returned?
    ensures s.c.sent <= Next(s, Prompt(input)).value.c.sent
    ensures s.c.stdoutPipes <= Next(s, Prompt(input)).value.c.stdoutPipes
    ensures s.c.stderrPipes <= Next(s, Prompt(input)).value.c.stderrPipes
  {
    hide Invariant, Perform, Read, Settle;
    if input.EndOfInput? {
      EndReads(s.aliases);
      if Settle(s.c).Returned? { ExitsLoop(Settle(s.c).value); }
    } else if Read(s.aliases, input).Ok? {
      var b := PromptSubmits(s, input);
    }
  }

  /** A prompt submits the plan of its line. */
  lemma PromptSubmits(s: System, input: Input) returns (b: Submission)
    requires Invariant(s) && s.taken <= |s.c.sent| && Enabled(s, Prompt(input)) && Next(s, Prompt(input)).Returned?
    requires Read(s.aliases, input).Ok? && !input.EndOfInput?
    ensures Settle(s.c).Returned? && Settled(s.c, Settle(s.c).value)
    ensures Submits(Settle(s.c).value, Next(s, Prompt(input)).value.c, Read(s.aliases, input).value.steps, b)
  {
    hide Commands, Edits, Exits, Linked, Streams, Output, Placed, Began, Genuine, Equipped, Logged, Results, Gathers,
         Read, Perform, Settle, GoodPlan, Submits, Sane, AllOps, Pids, BadLine, ErrorLine, Schedule.Running;
    var _ := DirectorySettles(s);
    CommandsSane(s.c, s.taken, s.b.sched, s.outbox);
    ReadsWell(s.aliases, input);
    var settled, read := Settle(s.c).value, Read(s.aliases, input);
    SaneFields(s.c, settled);
    IssueKeeps(settled, read.value);
    b :| Submits(settled, Perform(settled, read.value).client, read.value.steps, b);
  }

  lemma {:induction false} SentGrows(aliases: seq<Prefs.Rule>, before: seq<Move>, after: seq<Move>)
    requires Legal(aliases, before + after) && Played(aliases, before + after).Returned?
    ensures Legal(aliases, before) && Played(aliases, before).Returned?
    ensures Played(aliases, before).value.c.sent <= Played(aliases, before + after).value.c.sent
    ensures Played(aliases, before).value.c.stdoutPipes <= Played(aliases, before + after).value.c.stdoutPipes
    ensures Played(aliases, before).value.c.stderrPipes <= Played(aliases, before + after).value.c.stderrPipes
    decreases after
  {
    hide Invariant, Next;
    if after == [] {
      assert before + after == before;
    } else {
      var rest, m := after[..|after| - 1], after[|after| - 1];
      assert (before + after)[..|before + after| - 1] == before + rest && (before + after)[|before + after| - 1] == m;
      SentGrows(aliases, before, rest);
      Safe(aliases, before + rest);
      SentByMove(Played(aliases, before + rest).value, m);
    }
  }

  /** However a run goes on after a command line was read, its plan is carried out as compiled: the
      requests wire the commands of the plan's steps to pipes that are new and different, and
      these processes end up with the two ends of one pipe, or the file, where the plan
      connects them; by the next prompt all of them have. */
  lemma LineRealized(aliases: seq<Prefs.Rule>, before: seq<Move>, input: Input, after: seq<Move>)
    returns (b: Submission)
    requires Legal(aliases, before + [Prompt(input)] + after)
    requires Played(aliases, before + [Prompt(input)] + after).Returned?
    requires Read(aliases, input).Ok? && !input.EndOfInput?
    ensures |b.ids| >= 2 && Distinct(b.ids) && Wires(Read(aliases, input).value.steps, b.ids, b.line)
    ensures var s := Played(aliases, before + [Prompt(input)] + after).value;
            && Pending(s, b) && Realized(s, b) && (Prompting(s.c) ==> CarriedOut(s, b))
            && b.ids[0] in s.c.stdoutPipes && b.ids[1] in s.c.stderrPipes
  {
    hide Invariant, Next, Enabled, Read, Realized, Submits, Wires, Queries, CarriedOut;
    var prompted := before + [Prompt(input)];
    SentGrows(aliases, prompted, after);
    assert prompted[..|before|] == before;
    Safe(aliases, before);
    Safe(aliases, prompted + after);
    var s0, s1 := Played(aliases, before).value, Played(aliases, prompted).value;
    var s := Played(aliases, prompted + after).value;
    AliasesStay(aliases, before);
    b := PromptSubmits(s0, input);
    SubmittedSent(Settle(s0.c).value, s1.c, Read(aliases, input).value.steps, b);
    SentIsRealized(s, b);
    if Prompting(s.c) { PromptCompletes(s, b); }
  }

  lemma SubmittedSent(c: Client, d: Client, steps: seq<Step>, b: Submission)
    requires Submits(c, d, steps, b)
    ensures (forall r :: r in b.line ==> r in d.sent) && b.query in d.sent && b.query.BeginCommand?
    ensures |b.ids| >= 2 && Distinct(b.ids) && Wires(steps, b.ids, b.line)
    ensures b.ids[0] in d.stdoutPipes && b.ids[1] in d.stderrPipes
    ensures Queries(b.query, Pids(b.line), b.query.cmd.pipes.stdout, b.query.cmd.pipes.stderr)
  {
    hide Wires, Queries;
    assert b.query == d.sent[|c.sent| + |b.line|];
  }

  lemma {:induction false} AliasesStay(aliases: seq<Prefs.Rule>, moves: seq<Move>)
    requires Played(aliases, moves).Returned?
    ensures Played(aliases, moves).value.aliases == aliases
  {
    if moves != [] {
      AliasesStay(aliases, moves[..|moves| - 1]);
      AliasesByMove(Played(aliases, moves[..|moves| - 1]).value, moves[|moves| - 1]);
    }
  }

  lemma AliasesByMove(s: System, m: Move)
    requires s.taken <= |s.c.sent| && Enabled(s, m) && Next(s, m).Returned?
    ensures Next(s, m).value.aliases == s.aliases
  {
    hide Issue, Receive, Dispatch, Deliver, Schedule.Runnable, Schedule.Running;
  }

  /** The request of one step of a plan. */
  lemma {:induction false} StepSent(steps: seq<Step>, ids: seq<PipeId>, line: seq<Request>, n: nat) returns (r: Request)
    requires Wires(steps, ids, line) && n < |steps| && steps[n].Remote? && steps[n].step.Run?
    ensures var p := steps[n].step.process;
            && p.stdin < |ids| && p.stdout < |ids| && p.stderr < |ids|
            && r in line && StartsOn(r, steps[n].step.cmd, ids[p.stdin], ids[p.stdout], ids[p.stderr])
    decreases |steps|
  {
    hide StartsOn;
    var rest, last := steps[..|steps| - 1], steps[|steps| - 1];
    if n == |steps| - 1 {
      r := line[|line| - 1];
    } else {
      match last {
        case Pipe => r := StepSent(rest, ids[..|ids| - 1], line, n);
        case Remote(_, OpenOutputFile(_)) => r := StepSent(rest, ids[..|ids| - 1], line[..|line| - 1], n);
        case Remote(_, Run(_, _)) => r := StepSent(rest, ids, line[..|line| - 1], n);
      }
    }
  }

  /** Two steps of which one's output, or errors, is the other's input: once both processes have
      started they hold the two ends of one pipe. */
  lemma StepsConnected(s: System, steps: seq<Step>, b: Submission, m: nat, n: nat) returns (w: Request, r: Request)
    requires Wires(steps, b.ids, b.line) && Realized(s, b) && m < |steps| && n < |steps|
    requires steps[m].Remote? && steps[m].step.Run? && steps[n].Remote? && steps[n].step.Run?
    requires var (x, y) := (steps[m].step.process, steps[n].step.process); y.stdin == x.stdout || y.stdin == x.stderr
    ensures w in b.line && w.BeginCommand? && w.cmd.cmd == steps[m].step.cmd
    ensures r in b.line && r.BeginCommand? && r.cmd.cmd == steps[n].step.cmd
    ensures steps[n].step.cmd.Unknown? && Begun(s, w.pid) && Begun(s, r.pid)
              && !(steps[m].step.cmd.Edit? && w.pid in s.b.sched.started) ==>
              && steps[n].step.process.stdin < |b.ids| && Connected(s.past, b.ids[steps[n].step.process.stdin])
              && (w.cmd.cmd.Unknown? ==> Piped(s, w, r, b.ids[steps[n].step.process.stdin]))
  {
    hide Wires, Begun, Connected, IntoFile, Piped, Filed, Reported;
    w := StepSent(steps, b.ids, b.line, m);
    r := StepSent(steps, b.ids, b.line, n);
    var id := b.ids[steps[n].step.process.stdin];
    if !(steps[m].step.cmd.Edit? && w.pid in s.b.sched.started) && steps[n].step.cmd.Unknown? {
      assert Writes(s, w, id) && ReadsFrom(r, id);
      if Begun(s, w.pid) && Begun(s, r.pid) { assert Joins(s, w, r, id); }
    }
  }
}
