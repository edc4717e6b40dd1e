// Runs that type a command line and end where the program does not do what it is for.

module SystemReached {
  import opened Protocol
  import opened Scheduling
  import opened ScheduleLemmas
  import opened Driver
  import opened ClientSide
  import opened Compiler
  import opened Interpretation
  import opened Parsing
  import opened Plans
  import opened Reading
  import opened Requests
  import opened Syntax
  import opened System
  import opened SystemDepartures
  import opened SystemMoves
  import opened SystemPrompts
  import opened SystemRuns
  import opened SystemWiring
  import DriverLemmas
  import Pipes
  import Prefs
  import Rendering
  import SystemCommands
  import SystemProgress
  import Utf8

  // --- Typing a line ---

  lemma {:induction false} AsciiIsText(s: string)
    requires forall c :: c in s ==> Utf8.Ascii(c)
    ensures Utf8.WellFormed(s)
  {
    if s != [] {
      assert s[0] in s;
      AsciiIsText(s[1..]);
    }
  }

  /** The run that starts the system and types `line`: the plan's requests are sent. */
  lemma Typed(line: string) returns (moves: seq<Move>, s: System, b: Submission)
    requires Read([], Text(line)).Ok? && forall c :: c in line ==> Utf8.Ascii(c)
    ensures Legal([], moves) && Played([], moves) == Returned(s) && s.b == NewBackend() && s.taken == 0 && !s.over
    ensures b.line <= s.c.sent && |b.line| < |s.c.sent|
    ensures Wires(Read([], Text(line)).value.steps, b.ids, b.line)
  {
    hide Invariant, Read, Wires, Line, Schedule.Running, Legal, Played, Receive, Dispatch, Submits;
    var m := Arrive(true);
    var s0 := NewSystem([]);
    EmptyRun();
    assert s0.outbox == [RemoteReady] && Deliver(s0.c, RemoteReady, true).Returned?;
    SystemProgress.LegalStep([], [], m);
    var s1 := Next(s0, m).value;
    assert Prompting(s1.c) && s1.b == NewBackend() && s1.c.sent == [] && s1.c.cwdFor == map[];
    var typing := Prompt(Text(line));
    AsciiIsText(line);
    Safe([], [m]);
    ReadsWell([], Text(line));
    SystemProgress.LegalStep([], [m], typing);
    MoveSafe(s1, typing);
    b := PromptSubmits(s1, Text(line));
    s := Next(s1, typing).value;
    moves := [m] + [typing];
    LineFirst(Settle(s1.c).value, s.c, Read([], Text(line)).value.steps, b);
  }

  lemma LineFirst(c: Client, d: Client, steps: seq<Step>, b: Submission)
    requires Submits(c, d, steps, b) && c.sent == []
    ensures b.line <= d.sent && |b.line| < |d.sent| && Wires(steps, b.ids, b.line)
  {
    hide Wires, Queries, Pids;
    assert d.sent == b.line + d.sent[|b.line|..];
  }

  lemma EmptyRun()
    ensures Legal([], []) && Played([], []) == Returned(NewSystem([]))
  {
  }

  // How many of the steps send a request.
  function Sends(steps: seq<Step>): nat {
    if steps == [] then 0 else Sends(steps[..|steps| - 1]) + if steps[|steps| - 1].Pipe? then 0 else 1
  }

  /** The request of one step, at its place. */
  lemma {:induction false} RequestAt(steps: seq<Step>, ids: seq<PipeId>, line: seq<Request>, n: nat)
    requires Wires(steps, ids, line) && n < |steps| && steps[n].Remote?
    ensures |line| == Sends(steps) && Sends(steps[..n]) < |line|
    ensures var r := line[Sends(steps[..n])];
            match steps[n].step
            case OpenOutputFile(path) => r.OpenFile? && r.path == path
            case Run(cmd, p) =>
              && p.stdin < |ids| && p.stdout < |ids| && p.stderr < |ids|
              && StartsOn(r, cmd, ids[p.stdin], ids[p.stdout], ids[p.stderr])
            case _ => true
    decreases |steps|
  {
    hide StartsOn;
    var rest, last := steps[..|steps| - 1], steps[|steps| - 1];
    if n < |rest| { assert rest[..n] == steps[..n]; }
    match last {
      case Pipe => RequestAt(rest, ids[..|ids| - 1], line, n);
      case Remote(_, OpenOutputFile(_)) =>
        if n < |rest| {
          RequestAt(rest, ids[..|ids| - 1], line[..|line| - 1], n);
        } else {
          LineLength(rest, ids[..|ids| - 1], line[..|line| - 1]);
        }
      case Remote(_, Run(_, _)) =>
        if n < |rest| {
          RequestAt(rest, ids, line[..|line| - 1], n);
        } else {
          LineLength(rest, ids, line[..|line| - 1]);
        }
    }
  }

  lemma {:induction false} LineLength(steps: seq<Step>, ids: seq<PipeId>, line: seq<Request>)
    requires Wires(steps, ids, line)
    ensures |line| == Sends(steps)
    decreases |steps|
  {
    if steps != [] {
      var rest, last := steps[..|steps| - 1], steps[|steps| - 1];
      match last {
        case Pipe => LineLength(rest, ids[..|ids| - 1], line);
        case Remote(_, OpenOutputFile(_)) => LineLength(rest, ids[..|ids| - 1], line[..|line| - 1]);
        case Remote(_, Run(_, _)) => LineLength(rest, ids, line[..|line| - 1]);
      }
    }
  }

  // --- Letting the backend go on ---

  /** The backend takes the next command, which depends on nothing, and it becomes runnable. */
  lemma Taken(moves: seq<Move>, s: System) returns (after: seq<Move>, t: System)
    requires Legal([], moves) && Played([], moves) == Returned(s) && !s.over && s.taken < |s.c.sent|
    requires s.c.sent[s.taken].BeginCommand? && s.c.sent[s.taken].blockFor == map[] && s.b.sched.Runnable() == {}
    ensures Legal([], after) && Played([], after) == Returned(t) && t.c == s.c && t.taken == s.taken + 1 && !t.over
    ensures var r := s.c.sent[s.taken];
            && t.b.sched == s.b.sched.Add(r.pid, Job(r.cmd, map[])) && r.pid !in s.b.sched.jobs
            && s.b.sched.WellFormed() && t.b.sched.Runnable() == {r.pid}
  {
    hide Legal, Played, Edits, Exits, Linked, Streams, Output, Placed, Began, Genuine, Equipped, Logged, Results,
         Gathers, Directory, Greeting, Commands, Schedule.Runnable, Schedule.WellFormed, Mismatched, News;
    Safe([], moves);
    SystemCommands.EnqueueKeeps(s.c, s.taken, s.b.sched, s.outbox);
    SystemCommands.CommandsSane(s.c, s.taken, s.b.sched, s.outbox);
    var m, r := TakeRequest(true), s.c.sent[s.taken];
    SystemProgress.LegalStep([], moves, m);
    after, t := moves + [m], Next(s, m).value;
    AddRunnable(s.b.sched, r.pid, Job(r.cmd, map[]));
  }

  /** The backend starts the only runnable process, a program or an edit, and the system agrees. */
  lemma LeavesRunning(moves: seq<Move>, s: System, p: Pid) returns (after: seq<Move>, t: System)
    requires Legal([], moves) && Played([], moves) == Returned(s) && !s.over && s.b.sched.Runnable() == {p}
    requires p in s.b.sched.jobs && (s.b.sched.jobs[p].cmd.cmd.Unknown? || s.b.sched.jobs[p].cmd.cmd.Edit?)
    ensures Legal([], after) && Played([], after) == Returned(t) && t.c == s.c && t.taken == s.taken && !t.over
    ensures t.b.sched.Runnable() == {} && t.b.sched.jobs == s.b.sched.jobs && t.b.sched.done == s.b.sched.done
    ensures t.b.sched.started.Keys == s.b.sched.started.Keys + {p}
  {
    hide Invariant, Legal, Played, Schedule.Runnable, Dispatch, OpsOf, News;
    Safe([], moves);
    InboxExists(s);
    var m := Launch(p, true, []);
    SystemProgress.LegalStep([], moves, m);
    MoveSafe(s, m);
    after, t := moves + [m], Next(s, m).value;
    LeftRunning(s.b, p);
  }

  lemma LeftRunning(b: Backend, p: Pid)
    requires p in b.sched.Runnable() && Dispatch(b, p, true, []).Returned?
    requires b.sched.jobs[p].cmd.cmd.Unknown? || b.sched.jobs[p].cmd.cmd.Edit?
    ensures var after := Dispatch(b, p, true, []).value.sched;
            && after.Runnable() == b.sched.Runnable() - {p}
            && after.jobs == b.sched.jobs && after.done == b.sched.done
            && after.started.Keys == b.sched.started.Keys + {p}
  {
    hide PerformOps, OpsOf, Schedule.Runnable;
    DriverLemmas.RunnableFacts(b.sched, p);
    var state := if b.sched.jobs[p].cmd.cmd.Edit? then AwaitingEdit else Spawned;
    assert Dispatch(b, p, true, []).value.sched == b.sched.Begin(p, state);
    BeginTables(b.sched, p, state);
  }

  // --- A command that cannot be spawned ---

  lemma OneCommandPlan()
    ensures var read := Read([], Text("a"));
            && read.Ok?
            && read.value.steps == [Pipe, Pipe, Pipe] + [Remote(0, Run(Unknown("a", []), PlanProcess(0, 2, 0, 1)))]
  {
    hide Word, Words, OneCommand, Steps, Clauses;
    OneWordHere("a", "");
    NoBlank("");
    assert "a" == "a" + "";
    ClausesStep("");
    StepsStep("");
    assert Line("a") == Fine(Simple(Cmd(None, ["a"])), "");
    CompiledOne();
  }

  lemma ConvertsPlain(word: string)
    requires word != "cd" && word != "micro" && word != "nak"
    ensures ConvertSingle([], Cmd(None, [word])) == Ok(Unknown(word, []))
  {
    assert Prefs.Expanded([], [word]) == Returned([word]);
    assert [word][1..] == [];
  }

  lemma CompiledOne()
    ensures var plan := Compiled([], 0, Simple(Cmd(None, ["a"])));
            && plan.Ok?
            && plan.value.steps == [Pipe, Pipe, Pipe] + [Remote(0, Run(Unknown("a", []), PlanProcess(0, 2, 0, 1)))]
  {
    ConvertsPlain("a");
    var b := NEW_BUILDER.WithPipe().WithPipe();
    assert b.plan.steps == [Pipe, Pipe] && |b.ends| == 2;
    assert b.WithPipe().plan.steps == [Pipe, Pipe, Pipe];
  }

  lemma PipesSendNothing(steps: seq<Step>, n: nat)
    requires n <= 3 && n <= |steps| && forall k :: 0 <= k < n ==> steps[k].Pipe?
    ensures Sends(steps[..n]) == 0
  {
    if n > 0 {
      assert steps[..n][..n - 1] == steps[..n - 1];
      PipesSendNothing(steps, n - 1);
    }
  }

  /** Typing `a` where no such program exists: the backend panics. */
  lemma SpawnFailureReached() returns (moves: seq<Move>)
    ensures Legal([], moves) && Played([], moves).Panicked?
    ensures moves != [] && moves[|moves| - 1].Launch?
    ensures Refused(Played([], moves[..|moves| - 1]).value, moves[|moves| - 1])
  {
    hide Invariant, Read, Wires, Legal, Played, Schedule.Runnable;
    var s, b;
    OneCommandPlan();
    moves, s, b := Typed("a");
    var steps := Read([], Text("a")).value.steps;
    PipesSendNothing(steps, 3);
    RequestAt(steps, b.ids, b.line, 3);
    assert s.c.sent[0] == b.line[0];
    NothingRuns();
    moves, s := Taken(moves, s);
    var last := Launch(s.c.sent[0].pid, false, []);
    SystemProgress.LegalStep([], moves, last);
    Safe([], moves + [last]);
    assert (moves + [last])[..|moves|] == moves;
    moves := moves + [last];
  }

  lemma NothingRuns()
    ensures NewBackend().sched.Runnable() == {}
  {
  }

  // --- A file that cannot be opened ---

  lemma FileLine()
    ensures Line("a > f") == Fine(Redirect(Simple(Cmd(None, ["a"])), [RedirectClause(Stream.Stdout, File("f"))]), "")
  {
    hide Word, Words, OneCommand, Steps, Clauses, SkipBlanks;
    var s := "a > f";
    assert s == "a" + " > f" && " > f" == " " + "> f" && " f" == " " + "f" && "f" == "f" + "";
    OneWordHere("a", " > f");
    Rendering.SkipOne("> f");
    NoBlank("> f");
    WordHere("f", "");
    Rendering.SkipOne("f");
    ClausesStep("> f");
    ClausesStep("");
    StepsStep("");
    NoBlank("");
    assert "> f"[1..] == " f";
    var clause := RedirectClause(Stream.Stdout, File("f"));
    assert [clause] + [] == [clause];
  }

  lemma FilePlan()
    ensures var read := Read([], Text("a > f"));
            && read.Ok? && |read.value.steps| == 6
            && read.value.steps[..2] == [Pipe, Pipe] && read.value.steps[2] == Remote(0, RemoteStep.OpenOutputFile("f"))
  {
    hide Line;
    FileLine();
    ConvertsPlain("a");
    var ast := Redirect(Simple(Cmd(None, ["a"])), [RedirectClause(Stream.Stdout, File("f"))]);
    var b := NEW_BUILDER.WithPipe().WithPipe();
    assert b.plan.steps == [Pipe, Pipe] && |b.ends| == 2;
    var c := b.WithFile(0, "f");
    assert ConvertTarget([], 0, ast, File("f"), b, 0, 1) == Ok((c, 2));
    var d := c.WithPipe();
    assert ConvertFrom([], 0, ast, 1, b, 0, 1) == ConvertFrom([], 0, ast, 0, d, 2, 3);
    assert ConvertFrom([], 0, ast, 0, d, 2, 3) == Convert([], 0, ast.head, d, 2, 3);
    var e := d.WithPipe().WithCommand(0, Unknown("a", []), 4, 2, 3);
    assert Convert([], 0, ast.head, d, 2, 3) == Ok((e, 4));
    assert e.plan.steps[..3] == [Pipe, Pipe] + [Remote(0, RemoteStep.OpenOutputFile("f"))];
    assert e.plan.steps[..2] == e.plan.steps[..3][..2];
  }

  /** Typing `a > f` where the file cannot be made: the backend panics. */
  lemma OpenRefusedReached() returns (moves: seq<Move>)
    ensures Legal([], moves) && Played([], moves).Panicked?
    ensures moves != [] && moves[|moves| - 1] == TakeRequest(false)
    ensures Refused(Played([], moves[..|moves| - 1]).value, moves[|moves| - 1])
  {
    hide Invariant, Read, Wires, Legal, Played, Schedule.Runnable;
    var s, b;
    FilePlan();
    moves, s, b := Typed("a > f");
    var steps := Read([], Text("a > f")).value.steps;
    PipesSendNothing(steps, 2);
    RequestAt(steps, b.ids, b.line, 2);
    assert s.c.sent[0] == b.line[0];
    NothingRuns();
    var last := TakeRequest(false);
    SystemProgress.LegalStep([], moves, last);
    Safe([], moves + [last]);
    assert (moves + [last])[..|moves|] == moves;
    moves := moves + [last];
  }

  // --- An edit whose output is read ---

  lemma EditLine()
    ensures Line("micro f | cat") == Fine(Redirect(Simple(Cmd(None, ["micro", "f"])), [IntoCat()]), "")
  {
    hide Word, Words, OneCommand, Steps, Clauses, SkipBlanks, IntoCat;
    var s := "micro f | cat";
    assert s == "micro" + " f | cat" && " f | cat" == " " + "f" + " | cat" && " | cat" == " " + "| cat";
    WordHere("micro", " f | cat");
    OneWordHere("f", " | cat");
    Rendering.SkipOne("| cat");
    NoBlank("| cat");
    assert ["micro"] + ["f"] == ["micro", "f"];
    CommandHere(s, "micro", " f | cat", ["f"], "| cat");
    CatClauses();
    StepsStep("");
    NoBlank("");
  }

  function IntoCat(): RedirectClause {
    RedirectClause(Stream.Stdout, Into(Simple(Cmd(None, ["cat"]))))
  }

  lemma CatClauses()
    ensures Clauses("| cat") == Fine([IntoCat()], "")
  {
    hide Word, Words, OneCommand, Clauses, SkipBlanks;
    assert "| cat"[1..] == " cat" && " cat" == " " + "cat" && "cat" == "cat" + "";
    NoBlank("| cat");
    OneWordHere("cat", "");
    Rendering.SkipOne("cat");
    ClausesStep("| cat");
    ClausesStep("");
    NoBlank("");
    assert [IntoCat()] + [] == [IntoCat()];
  }

  lemma CommandHere(s: string, w: string, rest: string, ws: seq<string>, left: string)
    requires Word(s) == Fine(w, rest) && Words(rest) == Fine(ws, left)
    ensures OneCommand(s) == Fine(Cmd(None, [w] + ws), left)
  {
  }

  lemma EditPlan()
    ensures var read := Read([], Text("micro f | cat"));
            && read.Ok?
            && read.value.steps == [Pipe, Pipe, Pipe, Remote(0, Run(Unknown("cat", []), PlanProcess(0, 2, 0, 1))),
                                    Pipe, Pipe, Remote(0, Run(Edit("f"), PlanProcess(1, 4, 2, 3)))]
  {
    hide Line, Compiled;
    EditLine();
    EditCompiled();
  }

  lemma EditCompiled()
    ensures var plan := Compiled([], 0, Redirect(Simple(Cmd(None, ["micro", "f"])), [IntoCat()]));
            && plan.Ok?
            && plan.value.steps == [Pipe, Pipe, Pipe, Remote(0, Run(Unknown("cat", []), PlanProcess(0, 2, 0, 1))),
                                    Pipe, Pipe, Remote(0, Run(Edit("f"), PlanProcess(1, 4, 2, 3)))]
  {
    hide ConvertSingle;
    ConvertsPlain("cat");
    ConvertsEdit();
    var cat := Simple(Cmd(None, ["cat"]));
    var ast := Redirect(Simple(Cmd(None, ["micro", "f"])), [IntoCat()]);
    var b := NEW_BUILDER.WithPipe().WithPipe();
    assert b.plan.steps == [Pipe, Pipe] && |b.ends| == 2;
    var c := b.WithPipe().WithCommand(0, Unknown("cat", []), 2, 0, 1);
    var target := ast.clauses[0].target;
    assert target.ast < ast;
    assert ConvertTarget([], 0, ast, target, b, 0, 1) == Ok((c, 2));
    var d := c.WithPipe();
    assert ConvertFrom([], 0, ast, 1, b, 0, 1) == ConvertFrom([], 0, ast, 0, d, 2, 3);
    assert ConvertFrom([], 0, ast, 0, d, 2, 3) == Convert([], 0, ast.head, d, 2, 3);
    var e := d.WithPipe().WithCommand(0, Edit("f"), 4, 2, 3);
    assert Convert([], 0, ast.head, d, 2, 3) == Ok((e, 4));
  }

  lemma ConvertsEdit()
    ensures ConvertSingle([], Cmd(None, ["micro", "f"])) == Ok(Edit("f"))
  {
    assert Prefs.Expanded([], ["micro", "f"]) == Returned(["micro", "f"]);
    assert ["micro", "f"][1..] == ["f"];
  }

  // `w` is `cat`, left running, and `r` the edit that was begun, of the same line.
  ghost predicate EditFeedsCat(s: System, r: Request, w: Request) {
    && r in s.c.sent && r.BeginCommand? && r.cmd.cmd == Edit("f") && r.pid in s.b.sched.started
    && w in s.c.sent && w.BeginCommand? && w.cmd.cmd == Unknown("cat", []) && w.pid in s.b.sched.started
    && r.cmd.pipes.stdout == w.cmd.pipes.stdin
  }

  /** Typing `micro f | cat`: however the run goes on once both have started, the pipe that `cat`
      reads does not flow, so that `cat` sees neither data nor an end. */
  lemma EditParksReached() returns (moves: seq<Move>, r: Request, w: Request)
    ensures Legal([], moves) && Played([], moves).Returned? && EditFeedsCat(Played([], moves).value, r, w)
    ensures forall more :: Legal([], moves + more) && Played([], moves + more).Returned? ==>
              EditFeedsCat(Played([], moves + more).value, r, w)
              && !Flows(Played([], moves + more).value.b.pipes, w.cmd.pipes.stdin)
  {
    hide Invariant, Read, Wires, Legal, Played, Schedule.Runnable, Flows, Schedule.WellFormed;
    var s, b;
    EditPlan();
    moves, s, b := Typed("micro f | cat");
    w, r := EditRequests(Read([], Text("micro f | cat")).value.steps, b);
    assert s.c.sent[0] == w && s.c.sent[1] == r;
    NothingRuns();
    moves, s := Taken(moves, s);
    moves, s := LeavesRunning(moves, s, w.pid);
    moves, s := Taken(moves, s);
    moves, s := LeavesRunning(moves, s, r.pid);
    forall more | Legal([], moves + more) && Played([], moves + more).Returned?
      ensures EditFeedsCat(Played([], moves + more).value, r, w)
      ensures !Flows(Played([], moves + more).value.b.pipes, w.cmd.pipes.stdin)
    {
      var t := Played([], moves + more).value;
      SentGrows([], moves, more);
      StartedStays([], moves, more);
      OutputsFlow([], moves + more, t, r);
    }
  }

  lemma EditRequests(steps: seq<Step>, b: Submission) returns (w: Request, r: Request)
    requires steps == [Pipe, Pipe, Pipe, Remote(0, Run(Unknown("cat", []), PlanProcess(0, 2, 0, 1))),
                       Pipe, Pipe, Remote(0, Run(Edit("f"), PlanProcess(1, 4, 2, 3)))]
    requires Wires(steps, b.ids, b.line)
    ensures |b.line| >= 2 && b.line[0] == w && b.line[1] == r
    ensures r.BeginCommand? && r.blockFor == map[] && r.cmd.cmd == Edit("f")
    ensures w.BeginCommand? && w.blockFor == map[] && w.cmd.cmd == Unknown("cat", [])
    ensures r.cmd.pipes.stdout == w.cmd.pipes.stdin
  {
    hide Wires;
    PipesSendNothing(steps, 3);
    assert steps[..4][..3] == steps[..3] && steps[..5][..4] == steps[..4] && steps[..6][..5] == steps[..5];
    assert Sends(steps[..4]) == 1 && Sends(steps[..5]) == 1 && Sends(steps[..6]) == 1;
    RequestAt(steps, b.ids, b.line, 3);
    RequestAt(steps, b.ids, b.line, 6);
    w, r := b.line[0], b.line[1];
  }

  lemma {:induction false} StartedStays(aliases: seq<Prefs.Rule>, before: seq<Move>, after: seq<Move>)
    requires Legal(aliases, before + after) && Played(aliases, before + after).Returned?
    ensures Played(aliases, before).Returned?
    ensures Played(aliases, before).value.b.sched.started.Keys
         <= Played(aliases, before + after).value.b.sched.started.Keys
    decreases after
  {
    hide Next, Enabled;
    if after == [] {
      assert before + after == before;
    } else {
      var rest, m := after[..|after| - 1], after[|after| - 1];
      assert (before + after)[..|before + after| - 1] == before + rest && (before + after)[|before + after| - 1] == m;
      StartedStays(aliases, before, rest);
      StartedByMove(Played(aliases, before + rest).value, m);
    }
  }

  lemma StartedByMove(s: System, m: Move)
    requires s.taken <= |s.c.sent| && Enabled(s, m) && Next(s, m).Returned?
    ensures s.b.sched.started.Keys <= Next(s, m).value.b.sched.started.Keys
  {
    hide Issue, Deliver, News, Receive, Dispatch, OpsOf, Schedule.Runnable, Schedule.Running;
    match m {
      case TakeRequest(ok) =>
        if EventOf(s.c.sent[s.taken]).Some? { StartedByEvent(s.b, EventOf(s.c.sent[s.taken]).value, ok); }
      case TakeLocal => StartedByEvent(s.b, s.local[0], true);
      case Launch(p, ok, text) => StartedByLaunch(s.b, p, ok, text);
      case _ =>
    }
  }

  lemma StartedByEvent(b: Backend, e: Event, ok: bool)
    requires Receive(b, e, ok).Returned?
    ensures b.sched.started.Keys <= Receive(b, e, ok).value.sched.started.Keys
  {
    hide Pipes.Perform, Schedule.Contradicts, Schedule.Running, Mismatched;
  }

  lemma StartedByLaunch(b: Backend, p: Pid, ok: bool, text: Bytes)
    requires p in b.sched.Runnable() && Dispatch(b, p, ok, text).Returned?
    ensures b.sched.started.Keys <= Dispatch(b, p, ok, text).value.sched.started.Keys
  {
    hide PerformOps, OpsOf, Schedule.Contradicts, Schedule.Runnable;
  }
}
