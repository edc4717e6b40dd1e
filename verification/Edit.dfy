// The command compiler (frontend/src/edit.rs): from syntax to a plan.

module Compiler {
  import opened Protocol
  import opened Syntax
  import opened Plans
  import Prefs

  // A compilation can also end in a reported error or a panic.
  datatype Try<+T> = Ok(value: T) | Err(message: string) | Panic

  function CheckSingleArg(items: seq<string>): Try<string> {
    if items == [] then Err("not enough args")
    else if |items| == 1 then Ok(items[0])
    else Err("bad too many args")
  }

  /** One command after alias expansion: a built-in, an editor request, or a program to run. */
  function ConvertSingle(aliases: seq<Prefs.Rule>, cmd: Cmd): Try<Command> {
    match Prefs.Expanded(aliases, cmd.words)
    case Panicked => Panic
    case Returned(items) =>
      if items == [] then Panic // unwrap
      else if items[0] == "cd" then
        match CheckSingleArg(items[1..])
        case Ok(dir) => Ok(Command.SetDirectory(dir))
        case Err(m) => Err(m)
        case Panic => Panic
      else if items[0] == "micro" then
        match CheckSingleArg(items[1..])
        case Ok(file) => Ok(Command.Edit(file))
        case Err(m) => Err(m)
        case Panic => Panic
      else if items[0] == "nak" then Panic
      else Ok(Command.Unknown(items[0], items[1..]))
  }

  /** Both pipes are different and can still be written to. */
  predicate Writable(b: Builder, stdout: nat, stderr: nat) {
    stdout != stderr && stdout < |b.ends| && stderr < |b.ends| && b.ends[stdout].1 && b.ends[stderr].1
  }

  /** `c` continues `b`: older read ends are untouched, and of the older write ends only those given away are used. */
  ghost predicate Continues(b: Builder, c: Builder, stdout: nat, stderr: nat) {
    && |b.ends| <= |c.ends|
    && b.plan.steps <= c.plan.steps
    && c.plan == b.plan.(steps := c.plan.steps)
    && (forall k :: 0 <= k < |b.ends| ==> c.ends[k].0 == b.ends[k].0)
    && (forall k :: 0 <= k < |b.ends| && k != stdout && k != stderr ==> c.ends[k].1 == b.ends[k].1)
  }

  /** The pipe that feeds what was compiled: a new one, or `stdout` itself, and still to be written. */
  ghost predicate Feeds(b: Builder, c: Builder, stdout: nat, stdin: nat) {
    stdin < |c.ends| && c.ends[stdin].1 && (stdin == stdout || |b.ends| <= stdin)
  }

  /** Compiles `ast` so that it writes to `stdout` and `stderr`; answers the pipe it reads. */
  function Convert(aliases: seq<Prefs.Rule>, remote: nat, ast: Ast, b: Builder, stdout: nat, stderr: nat)
    : (r: Try<(Builder, nat)>)
    requires Writable(b, stdout, stderr)
    ensures r.Ok? ==> Continues(b, r.value.0, stdout, stderr) && Feeds(b, r.value.0, stdout, r.value.1)
    decreases ast, 0
  {
    match ast
    case Empty => Ok((b, stdout))
    case Simple(cmd) =>
      (match ConvertSingle(aliases, cmd)
       case Ok(c) => Ok((b.WithPipe().WithCommand(remote, c, |b.ends|, stdout, stderr), |b.ends|))
       case Err(m) => Err(m)
       case Panic => Panic)
    case Sequence(_, _) => Panic
    case Redirect(head, clauses) => ConvertFrom(aliases, remote, ast, |clauses|, b, stdout, stderr)
  }

  function ConvertTarget(aliases: seq<Prefs.Rule>, remote: nat, ghost whole: Ast, target: Target, b: Builder,
                         stdout: nat, stderr: nat)
    : (r: Try<(Builder, nat)>)
    requires Writable(b, stdout, stderr) && (target.Into? ==> target.ast < whole)
    ensures r.Ok? ==> Continues(b, r.value.0, stdout, stderr) && Feeds(b, r.value.0, stdout, r.value.1)
    decreases whole, 0, 0
  {
    match target
    case File(path) => Ok((b.WithFile(remote, path), |b.ends|))
    case Into(ast) => Convert(aliases, remote, ast, b, stdout, stderr)
  }

  /** The first `n` clauses of the redirection `ast`, last one first, and then its head. */
  function ConvertFrom(aliases: seq<Prefs.Rule>, remote: nat, ast: Ast, n: nat, b: Builder, stdout: nat, stderr: nat)
    : (r: Try<(Builder, nat)>)
    requires ast.Redirect? && n <= |ast.clauses| && Writable(b, stdout, stderr)
    ensures r.Ok? ==> Continues(b, r.value.0, stdout, stderr) && Feeds(b, r.value.0, stdout, r.value.1)
    decreases ast, 0, n + 1
  {
    if n == 0 then Convert(aliases, remote, ast.head, b, stdout, stderr)
    else
      var clause := ast.clauses[n - 1];
      match ConvertTarget(aliases, remote, ast, clause.target, b, stdout, stderr)
      case Err(m) => Err(m)
      case Panic => Panic
      case Ok((c, stdin)) =>
        match clause.stream
        case Stdout => ConvertFrom(aliases, remote, ast, n - 1, c.WithPipe(), stdin, |c.ends|)
        case Stderr => ConvertFrom(aliases, remote, ast, n - 1, c.WithPipe(), |c.ends|, stdin)
  }

  method ConvertAst(aliases: seq<Prefs.Rule>, remote: nat, ast: Ast, plan: PlanBuilder, stdout0: nat, stderr0: nat)
    returns (out: Try<nat>)
    requires plan.Valid() && Writable(plan.View(), stdout0, stderr0)
    modifies plan, plan.procIds
    ensures plan.Valid()
    ensures match Convert(aliases, remote, ast, old(plan.View()), stdout0, stderr0)
            case Ok((b, stdin)) => out == Ok(stdin) && plan.View() == b
            case Err(m) => out == Err(m)
            case Panic => out == Panic
    decreases ast, 0
  {
    hide EndsAfter;
    var stdout, stderr := stdout0, stderr0;
    match ast {
      case Empty =>
        out := Ok(stdout);
      case Simple(cmd) =>
        var stdin := plan.AddPipe();
        match ConvertSingle(aliases, cmd) {
          case Ok(c) =>
            plan.AddCommand(remote, c, stdin, stdout, stderr);
            out := Ok(stdin);
          case Err(m) => out := Err(m);
          case Panic => out := Panic;
        }
      case Sequence(_, _) =>
        out := Panic;
      case Redirect(head, clauses) =>
        var n := |clauses|;
        while n > 0
          invariant 0 <= n <= |clauses| && plan.Valid() && Writable(plan.View(), stdout, stderr)
          invariant ConvertFrom(aliases, remote, ast, n, plan.View(), stdout, stderr)
                 == Convert(aliases, remote, ast, old(plan.View()), stdout0, stderr0)
        {
          n := n - 1;
          var target := OpenTarget(aliases, remote, ast, clauses[n].target, plan, stdout, stderr);
          if !target.Ok? {
            return target;
          }
          var stdin := target.value;
          match clauses[n].stream {
            case Stdout =>
              stdout := stdin;
              stderr := plan.AddPipe();
            case Stderr =>
              stderr := stdin;
              stdout := plan.AddPipe();
          }
        }
        out := ConvertAst(aliases, remote, head, plan, stdout, stderr);
    }
  }

  // Where a redirection goes: a file to open, or another command line to compile.
  method OpenTarget(aliases: seq<Prefs.Rule>, remote: nat, ghost whole: Ast, target: Target, plan: PlanBuilder,
                    stdout: nat, stderr: nat)
    returns (out: Try<nat>)
    requires plan.Valid() && Writable(plan.View(), stdout, stderr) && (target.Into? ==> target.ast < whole)
    modifies plan, plan.procIds
    ensures plan.Valid()
    ensures match ConvertTarget(aliases, remote, whole, target, old(plan.View()), stdout, stderr)
            case Ok((b, stdin)) => out == Ok(stdin) && plan.View() == b
            case Err(m) => out == Err(m)
            case Panic => out == Panic
    decreases whole, 0, 0
  {
    hide EndsAfter;
    match target {
      case File(path) =>
        var stdin := plan.AddFileOutput(remote, path);
        out := Ok(stdin);
      case Into(ast) =>
        out := ConvertAst(aliases, remote, ast, plan, stdout, stderr);
    }
  }

  /** The plan for one command line that is already parsed (`parse_command_simple`). */
  function Compiled(aliases: seq<Prefs.Rule>, remote: nat, ast: Ast): Try<Plan> {
    var b := NEW_BUILDER.WithPipe().WithPipe();
    match Convert(aliases, remote, ast, b, 0, 1)
    case Err(m) => Err(m)
    case Panic => Panic
    case Ok((c, stdin)) => Ok(c.plan.(stdin := Some(stdin), sinkMap := [Some(Sink.Stdout), Some(Sink.Stderr)]))
  }

  method Compile(aliases: seq<Prefs.Rule>, remote: nat, ast: Ast) returns (out: Try<Plan>)
    ensures out == Compiled(aliases, remote, ast)
    ensures out.Ok? ==> EndsAfter(out.value.steps).Some?
  {
    hide Convert, EndsAfter, Builder.WithSink;
    var p := new PlanBuilder();
    var stdout := p.AddPipe();
    var stderr := p.AddPipe();
    ghost var b := p.View();
    var stdin := ConvertAst(aliases, remote, ast, p, stdout, stderr);
    match stdin {
      case Err(m) => out := Err(m);
      case Panic => out := Panic;
      case Ok(pipe) =>
        p.SetStdin(Some(pipe));
        OneSink(p.View(), stdout, Sink.Stdout);
        p.AddSink(stdout, Sink.Stdout);
        OneSink(p.View(), stderr, Sink.Stderr);
        p.AddSink(stderr, Sink.Stderr);
        assert p.plan.sinkMap == [Some(Sink.Stdout), Some(Sink.Stderr)];
        out := Ok(p.plan);
    }
  }

  /** The plan for an interrupted prompt. */
  const EMPTY_PLAN := Plan([Pipe, Pipe], Some(0), 0, 0, [Some(Sink.Stdout), Some(Sink.Stderr)])

  method EmptyPlan() returns (plan: Plan)
    ensures plan == EMPTY_PLAN
  {
    hide EndsAfter, Builder.WithSink;
    var b := new PlanBuilder();
    var stdout := b.AddPipe();
    b.SetStdin(Some(stdout));
    OneSink(b.View(), stdout, Sink.Stdout);
    b.AddSink(stdout, Sink.Stdout);
    var stderr := b.AddPipe();
    OneSink(b.View(), stderr, Sink.Stderr);
    b.AddSink(stderr, Sink.Stderr);
    plan := b.plan;
  }

  lemma OneSink(b: Builder, stream: nat, sink: Sink)
    requires stream == |b.plan.sinkMap|
    ensures b.WithSink(stream, sink) == b.(plan := b.plan.(sinkMap := b.plan.sinkMap + [Some(sink)]))
  {
    assert b.WithSink(stream, sink).plan.sinkMap == b.plan.sinkMap + [Some(sink)];
  }

  /** An interrupted prompt does what an empty line does. */
  lemma EmptyLine(aliases: seq<Prefs.Rule>, remote: nat)
    ensures Compiled(aliases, remote, Empty) == Ok(EMPTY_PLAN)
  {
    assert NEW_BUILDER.WithPipe().WithPipe().plan.steps == [Pipe, Pipe];
  }
}
