// What plans and command lines compute, with programs as stream functions, and the
// proof that the compiler preserves it.

module Meaning {
  import opened Protocol
  import opened Syntax
  import opened Plans
  import opened Compiler
  import Prefs

  // What a command writes to its two outputs, given all of its input.
  type Program = (Command, Bytes) -> (Bytes, Bytes)

  // The bytes written to each pipe of a plan.
  type Env = map<nat, Bytes>

  function Get(env: Env, pipe: nat): Bytes {
    if pipe in env then env[pipe] else []
  }

  /** One step, as far as data is concerned. */
  function Effect(step: Step, run: Program, env: Env): Env {
    match step
    case Remote(_, Run(cmd, p)) =>
      var (out, err) := run(cmd, Get(env, p.stdin));
      env[p.stdout := out][p.stderr := err]
    case _ => env
  }

  /** The data of a plan flows from its last step to its first: consumers are started first. */
  function Flow(steps: seq<Step>, run: Program, env: Env): Env {
    if steps == [] then env
    else Flow(steps[..|steps| - 1], run, Effect(steps[|steps| - 1], run, env))
  }

  function Allocates(step: Step): nat {
    match step
    case Pipe => 1
    case Remote(_, OpenOutputFile(_)) => 1
    case _ => 0
  }

  function Allocated(steps: seq<Step>): nat {
    if steps == [] then 0 else Allocates(steps[0]) + Allocated(steps[1..])
  }

  /** The files opened by `steps` and what was written to them; `first` is the next pipe number. */
  function FilesFrom(steps: seq<Step>, first: nat, env: Env): seq<(string, Bytes)> {
    if steps == [] then []
    else
      (match steps[0] case Remote(_, OpenOutputFile(path)) => [(path, Get(env, first))] case _ => [])
      + FilesFrom(steps[1..], first + Allocates(steps[0]), env)
  }

  datatype Streams = Streams(out: Bytes, err: Bytes, files: seq<(string, Bytes)>)

  /** Direct evaluation of a command line on `input`.  A redirection feeds one stream of
      what precedes it to its target; the other stream is lost. */
  ghost function Eval(aliases: seq<Prefs.Rule>, run: Program, ast: Ast, input: Bytes): Streams
    decreases ast, 0
  {
    match ast
    case Empty => Streams(input, [], [])
    case Simple(cmd) =>
      (match ConvertSingle(aliases, cmd)
       case Ok(c) => var (out, err) := run(c, input); Streams(out, err, [])
       case _ => Streams([], [], []))
    case Sequence(_, _) => Streams([], [], [])
    case Redirect(_, clauses) => EvalUpTo(aliases, run, ast, |clauses|, input)
  }

  /** The head of a redirection followed by its first `n` clauses. */
  ghost function EvalUpTo(aliases: seq<Prefs.Rule>, run: Program, ast: Ast, n: nat, input: Bytes): Streams
    requires ast.Redirect? && n <= |ast.clauses|
    decreases ast, 0, n + 1
  {
    if n == 0 then Eval(aliases, run, ast.head, input)
    else
      var before := EvalUpTo(aliases, run, ast, n - 1, input);
      var clause := ast.clauses[n - 1];
      var fed := if clause.stream.Stdout? then before.out else before.err;
      var after := EvalTarget(aliases, run, ast, clause.target, fed);
      after.(files := after.files + before.files)
  }

  ghost function EvalTarget(aliases: seq<Prefs.Rule>, run: Program, whole: Ast, target: Target, input: Bytes): Streams
    requires target.Into? ==> target.ast < whole
    decreases whole, 0, 0
  {
    match target
    case File(path) => Streams([], [], [(path, input)])
    case Into(ast) => Eval(aliases, run, ast, input)
  }

  ghost predicate Agree(a: Env, b: Env) {
    forall k: nat :: Get(a, k) == Get(b, k)
  }

  lemma EffectAgrees(step: Step, run: Program, a: Env, b: Env)
    requires Agree(a, b)
    ensures Agree(Effect(step, run, a), Effect(step, run, b))
  {
    match step {
      case Remote(_, Run(cmd, p)) =>
        assert Get(a, p.stdin) == Get(b, p.stdin);
        forall k: nat ensures Get(Effect(step, run, a), k) == Get(Effect(step, run, b), k) {
          assert Get(a, k) == Get(b, k);
        }
      case _ =>
    }
  }

  lemma {:induction false} FlowAgrees(steps: seq<Step>, run: Program, a: Env, b: Env)
    requires Agree(a, b)
    ensures Agree(Flow(steps, run, a), Flow(steps, run, b))
    decreases steps
  {
    if steps != [] {
      var last := steps[|steps| - 1];
      EffectAgrees(last, run, a, b);
      FlowAgrees(steps[..|steps| - 1], run, Effect(last, run, a), Effect(last, run, b));
    }
  }

  lemma {:induction false} FlowAppend(x: seq<Step>, y: seq<Step>, run: Program, env: Env)
    ensures Flow(x + y, run, env) == Flow(x, run, Flow(y, run, env))
    decreases y
  {
    if y == [] {
      assert x + y == x;
    } else {
      var rest, last := y[..|y| - 1], y[|y| - 1];
      assert (x + y)[..|x + y| - 1] == x + rest && (x + y)[|x + y| - 1] == last;
      FlowAppend(x, rest, run, Effect(last, run, env));
    }
  }

  lemma {:induction false} FilesAppend(x: seq<Step>, y: seq<Step>, first: nat, env: Env)
    ensures Allocated(x + y) == Allocated(x) + Allocated(y)
    ensures FilesFrom(x + y, first, env) == FilesFrom(x, first, env) + FilesFrom(y, first + Allocated(x), env)
    decreases x
  {
    if x == [] {
      assert x + y == y;
    } else {
      assert (x + y)[1..] == x[1..] + y;
      FilesAppend(x[1..], y, first + Allocates(x[0]), env);
    }
  }

  lemma {:induction false} FilesAgree(steps: seq<Step>, first: nat, a: Env, b: Env)
    requires forall k: nat :: first <= k < first + Allocated(steps) ==> Get(a, k) == Get(b, k)
    ensures FilesFrom(steps, first, a) == FilesFrom(steps, first, b)
    decreases steps
  {
    if steps != [] {
      FilesAgree(steps[1..], first + Allocates(steps[0]), a, b);
    }
  }

  /** The pipes that compiling from `b` to `c` may write: its own and the two it was given. */
  ghost predicate Inside(b: Builder, c: Builder, stdout: nat, stderr: nat, k: nat) {
    k == stdout || k == stderr || |b.ends| <= k < |c.ends|
  }

  ghost predicate Quiet(b: Builder, c: Builder, stdout: nat, stderr: nat, env: Env) {
    forall k: nat :: Inside(b, c, stdout, stderr, k) ==> Get(env, k) == []
  }

  function Added(b: Builder, c: Builder): seq<Step>
    requires b.plan.steps <= c.plan.steps
  {
    c.plan.steps[|b.plan.steps|..]
  }

  /** Running the steps added between `b` and `c`, with `input` on `stdin`, yields `s` and nothing else. */
  ghost predicate Yields(b: Builder, c: Builder, stdout: nat, stderr: nat, stdin: nat, run: Program, env: Env,
                         input: Bytes, s: Streams)
    requires b.plan.steps <= c.plan.steps
  {
    var final := Flow(Added(b, c), run, env[stdin := input]);
    && Get(final, stdout) == s.out
    && Get(final, stderr) == s.err
    && FilesFrom(Added(b, c), |b.ends|, final) == s.files
    && Allocated(Added(b, c)) == |c.ends| - |b.ends|
    && forall k: nat :: !Inside(b, c, stdout, stderr, k) ==> Get(final, k) == Get(env, k)
  }

  lemma {:induction false} ConvertCorrect(aliases: seq<Prefs.Rule>, remote: nat, run: Program, ast: Ast,
                                          b: Builder, stdout: nat, stderr: nat, env: Env, input: Bytes)
    requires Writable(b, stdout, stderr)
    requires Convert(aliases, remote, ast, b, stdout, stderr).Ok?
    requires Quiet(b, Convert(aliases, remote, ast, b, stdout, stderr).value.0, stdout, stderr, env)
    ensures var (c, stdin) := Convert(aliases, remote, ast, b, stdout, stderr).value;
            Yields(b, c, stdout, stderr, stdin, run, env, input, Eval(aliases, run, ast, input))
    decreases ast, 0
  {
    var (c, stdin) := Convert(aliases, remote, ast, b, stdout, stderr).value;
    match ast {
      case Empty =>
        assert Added(b, c) == [];
        assert Inside(b, c, stdout, stderr, stdout) && Inside(b, c, stdout, stderr, stderr);
      case Simple(cmd) =>
        SimpleCorrect(aliases, remote, run, cmd, b, stdout, stderr, env, input);
      case Redirect(_, clauses) =>
        ConvertFromCorrect(aliases, remote, run, ast, |clauses|, b, stdout, stderr, env, input);
    }
  }

  lemma FlowTwo(x: Step, y: Step, run: Program, env: Env)
    ensures Flow([x, y], run, env) == Effect(x, run, Effect(y, run, env))
  {
    assert [x, y][..1] == [x] && [x][..0] == [];
    assert Flow([x], run, Effect(y, run, env)) == Flow([], run, Effect(x, run, Effect(y, run, env)));
  }

  lemma FilesTwo(x: Step, y: Step, first: nat, env: Env)
    requires !(y.Remote? && y.step.OpenOutputFile?) && x.Pipe?
    ensures FilesFrom([x, y], first, env) == []
    ensures Allocated([x, y]) == 1 + Allocates(y)
  {
    assert [x, y][1..] == [y] && [y][1..] == [];
    assert FilesFrom([y], first + 1, env) == FilesFrom([], first + 1 + Allocates(y), env);
    assert Allocated([y]) == Allocates(y) + Allocated([]);
  }

  lemma SimpleCorrect(aliases: seq<Prefs.Rule>, remote: nat, run: Program, cmd: Cmd,
                      b: Builder, stdout: nat, stderr: nat, env: Env, input: Bytes)
    requires Writable(b, stdout, stderr) && ConvertSingle(aliases, cmd).Ok?
    ensures var (c, stdin) := Convert(aliases, remote, Simple(cmd), b, stdout, stderr).value;
            Yields(b, c, stdout, stderr, stdin, run, env, input, Eval(aliases, run, Simple(cmd), input))
  {
    var (c, stdin) := Convert(aliases, remote, Simple(cmd), b, stdout, stderr).value;
    var p := PlanProcess(b.nextProcess, stdin, stdout, stderr);
    var step := Remote(remote, Run(ConvertSingle(aliases, cmd).value, p));
    assert Added(b, c) == [Pipe, step];
    FlowTwo(Pipe, step, run, env[stdin := input]);
    FilesTwo(Pipe, step, |b.ends|, Effect(step, run, env[stdin := input]));
    assert stdin == |b.ends|;
  }

  lemma FileOne(remote: nat, path: string, first: nat, run: Program, env: Env)
    ensures var steps := [Remote(remote, OpenOutputFile(path))];
            && Flow(steps, run, env) == env
            && FilesFrom(steps, first, env) == [(path, Get(env, first))]
            && Allocated(steps) == 1
  {
    var step := Remote(remote, OpenOutputFile(path));
    assert [step][..0] == [] && [step][1..] == [];
    assert FilesFrom([step], first, env) == [(path, Get(env, first))] + FilesFrom([], first + 1, env);
    assert Allocated([step]) == 1 + Allocated([]);
  }

  lemma TargetCorrect(aliases: seq<Prefs.Rule>, remote: nat, run: Program, whole: Ast, target: Target,
                      b: Builder, stdout: nat, stderr: nat, env: Env, input: Bytes)
    requires Writable(b, stdout, stderr) && (target.Into? ==> target.ast < whole)
    requires ConvertTarget(aliases, remote, whole, target, b, stdout, stderr).Ok?
    requires Quiet(b, ConvertTarget(aliases, remote, whole, target, b, stdout, stderr).value.0, stdout, stderr, env)
    ensures var (c, stdin) := ConvertTarget(aliases, remote, whole, target, b, stdout, stderr).value;
            Yields(b, c, stdout, stderr, stdin, run, env, input, EvalTarget(aliases, run, whole, target, input))
    decreases whole, 0, 0
  {
    var (c, stdin) := ConvertTarget(aliases, remote, whole, target, b, stdout, stderr).value;
    match target {
      case File(path) =>
        var step := Remote(remote, OpenOutputFile(path));
        assert Added(b, c) == [step];
        assert Inside(b, c, stdout, stderr, stdout) && Inside(b, c, stdout, stderr, stderr);
        FileOne(remote, path, |b.ends|, run, env[stdin := input]);
      case Into(ast) =>
        ConvertCorrect(aliases, remote, run, ast, b, stdout, stderr, env, input);
    }
  }

  // What was not written before the inner compilation and, apart from `fed`, is not written by it.
  lemma QuietInner(b: Builder, c: Builder, d: Builder, stdout: nat, stderr: nat, fed: nat, o: nat, e: nat, env: Env)
    requires |b.ends| <= |c.ends| < |d.ends| && Quiet(b, d, stdout, stderr, env)
    requires fed == stdout || |b.ends| <= fed < |c.ends|
    requires (o, e) == (fed, |c.ends|) || (o, e) == (|c.ends|, fed)
    ensures Quiet(c.WithPipe(), d, o, e, env)
  {
    forall k: nat | Inside(c.WithPipe(), d, o, e, k) ensures Inside(b, d, stdout, stderr, k) {}
  }

  lemma QuietTarget(b: Builder, c: Builder, d: Builder, stdout: nat, stderr: nat, fed: nat, o: nat, e: nat, env: Env,
                    mid: Env)
    requires stdout < |b.ends| && stderr < |b.ends| <= |c.ends| < |d.ends| && Quiet(b, d, stdout, stderr, env)
    requires (o, e) == (fed, |c.ends|) || (o, e) == (|c.ends|, fed)
    requires forall k: nat :: !Inside(c.WithPipe(), d, o, e, k) ==> Get(mid, k) == Get(env, k)
    ensures Quiet(b, c, stdout, stderr, mid - {fed})
  {
    forall k: nat | Inside(b, c, stdout, stderr, k) ensures Get(mid - {fed}, k) == [] {
      assert Inside(b, d, stdout, stderr, k);
      assert k == fed || !Inside(c.WithPipe(), d, o, e, k);
    }
  }

  lemma {:induction false} ConvertFromCorrect(aliases: seq<Prefs.Rule>, remote: nat, run: Program, ast: Ast, n: nat,
                                              b: Builder, stdout: nat, stderr: nat, env: Env, input: Bytes)
    requires ast.Redirect? && n <= |ast.clauses| && Writable(b, stdout, stderr)
    requires ConvertFrom(aliases, remote, ast, n, b, stdout, stderr).Ok?
    requires Quiet(b, ConvertFrom(aliases, remote, ast, n, b, stdout, stderr).value.0, stdout, stderr, env)
    ensures var (c, stdin) := ConvertFrom(aliases, remote, ast, n, b, stdout, stderr).value;
            Yields(b, c, stdout, stderr, stdin, run, env, input, EvalUpTo(aliases, run, ast, n, input))
    decreases ast, 0, n + 1
  {
    if n == 0 {
      ConvertCorrect(aliases, remote, run, ast.head, b, stdout, stderr, env, input);
    } else {
      var clause := ast.clauses[n - 1];
      var (c, fed) := ConvertTarget(aliases, remote, ast, clause.target, b, stdout, stderr).value;
      var spare := |c.ends|;
      var (o, e) := if clause.stream.Stdout? then (fed, spare) else (spare, fed);
      var (d, stdin) := ConvertFrom(aliases, remote, ast, n - 1, c.WithPipe(), o, e).value;
      QuietInner(b, c, d, stdout, stderr, fed, o, e, env);
      ConvertFromCorrect(aliases, remote, run, ast, n - 1, c.WithPipe(), o, e, env, input);
      var mid := Flow(Added(c.WithPipe(), d), run, env[stdin := input]);
      QuietTarget(b, c, d, stdout, stderr, fed, o, e, env, mid);
      TargetCorrect(aliases, remote, run, ast, clause.target, b, stdout, stderr, mid - {fed}, Get(mid, fed));
      Compose(b, c, d, stdout, stderr, fed, o, e, stdin, run, env, input,
              EvalUpTo(aliases, run, ast, n - 1, input),
              EvalTarget(aliases, run, ast, clause.target, Get(mid, fed)));
    }
  }

  /** A target and what feeds it, put together. */
  lemma Compose(b: Builder, c: Builder, d: Builder, stdout: nat, stderr: nat, fed: nat, o: nat, e: nat, stdin: nat,
                run: Program, env: Env, input: Bytes, before: Streams, after: Streams)
    requires stdout < |b.ends| && stderr < |b.ends|
    requires b.plan.steps <= c.plan.steps && c.WithPipe().plan.steps <= d.plan.steps
    requires |b.ends| <= |c.ends| < |d.ends|
    requires fed == stdout || |b.ends| <= fed < |c.ends|
    requires (o, e) == (fed, |c.ends|) || (o, e) == (|c.ends|, fed)
    requires Yields(c.WithPipe(), d, o, e, stdin, run, env, input, before)
    requires var mid := Flow(Added(c.WithPipe(), d), run, env[stdin := input]);
             Yields(b, c, stdout, stderr, fed, run, mid - {fed}, Get(mid, fed), after)
    ensures Yields(b, d, stdout, stderr, stdin, run, env, input, after.(files := after.files + before.files))
  {
    hide Flow, FilesFrom, Allocated;
    var first, rest := Added(b, c), Added(c.WithPipe(), d);
    var mid := Flow(rest, run, env[stdin := input]);
    var target := (mid - {fed})[fed := Get(mid, fed)];
    AddedOverPipe(b, c, d);
    FlowOverPipe(first, rest, run, env[stdin := input]);
    var final := Flow(first, run, mid);
    PutBack(mid, fed);
    FlowAgrees(first, run, target, mid);
    FilesOverPipe(first, rest, |b.ends|, final);
    FilesAgree(first, |b.ends|, final, Flow(first, run, target));
    FilesAgree(rest, |c.ends| + 1, final, mid);
  }

  lemma AddedOverPipe(b: Builder, c: Builder, d: Builder)
    requires b.plan.steps <= c.plan.steps && c.WithPipe().plan.steps <= d.plan.steps
    ensures b.plan.steps <= d.plan.steps && Added(b, d) == Added(b, c) + ([Pipe] + Added(c.WithPipe(), d))
  {
  }

  lemma PutBack(env: Env, k: nat)
    ensures Agree((env - {k})[k := Get(env, k)], env)
  {
  }

  lemma FlowOverPipe(first: seq<Step>, rest: seq<Step>, run: Program, env: Env)
    ensures Flow(first + ([Pipe] + rest), run, env) == Flow(first, run, Flow(rest, run, env))
  {
    FlowAppend([Pipe], rest, run, env);
    FlowAppend(first, [Pipe] + rest, run, env);
    assert [Pipe][..0] == [];
    assert Flow([Pipe], run, Flow(rest, run, env)) == Flow([], run, Flow(rest, run, env));
  }

  lemma FilesOverPipe(first: seq<Step>, rest: seq<Step>, k: nat, env: Env)
    ensures Allocated(first + ([Pipe] + rest)) == Allocated(first) + 1 + Allocated(rest)
    ensures FilesFrom(first + ([Pipe] + rest), k, env)
         == FilesFrom(first, k, env) + FilesFrom(rest, k + Allocated(first) + 1, env)
  {
    FilesAppend(first, [Pipe] + rest, k, env);
    assert ([Pipe] + rest)[1..] == rest;
  }

  /** Running the plan compiled from a command line computes what the command line means: on the pipe
      collected as standard output, on the one collected as standard error, and in the files. */
  lemma CompilePreserves(aliases: seq<Prefs.Rule>, remote: nat, run: Program, ast: Ast, input: Bytes)
    requires Compiled(aliases, remote, ast).Ok?
    ensures var plan := Compiled(aliases, remote, ast).value;
            && plan.stdin.Some? && plan.sinkMap == [Some(Sink.Stdout), Some(Sink.Stderr)]
            && (var final := Flow(plan.steps, run, map[plan.stdin.value := input]);
                Streams(Get(final, 0), Get(final, 1), FilesFrom(plan.steps, 0, final))
                == Eval(aliases, run, ast, input))
  {
    hide Eval, Flow, FilesFrom, Convert;
    var b := NEW_BUILDER.WithPipe().WithPipe();
    var (c, stdin) := Convert(aliases, remote, ast, b, 0, 1).value;
    ConvertCorrect(aliases, remote, run, ast, b, 0, 1, map[], input);
    assert c.plan.steps == [Pipe, Pipe] + Added(b, c);
    AfterTwoPipes(Added(b, c), run, map[stdin := input]);
  }

  lemma AfterTwoPipes(steps: seq<Step>, run: Program, env: Env)
    ensures Flow([Pipe, Pipe] + steps, run, env) == Flow(steps, run, env)
    ensures FilesFrom([Pipe, Pipe] + steps, 0, Flow(steps, run, env)) == FilesFrom(steps, 2, Flow(steps, run, env))
  {
    var pipes, final := [Pipe, Pipe], Flow(steps, run, env);
    FlowAppend(pipes, steps, run, env);
    FlowTwo(Pipe, Pipe, run, final);
    FilesTwo(Pipe, Pipe, 0, final);
    FilesAppend(pipes, steps, 0, final);
  }
}
