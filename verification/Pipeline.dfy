// The plan of a pipeline `c0 | c1 | ... | cn`.

module Pipeline {
  import opened Protocol
  import opened Syntax
  import opened Plans
  import opened Compiler
  import Meaning
  import Prefs

  datatype Launch = Launch(cmd: Command, process: PlanProcess)

  function LaunchOf(step: Step): seq<Launch> {
    match step
    case Remote(_, Run(cmd, p)) => [Launch(cmd, p)]
    case _ => []
  }

  /** The processes started by `steps`, in order. */
  function Launches(steps: seq<Step>): seq<Launch> {
    if steps == [] then [] else Launches(steps[..|steps| - 1]) + LaunchOf(steps[|steps| - 1])
  }

  predicate IsPipeline(ast: Ast) {
    && ast.Redirect? && ast.head.Simple?
    && forall k :: 0 <= k < |ast.clauses| ==>
         ast.clauses[k].stream.Stdout? && ast.clauses[k].target.Into? && ast.clauses[k].target.ast.Simple?
  }

  function Stage(ast: Ast, k: nat): Cmd
    requires IsPipeline(ast) && k <= |ast.clauses|
  {
    if k == 0 then ast.head.cmd else ast.clauses[k - 1].target.ast.cmd
  }

  /** `launches` starts stage `n` down to stage 0, each reading what the next one in the list writes. */
  ghost predicate Chained(aliases: seq<Prefs.Rule>, ast: Ast, n: nat, launches: seq<Launch>, stdin: nat, stdout: nat,
                          stderr: nat)
    requires IsPipeline(ast) && n <= |ast.clauses|
  {
    && |launches| == n + 1
    && (forall j :: 0 <= j <= n ==> ConvertSingle(aliases, Stage(ast, n - j)) == Ok(launches[j].cmd))
    && launches[0].process.stdout == stdout && launches[0].process.stderr == stderr
    && (forall j :: 0 < j <= n ==> launches[j].process.stdout == launches[j - 1].process.stdin)
    && launches[n].process.stdin == stdin
  }

  lemma {:induction false} LaunchesAppend(x: seq<Step>, y: seq<Step>)
    ensures Launches(x + y) == Launches(x) + Launches(y)
    decreases y
  {
    if y == [] {
      assert x + y == x;
    } else {
      assert (x + y)[..|x + y| - 1] == x + y[..|y| - 1] && (x + y)[|x + y| - 1] == y[|y| - 1];
      LaunchesAppend(x, y[..|y| - 1]);
    }
  }

  lemma OneStage(aliases: seq<Prefs.Rule>, remote: nat, cmd: Cmd, b: Builder, stdout: nat, stderr: nat)
    requires Writable(b, stdout, stderr) && ConvertSingle(aliases, cmd).Ok?
    ensures var (c, stdin) := Convert(aliases, remote, Simple(cmd), b, stdout, stderr).value;
            Launches(Meaning.Added(b, c))
            == [Launch(ConvertSingle(aliases, cmd).value, PlanProcess(b.nextProcess, stdin, stdout, stderr))]
  {
    var (c, stdin) := Convert(aliases, remote, Simple(cmd), b, stdout, stderr).value;
    var p := PlanProcess(b.nextProcess, stdin, stdout, stderr);
    var step := Remote(remote, Run(ConvertSingle(aliases, cmd).value, p));
    assert Meaning.Added(b, c) == [Pipe, step];
    assert [Pipe, step][..1] == [Pipe] && [Pipe][..0] == [];
    assert Launches([Pipe]) == Launches([]) + LaunchOf(Pipe);
  }

  lemma LaunchesPipe()
    ensures Launches([Pipe]) == []
  {
    assert [Pipe][..0] == [];
    assert Launches([Pipe]) == Launches([]) + LaunchOf(Pipe);
  }

  lemma LaunchesOverPipe(first: seq<Step>, rest: seq<Step>)
    ensures Launches(first + [Pipe] + rest) == Launches(first) + Launches(rest)
  {
    hide Launches;
    LaunchesAppend(first + [Pipe], rest);
    LaunchesAppend(first, [Pipe]);
    LaunchesPipe();
    assert Launches(first) + [] == Launches(first);
  }

  lemma ChainOne(aliases: seq<Prefs.Rule>, ast: Ast, p: PlanProcess)
    requires IsPipeline(ast) && ConvertSingle(aliases, Stage(ast, 0)).Ok?
    ensures var only := Launch(ConvertSingle(aliases, Stage(ast, 0)).value, p);
            Chained(aliases, ast, 0, [only], p.stdin, p.stdout, p.stderr)
  {
  }

  lemma {:induction false} ChainFrom(aliases: seq<Prefs.Rule>, remote: nat, ast: Ast, n: nat, b: Builder, stdout: nat,
                                     stderr: nat)
    requires IsPipeline(ast) && n <= |ast.clauses| && Writable(b, stdout, stderr)
    requires ConvertFrom(aliases, remote, ast, n, b, stdout, stderr).Ok?
    ensures var (d, stdin) := ConvertFrom(aliases, remote, ast, n, b, stdout, stderr).value;
            Chained(aliases, ast, n, Launches(Meaning.Added(b, d)), stdin, stdout, stderr)
  {
    hide Launches, Chained;
    if n == 0 {
      OneStage(aliases, remote, ast.head.cmd, b, stdout, stderr);
      ChainOne(aliases, ast, PlanProcess(b.nextProcess, |b.ends|, stdout, stderr));
    } else {
      var target := ast.clauses[n - 1].target.ast;
      var (c, fed) := Convert(aliases, remote, target, b, stdout, stderr).value;
      var (d, stdin) := ConvertFrom(aliases, remote, ast, n - 1, c.WithPipe(), fed, |c.ends|).value;
      OneStage(aliases, remote, target.cmd, b, stdout, stderr);
      ChainFrom(aliases, remote, ast, n - 1, c.WithPipe(), fed, |c.ends|);
      var first, rest := Meaning.Added(b, c), Meaning.Added(c.WithPipe(), d);
      assert Meaning.Added(b, d) == first + [Pipe] + rest;
      LaunchesOverPipe(first, rest);
      Chain(aliases, ast, n, Launches(first)[0], Launches(rest), stdin, fed, |c.ends|);
    }
  }

  lemma Chain(aliases: seq<Prefs.Rule>, ast: Ast, n: nat, last: Launch, rest: seq<Launch>, stdin: nat, fed: nat,
              lost: nat)
    requires IsPipeline(ast) && 0 < n <= |ast.clauses|
    requires Chained(aliases, ast, n - 1, rest, stdin, fed, lost)
    requires last.process.stdin == fed && ConvertSingle(aliases, Stage(ast, n)) == Ok(last.cmd)
    ensures Chained(aliases, ast, n, [last] + rest, stdin, last.process.stdout, last.process.stderr)
  {
    var all := [last] + rest;
    forall j | 0 <= j <= n ensures ConvertSingle(aliases, Stage(ast, n - j)) == Ok(all[j].cmd) {
      if j > 0 { assert all[j] == rest[j - 1] && n - j == n - 1 - (j - 1); }
    }
    forall j | 0 < j <= n ensures all[j].process.stdout == all[j - 1].process.stdin {
      assert all[j] == rest[j - 1];
      if j > 1 { assert all[j - 1] == rest[j - 2]; }
    }
  }

  /** A pipeline starts its last command first; each command writes to the pipe that the one
      after it reads, the last one to the collected pipes, and the plan's input is
      what the first one reads. */
  lemma PipelineShape(aliases: seq<Prefs.Rule>, remote: nat, ast: Ast)
    requires IsPipeline(ast) && Compiled(aliases, remote, ast).Ok?
    ensures var plan := Compiled(aliases, remote, ast).value;
            plan.stdin.Some? && Chained(aliases, ast, |ast.clauses|, Launches(plan.steps), plan.stdin.value, 0, 1)
  {
    hide Launches, Chained;
    var b := NEW_BUILDER.WithPipe().WithPipe();
    var (c, stdin) := Convert(aliases, remote, ast, b, 0, 1).value;
    ChainFrom(aliases, remote, ast, |ast.clauses|, b, 0, 1);
    var added := Meaning.Added(b, c);
    assert c.plan.steps == [Pipe] + [Pipe] + added;
    LaunchesOverPipe([Pipe], added);
    LaunchesPipe();
    assert [] + Launches(added) == Launches(added);
  }
}
