// What a plan means without an order of its steps: every assignment of bytes to its pipes in
// which each command writes what it makes of its input.  A compiled plan has exactly one.

module Dataflow {
  import opened Protocol
  import opened Syntax
  import opened Plans
  import opened Compiler
  import opened Interpretation
  import opened Meaning
  import Prefs

  predicate WritesTo(step: Step, k: nat) {
    Runs(step) && (step.step.process.stdout == k || step.step.process.stderr == k)
  }

  ghost predicate Written(steps: seq<Step>, k: nat) {
    exists i :: 0 <= i < |steps| && WritesTo(steps[i], k)
  }

  /** In `env` the outputs of `step` are what its command makes of its input. */
  ghost predicate Obeys(step: Step, run: Program, env: Env) {
    Runs(step) ==>
      var p := step.step.process;
      (Get(env, p.stdout), Get(env, p.stderr)) == run(step.step.cmd, Get(env, p.stdin))
  }

  /** Every command writes what it makes of its input; what no command writes is `input` on the
      pipe `stdin` and empty on every other. */
  ghost predicate Balanced(steps: seq<Step>, run: Program, stdin: nat, input: Bytes, env: Env) {
    && (forall i :: 0 <= i < |steps| ==> Obeys(steps[i], run, env))
    && (forall k: nat :: !Written(steps, k) ==> Get(env, k) == if k == stdin then input else [])
  }

  /** The linear use of pipe ends checks out, and inputs are newer than outputs. */
  ghost predicate Proper(steps: seq<Step>) {
    EndsAfter(steps).Some? && Layered(steps)
  }

  lemma ProperPrefix(steps: seq<Step>, i: nat)
    requires Proper(steps) && i <= |steps|
    ensures Proper(steps[..i])
    decreases |steps|
  {
    assert forall j :: 0 <= j < i ==> steps[..i][..j] == steps[..j];
    if i < |steps| {
      LayeredPrefix(steps);
      ProperPrefix(steps[..|steps| - 1], i);
      assert steps[..|steps| - 1][..i] == steps[..i];
    } else {
      assert steps[..i] == steps;
    }
  }

  lemma LayeredPrefix(steps: seq<Step>)
    requires Layered(steps) && steps != []
    ensures Layered(steps[..|steps| - 1])
  {
    var rest := steps[..|steps| - 1];
    assert forall j :: 0 <= j < |rest| ==> rest[..j] == steps[..j] && rest[j] == steps[j];
  }

  /** A pipe whose write end is unused was not written, and only pipes that exist were. */
  lemma {:induction false} UnusedUnwritten(steps: seq<Step>, k: nat)
    requires EndsAfter(steps).Some? && Written(steps, k)
    ensures k < |EndsAfter(steps).value| && !EndsAfter(steps).value[k].1
  {
    var i :| 0 <= i < |steps| && WritesTo(steps[i], k);
    var rest := steps[..|steps| - 1];
    if i < |steps| - 1 {
      assert WritesTo(rest[i], k);
      UnusedUnwritten(rest, k);
    }
  }

  /** A command's input is written by no earlier step, nor by itself, and its outputs by no earlier step. */
  lemma EarlierApart(steps: seq<Step>, i: nat)
    requires Proper(steps) && i < |steps| && Runs(steps[i])
    ensures var p := steps[i].step.process;
            && !Written(steps[..i], p.stdin) && !WritesTo(steps[i], p.stdin) && p.stdout != p.stderr
            && !Written(steps[..i], p.stdout) && !Written(steps[..i], p.stderr)
  {
    var p, before := steps[i].step.process, steps[..i];
    ProperPrefix(steps, i);
    ProperPrefix(steps, i + 1);
    assert steps[..i + 1][..i] == before && steps[..i + 1][i] == steps[i];
    assert LayeredAt(before, p);
    if Written(before, p.stdin) { NewestUnwritten(before); }
    if Written(before, p.stdout) { UnusedUnwritten(before, p.stdout); }
    if Written(before, p.stderr) { UnusedUnwritten(before, p.stderr); }
  }

  lemma NewestUnwritten(before: seq<Step>)
    requires before != [] && before[|before| - 1].Pipe? && EndsAfter(before).Some?
    ensures !Written(before, |EndsAfter(before).value| - 1)
  {
    var rest, k := before[..|before| - 1], |EndsAfter(before).value| - 1;
    if Written(before, k) {
      var i :| 0 <= i < |before| && WritesTo(before[i], k);
      assert WritesTo(rest[i], k);
      UnusedUnwritten(rest, k);
    }
  }

  lemma WrittenSplit(steps: seq<Step>, i: nat, k: nat)
    requires i < |steps|
    ensures Written(steps[..i + 1], k) <==> Written(steps[..i], k) || WritesTo(steps[i], k)
  {
    assert forall j :: 0 <= j < i ==> steps[..i + 1][j] == steps[..i][j];
    if WritesTo(steps[i], k) { assert steps[..i + 1][i] == steps[i]; }
    if Written(steps[..i], k) {
      var j :| 0 <= j < i && WritesTo(steps[..i][j], k);
      assert WritesTo(steps[..i + 1][j], k);
    }
  }

  // --- Only one assignment ---

  /** Evaluating the first `i` steps from an assignment that is right wherever they do not write. */
  lemma {:induction false} EvaluatesTo(steps: seq<Step>, i: nat, run: Program, env: Env, cur: Env)
    requires Proper(steps) && i <= |steps| && forall j :: 0 <= j < |steps| ==> Obeys(steps[j], run, env)
    requires forall k: nat :: !Written(steps[..i], k) ==> Get(cur, k) == Get(env, k)
    ensures Agree(Flow(steps[..i], run, cur), env)
  {
    hide Proper, Written, WritesTo;
    if i == 0 {
      forall k: nat ensures Get(cur, k) == Get(env, k) { NothingWritten(k); }
    } else {
      var step := steps[i - 1];
      var next := Effect(step, run, cur);
      assert steps[..i][..i - 1] == steps[..i - 1];
      if Runs(step) { EarlierApart(steps, i - 1); }
      forall k: nat | !Written(steps[..i - 1], k) ensures Get(next, k) == Get(env, k) {
        WrittenSplit(steps, i - 1, k);
        if Runs(step) { WrittenSplit(steps, i - 1, step.step.process.stdin); }
        StepRight(steps, i - 1, run, env, cur, k);
      }
      EvaluatesTo(steps, i - 1, run, env, next);
    }
  }

  lemma NothingWritten(k: nat)
    ensures !Written([], k)
  {
  }

  lemma StepRight(steps: seq<Step>, i: nat, run: Program, env: Env, cur: Env, k: nat)
    requires i < |steps| && Obeys(steps[i], run, env)
    requires Runs(steps[i]) ==> Get(cur, steps[i].step.process.stdin) == Get(env, steps[i].step.process.stdin)
    requires Runs(steps[i]) ==> steps[i].step.process.stdout != steps[i].step.process.stderr
    requires !WritesTo(steps[i], k) ==> Get(cur, k) == Get(env, k)
    ensures Get(Effect(steps[i], run, cur), k) == Get(env, k)
  {
  }

  // --- Evaluation is one ---

  /** The steps from `i` on are obeyed, and nothing else was written. */
  ghost predicate Done(steps: seq<Step>, i: nat, run: Program, start: Env, cur: Env)
    requires i <= |steps|
  {
    && (forall j :: i <= j < |steps| ==> Obeys(steps[j], run, cur))
    && (forall k: nat :: (forall j :: i <= j < |steps| ==> !WritesTo(steps[j], k)) ==> Get(cur, k) == Get(start, k))
  }

  lemma {:induction false} EvaluationDone(steps: seq<Step>, i: nat, run: Program, start: Env, cur: Env)
    requires Proper(steps) && i <= |steps| && Done(steps, i, run, start, cur)
    ensures Done(steps, 0, run, start, Flow(steps[..i], run, cur))
  {
    hide Proper, Done;
    if i > 0 {
      assert steps[..i][..i - 1] == steps[..i - 1];
      StepDone(steps, i - 1, run, start, cur);
      EvaluationDone(steps, i - 1, run, start, Effect(steps[i - 1], run, cur));
    }
  }

  lemma StepDone(steps: seq<Step>, i: nat, run: Program, start: Env, cur: Env)
    requires Proper(steps) && i < |steps| && Done(steps, i + 1, run, start, cur)
    ensures Done(steps, i, run, start, Effect(steps[i], run, cur))
  {
    hide Proper, Written;
    var next := Effect(steps[i], run, cur);
    if Runs(steps[i]) { EarlierApart(steps, i); }
    forall j | i <= j < |steps| ensures Obeys(steps[j], run, next) {
      if j > i && Runs(steps[j]) {
        EarlierApart(steps, j);
        LaterApart(steps, i, j);
      }
    }
    forall k: nat | forall j :: i <= j < |steps| ==> !WritesTo(steps[j], k) ensures Get(next, k) == Get(start, k) {
      assert !WritesTo(steps[i], k);
    }
  }

  /** What a step writes is no later step's input or output. */
  lemma LaterApart(steps: seq<Step>, i: nat, j: nat)
    requires Proper(steps) && i < j < |steps| && Runs(steps[j])
    ensures var p := steps[j].step.process;
            !WritesTo(steps[i], p.stdin) && !WritesTo(steps[i], p.stdout) && !WritesTo(steps[i], p.stderr)
  {
    hide Proper;
    EarlierApart(steps, j);
    assert steps[..j][i] == steps[i];
  }

  /** An assignment is what the plan means if and only if it is the result of evaluating the
      steps from the last to the first. */
  lemma BalancedExactly(steps: seq<Step>, run: Program, stdin: nat, input: Bytes, env: Env)
    requires Proper(steps) && !Written(steps, stdin)
    ensures Balanced(steps, run, stdin, input, env) <==> Agree(env, Flow(steps, run, map[stdin := input]))
  {
    var start: Env := map[stdin := input];
    var final := Flow(steps, run, start);
    assert steps[..|steps|] == steps;
    EvaluationDone(steps, |steps|, run, start, start);
    forall k: nat ensures (forall j :: 0 <= j < |steps| ==> !WritesTo(steps[j], k)) <==> !Written(steps, k) {}
    if Balanced(steps, run, stdin, input, env) {
      EvaluatesTo(steps, |steps|, run, env, start);
    }
    if Agree(env, final) {
      forall i | 0 <= i < |steps| ensures Obeys(steps[i], run, env) { assert Obeys(steps[i], run, final); }
    }
  }

  // --- Compiled plans ---

  lemma CompiledProper(aliases: seq<Prefs.Rule>, remote: nat, ast: Ast)
    requires Compiled(aliases, remote, ast).Ok?
    ensures var plan := Compiled(aliases, remote, ast).value;
            Proper(plan.steps) && plan.stdin.Some? && !Written(plan.steps, plan.stdin.value)
  {
    CompiledLinear(aliases, remote, ast);
    var b := NEW_BUILDER.WithPipe().WithPipe();
    TwoPipesTracked();
    ConvertTracked(aliases, remote, ast, b, 0, 1);
    var (c, stdin) := Convert(aliases, remote, ast, b, 0, 1).value;
    assert c.ends[stdin].1;
    if Written(c.plan.steps, stdin) { UnusedUnwritten(c.plan.steps, stdin); }
  }

  /** Whatever bytes flow through the pipes of a compiled plan, if each command writes what it makes of its
      input, they are what the command line means: in any order of running the commands. */
  lemma CompiledMeans(aliases: seq<Prefs.Rule>, remote: nat, run: Program, ast: Ast, input: Bytes, env: Env)
    requires Compiled(aliases, remote, ast).Ok?
    ensures var plan := Compiled(aliases, remote, ast).value;
            && plan.stdin.Some?
            && Balanced(plan.steps, run, plan.stdin.value, input, Flow(plan.steps, run, map[plan.stdin.value := input]))
            && (Balanced(plan.steps, run, plan.stdin.value, input, env) ==>
                  Streams(Get(env, 0), Get(env, 1), FilesFrom(plan.steps, 0, env)) == Eval(aliases, run, ast, input))
  {
    hide Balanced, Flow, Eval, Proper, Written;
    var plan := Compiled(aliases, remote, ast).value;
    CompiledProper(aliases, remote, ast);
    CompilePreserves(aliases, remote, run, ast, input);
    var final := Flow(plan.steps, run, map[plan.stdin.value := input]);
    BalancedExactly(plan.steps, run, plan.stdin.value, input, final);
    BalancedExactly(plan.steps, run, plan.stdin.value, input, env);
    if Balanced(plan.steps, run, plan.stdin.value, input, env) {
      FilesAgree(plan.steps, 0, env, final);
    }
  }
}
