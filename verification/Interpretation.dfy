// Interpreting compiled plans: no pipe end is taken twice, and the requests that a
// prompt sends use every pipe end at most once and only depend on earlier commands.

module Interpretation {
  import opened Protocol
  import opened Driver
  import opened Plans
  import opened Compiler
  import opened ClientSide
  import opened Syntax
  import Prefs

  // The steps that the compiler emits.
  predicate Emitted(step: Step) {
    step.Pipe? || (step.Remote? && (step.step.Run? || step.step.OpenOutputFile?))
  }

  /** The interpreter holds exactly the ends that the builder's flags say are unused. */
  ghost predicate Holds(slots: seq<Slot>, ends: Ends) {
    |slots| == |ends| &&
    forall k :: 0 <= k < |slots| ==> (slots[k].read.Some? <==> ends[k].0) && (slots[k].write.Some? <==> ends[k].1)
  }

  ghost predicate Distinct(ids: seq<PipeId>) {
    forall i, j :: 0 <= i < j < |ids| ==> ids[i] != ids[j]
  }

  /** `reqs` asks for what `steps` says, when the plan's pipes have the ids `ids`: each command is
      started on the pipes that the plan connects it to, and each file is opened on its pipe. */
  ghost predicate Wires(steps: seq<Step>, ids: seq<PipeId>, reqs: seq<Request>) {
    if steps == [] then ids == [] && reqs == []
    else
      var rest, last := steps[..|steps| - 1], steps[|steps| - 1];
      match last
      case Pipe => ids != [] && Wires(rest, ids[..|ids| - 1], reqs)
      case Remote(_, OpenOutputFile(path)) =>
        && ids != [] && reqs != []
        && reqs[|reqs| - 1] == OpenFile(ids[|ids| - 1], path)
        && Wires(rest, ids[..|ids| - 1], reqs[..|reqs| - 1])
      case Remote(_, Run(cmd, p)) =>
        && reqs != [] && p.stdin < |ids| && p.stdout < |ids| && p.stderr < |ids|
        && StartsOn(reqs[|reqs| - 1], cmd, ids[p.stdin], ids[p.stdout], ids[p.stderr])
        && Wires(rest, ids, reqs[..|reqs| - 1])
      case _ => false
  }

  /** `r` starts `cmd`, at once, on these pipes. */
  ghost predicate StartsOn(r: Request, cmd: Command, stdin: PipeId, stdout: PipeId, stderr: PipeId) {
    && r.BeginCommand? && r.blockFor == map[]
    && r.cmd == RunCmd(cmd, WritePipes(stdin := stdin, stdout := stdout, stderr := stderr))
  }

  /** The slot of each of the plan's pipes holds ends of that pipe only; the pipes are new and
      different; the requests sent are those of the plan on these pipes. */
  ghost predicate Wired(c: Client, p: Progress, steps: seq<Step>, ids: seq<PipeId>) {
    && p.Going? && |ids| == |p.slots| && Distinct(ids)
    && (forall k :: 0 <= k < |ids| ==> c.nextId <= ids[k] < p.client.nextId)
    && (forall k :: 0 <= k < |ids| && p.slots[k].read.Some? ==> p.slots[k].read.value == ids[k])
    && (forall k :: 0 <= k < |ids| && p.slots[k].write.Some? ==> p.slots[k].write.value == ids[k])
    && c.nextId <= p.client.nextId && c.sent <= p.client.sent
    && Wires(steps, ids, p.client.sent[|c.sent|..])
  }

  /** Interpreting the steps the compiler emits succeeds exactly when the linear use of
      pipe ends checks out, leaves the interpreter with the unused ends, and wires the
      commands as the plan says. */
  lemma {:induction false} StepsGo(c: Client, steps: seq<Step>)
    requires forall s :: s in steps ==> Emitted(s)
    ensures DoSteps(c, steps).Going? <==> EndsAfter(steps).Some?
    ensures DoSteps(c, steps).Going? ==>
              && Holds(DoSteps(c, steps).slots, EndsAfter(steps).value)
              && exists ids :: Wired(c, DoSteps(c, steps), steps, ids)
  {
    StepsCheck(c, steps);
    if DoSteps(c, steps).Going? {
      var ids := StepsWired(c, steps);
    }
  }

  lemma {:induction false} StepsCheck(c: Client, steps: seq<Step>)
    requires forall s :: s in steps ==> Emitted(s)
    ensures DoSteps(c, steps).Going? <==> EndsAfter(steps).Some?
    ensures DoSteps(c, steps).Going? ==> Holds(DoSteps(c, steps).slots, EndsAfter(steps).value)
  {
    if steps != [] {
      var rest, last := steps[..|steps| - 1], steps[|steps| - 1];
      assert last in steps;
      StepsCheck(c, rest);
      if EndsAfter(rest).Some? {
        var slots, ends := DoSteps(c, rest).slots, EndsAfter(rest).value;
        if last.Remote? && last.step.Run? {
          assert CanRun(ends, last.step.process) <==> CanTake(slots, last.step.process);
        }
      }
    }
  }

  lemma {:induction false} StepsWired(c: Client, steps: seq<Step>) returns (ids: seq<PipeId>)
    requires (forall s :: s in steps ==> Emitted(s)) && DoSteps(c, steps).Going?
    ensures Wired(c, DoSteps(c, steps), steps, ids)
  {
    hide DoStep, Wired;
    if steps == [] {
      ids := [];
      NothingWired(c);
    } else {
      var rest, last := steps[..|steps| - 1], steps[|steps| - 1];
      assert last in steps;
      ids := StepsWired(c, rest);
      assert DoSteps(c, rest).Going?;
      ids := StepWired(c, DoSteps(c, rest), rest, ids, last);
      assert steps == rest + [last];
    }
  }

  lemma NothingWired(c: Client)
    ensures Wired(c, Going(c, [], {}), [], [])
  {
  }

  lemma StepWired(c: Client, p: Progress, rest: seq<Step>, ids: seq<PipeId>, last: Step) returns (ids': seq<PipeId>)
    requires p.Going? && Wired(c, p, rest, ids) && Emitted(last)
    requires DoStep(p.client, p.slots, p.wait, last).Going?
    ensures Wired(c, DoStep(p.client, p.slots, p.wait, last), rest + [last], ids')
  {
    hide Wired;
    match last {
      case Pipe =>
        ids' := ids + [p.client.nextId];
        PipeWired(c, p, rest, ids);
      case Remote(remote, OpenOutputFile(path)) =>
        ids' := ids + [p.client.nextId];
        FileWired(c, p, rest, ids, remote, path);
      case Remote(remote, Run(cmd, pr)) =>
        ids' := ids;
        RunWired(c, p, rest, ids, remote, cmd, pr);
    }
  }

  lemma PipeWired(c: Client, p: Progress, rest: seq<Step>, ids: seq<PipeId>)
    requires Wired(c, p, rest, ids)
    ensures Wired(c, DoStep(p.client, p.slots, p.wait, Pipe), rest + [Pipe], ids + [p.client.nextId])
  {
    hide Wires;
    WiresPipe(rest, ids, p.client.sent[|c.sent|..], p.client.nextId);
  }

  lemma FileWired(c: Client, p: Progress, rest: seq<Step>, ids: seq<PipeId>, remote: nat, path: string)
    requires Wired(c, p, rest, ids)
    ensures var step := Remote(remote, RemoteStep.OpenOutputFile(path));
            Wired(c, DoStep(p.client, p.slots, p.wait, step), rest + [step], ids + [p.client.nextId])
  {
    hide Wires;
    var r := OpenFile(p.client.nextId, path);
    assert (p.client.sent + [r])[|c.sent|..] == p.client.sent[|c.sent|..] + [r];
    WiresFile(rest, ids, p.client.sent[|c.sent|..], remote, path, p.client.nextId);
  }

  lemma RunWired(c: Client, p: Progress, rest: seq<Step>, ids: seq<PipeId>, remote: nat, cmd: Command, pr: PlanProcess)
    requires Wired(c, p, rest, ids) && CanTake(p.slots, pr)
    ensures var step := Remote(remote, Run(cmd, pr));
            Wired(c, DoStep(p.client, p.slots, p.wait, step), rest + [step], ids)
  {
    hide Wires;
    var q := DoStep(p.client, p.slots, p.wait, Remote(remote, Run(cmd, pr)));
    var r := q.client.sent[|p.client.sent|];
    assert q.client.sent[|c.sent|..] == p.client.sent[|c.sent|..] + [r];
    WiresRun(rest, ids, p.client.sent[|c.sent|..], remote, cmd, pr, r);
  }

  lemma WiresPipe(steps: seq<Step>, ids: seq<PipeId>, reqs: seq<Request>, id: PipeId)
    requires Wires(steps, ids, reqs)
    ensures Wires(steps + [Pipe], ids + [id], reqs)
  {
    assert (steps + [Pipe])[..|steps|] == steps && (ids + [id])[..|ids|] == ids;
  }

  lemma WiresFile(steps: seq<Step>, ids: seq<PipeId>, reqs: seq<Request>, remote: nat, path: string, id: PipeId)
    requires Wires(steps, ids, reqs)
    ensures Wires(steps + [Remote(remote, RemoteStep.OpenOutputFile(path))], ids + [id], reqs + [OpenFile(id, path)])
  {
    var step, r := Remote(remote, RemoteStep.OpenOutputFile(path)), OpenFile(id, path);
    assert (steps + [step])[..|steps|] == steps && (ids + [id])[..|ids|] == ids && (reqs + [r])[..|reqs|] == reqs;
  }

  lemma WiresRun(steps: seq<Step>, ids: seq<PipeId>, reqs: seq<Request>, remote: nat, cmd: Command, p: PlanProcess,
                 r: Request)
    requires Wires(steps, ids, reqs) && p.stdin < |ids| && p.stdout < |ids| && p.stderr < |ids|
    requires StartsOn(r, cmd, ids[p.stdin], ids[p.stdout], ids[p.stderr])
    ensures Wires(steps + [Remote(remote, Run(cmd, p))], ids, reqs + [r])
  {
    var step := Remote(remote, Run(cmd, p));
    assert (steps + [step])[..|steps|] == steps && (reqs + [r])[..|reqs|] == reqs;
  }

  predicate Runs(step: Step) {
    step.Remote? && step.step.Run?
  }

  /** Each command reads the pipe that was allocated just before it, and writes to older ones. */
  ghost predicate Layered(steps: seq<Step>) {
    forall i :: 0 <= i < |steps| && Runs(steps[i]) ==> LayeredAt(steps[..i], steps[i].step.process)
  }

  ghost predicate LayeredAt(before: seq<Step>, p: PlanProcess) {
    && before != [] && before[|before| - 1].Pipe? && EndsAfter(before).Some?
    && p.stdin == |EndsAfter(before).value| - 1 && p.stdout < p.stdin && p.stderr < p.stdin
  }

  lemma LayeredPush(steps: seq<Step>, step: Step)
    requires Layered(steps) && (Runs(step) ==> LayeredAt(steps, step.step.process))
    ensures Layered(steps + [step])
  {
    hide LayeredAt;
    var all := steps + [step];
    forall i | 0 <= i < |all| && Runs(all[i]) ensures LayeredAt(all[..i], all[i].step.process) {
      assert all[..i] == if i < |steps| then steps[..i] else steps;
      assert i < |steps| ==> all[i] == steps[i];
    }
  }

  /** The flags of `b` are what its steps have left, and the compiler emitted the steps. */
  ghost predicate Tracked(b: Builder) {
    EndsAfter(b.plan.steps) == Some(b.ends) && (forall s :: s in b.plan.steps ==> Emitted(s)) && Layered(b.plan.steps)
  }

  lemma PushTracked(b: Builder, step: Step, ends: Ends)
    requires Tracked(b) && Emitted(step)
    requires match step
             case Pipe => ends == b.ends + [(true, true)]
             case Remote(_, Run(_, p)) =>
               CanRun(b.ends, p) && ends == UseAll(b.ends, p) && LayeredAt(b.plan.steps, p)
             case Remote(_, _) => ends == b.ends + [(false, true)]
             case _ => false
    ensures EndsAfter(b.plan.steps + [step]) == Some(ends)
    ensures (forall s :: s in b.plan.steps + [step] ==> Emitted(s)) && Layered(b.plan.steps + [step])
  {
    hide Layered, LayeredAt;
    StepAdded(b.plan.steps, step);
    LayeredPush(b.plan.steps, step);
  }

  lemma {:induction false} ConvertTracked(aliases: seq<Prefs.Rule>, remote: nat, ast: Ast, b: Builder, stdout: nat,
                                          stderr: nat)
    requires Writable(b, stdout, stderr) && Tracked(b)
    ensures var r := Convert(aliases, remote, ast, b, stdout, stderr); r.Ok? ==> Tracked(r.value.0)
    decreases ast, 0
  {
    hide Tracked;
    if Convert(aliases, remote, ast, b, stdout, stderr).Ok? {
      match ast {
        case Empty =>
        case Simple(cmd) =>
          SimpleTracked(b, remote, ConvertSingle(aliases, cmd).value, stdout, stderr);
        case Redirect(_, clauses) =>
          ConvertFromTracked(aliases, remote, ast, |clauses|, b, stdout, stderr);
      }
    }
  }

  lemma SimpleTracked(b: Builder, remote: nat, cmd: Command, stdout: nat, stderr: nat)
    requires Writable(b, stdout, stderr) && Tracked(b)
    ensures Tracked(b.WithPipe().WithCommand(remote, cmd, |b.ends|, stdout, stderr))
  {
    PipeTracked(b);
    var c := b.WithPipe();
    var p := PlanProcess(b.nextProcess, |b.ends|, stdout, stderr);
    PushTracked(c, Remote(remote, Run(cmd, p)), UseAll(c.ends, p));
  }

  lemma PipeTracked(b: Builder)
    requires Tracked(b)
    ensures Tracked(b.WithPipe())
  {
    PushTracked(b, Pipe, b.ends + [(true, true)]);
  }

  lemma {:induction false} ConvertFromTracked(aliases: seq<Prefs.Rule>, remote: nat, ast: Ast, n: nat, b: Builder,
                                              stdout: nat, stderr: nat)
    requires ast.Redirect? && n <= |ast.clauses| && Writable(b, stdout, stderr) && Tracked(b)
    ensures var r := ConvertFrom(aliases, remote, ast, n, b, stdout, stderr); r.Ok? ==> Tracked(r.value.0)
    decreases ast, 0, n + 1
  {
    hide Tracked;
    if n == 0 {
      ConvertTracked(aliases, remote, ast.head, b, stdout, stderr);
    } else {
      var clause := ast.clauses[n - 1];
      match clause.target {
        case File(path) => FileTracked(b, remote, path);
        case Into(target) => ConvertTracked(aliases, remote, target, b, stdout, stderr);
      }
      var r := ConvertTarget(aliases, remote, ast, clause.target, b, stdout, stderr);
      if r.Ok? {
        var (c, fed) := r.value;
        PipeTracked(c);
        if clause.stream.Stdout? {
          ConvertFromTracked(aliases, remote, ast, n - 1, c.WithPipe(), fed, |c.ends|);
        } else {
          ConvertFromTracked(aliases, remote, ast, n - 1, c.WithPipe(), |c.ends|, fed);
        }
      }
    }
  }

  lemma FileTracked(b: Builder, remote: nat, path: string)
    requires Tracked(b)
    ensures Tracked(b.WithFile(remote, path))
  {
    PushTracked(b, Remote(remote, RemoteStep.OpenOutputFile(path)), b.ends + [(false, true)]);
  }

  lemma TwoPipesTracked()
    ensures Tracked(NEW_BUILDER.WithPipe().WithPipe())
  {
    PipeTracked(NEW_BUILDER);
    PipeTracked(NEW_BUILDER.WithPipe());
  }

  /** In a compiled plan the use of pipe ends checks out, and the read ends of the two collected pipes are left over. */
  lemma CompiledLinear(aliases: seq<Prefs.Rule>, remote: nat, ast: Ast)
    requires Compiled(aliases, remote, ast).Ok?
    ensures var plan := Compiled(aliases, remote, ast).value;
            && (forall s :: s in plan.steps ==> Emitted(s))
            && EndsAfter(plan.steps).Some?
            && (var ends := EndsAfter(plan.steps).value; |ends| >= 2 && ends[0].0 && ends[1].0)
            && plan.sinkMap == [Some(Sink.Stdout), Some(Sink.Stderr)]
            && Layered(plan.steps)
  {
    hide Layered, Convert;
    var b := NEW_BUILDER.WithPipe().WithPipe();
    TwoPipesTracked();
    ConvertTracked(aliases, remote, ast, b, 0, 1);
    var (c, stdin) := Convert(aliases, remote, ast, b, 0, 1).value;
    assert c.ends[0].0 == b.ends[0].0 && c.ends[1].0 == b.ends[1].0;
  }
}
