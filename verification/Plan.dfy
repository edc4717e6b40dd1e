// Plans and the builder that checks the linear use of pipe ends (frontend/src/plan.rs).

module Plans {
  import opened Protocol

  datatype PlanProcess = PlanProcess(id: nat, stdin: nat, stdout: nat, stderr: nat)

  datatype RemoteStep =
    | OpenInputFile(path: string)
    | OpenOutputFile(path: string)
    | Run(cmd: Command, process: PlanProcess)
    | BeginRemote(cmd: Command)
    | Close

  datatype Step = Remote(remote: nat, step: RemoteStep) | Pipe | Pager | Editor

  datatype Sink = DevNull | Stdout | Stderr | Gather(gather: nat) | ToPager(pager: nat)

  datatype Plan = Plan(
    steps: seq<Step>,
    stdin: Option<nat>,
    gatherCount: nat,
    pagerCount: nat,
    sinkMap: seq<Option<Sink>>)

  // For each pipe, whether its read end and its write end are still unused.
  type Ends = seq<(bool, bool)>

  function UseRead(ends: Ends, k: nat): Ends
    requires k < |ends|
  {
    ends[k := (false, ends[k].1)]
  }

  function UseWrite(ends: Ends, k: nat): Ends
    requires k < |ends|
  {
    ends[k := (ends[k].0, false)]
  }

  predicate CanRun(ends: Ends, p: PlanProcess) {
    && p.stdin < |ends| && p.stdout < |ends| && p.stderr < |ends|
    && ends[p.stdin].0 && ends[p.stdout].1 && ends[p.stderr].1 && p.stdout != p.stderr
  }

  function UseAll(ends: Ends, p: PlanProcess): Ends
    requires CanRun(ends, p)
  {
    UseWrite(UseWrite(UseRead(ends, p.stdin), p.stdout), p.stderr)
  }

  /** The ends left after `steps`, or `None` if some step wants an end that is gone. */
  function EndsAfter(steps: seq<Step>): Option<Ends> {
    if steps == [] then Some([])
    else
      match EndsAfter(steps[..|steps| - 1])
      case None => None
      case Some(ends) =>
        match steps[|steps| - 1]
        case Pipe => Some(ends + [(true, true)])
        case Remote(_, OpenOutputFile(_)) => Some(ends + [(false, true)])
        case Remote(_, Run(_, p)) => if CanRun(ends, p) then Some(UseAll(ends, p)) else None
        case _ => Some(ends)
  }

  datatype Builder = Builder(plan: Plan, nextProcess: nat, ends: Ends)
  {
    function Push(step: Step): Plan {
      plan.(steps := plan.steps + [step])
    }

    function WithPipe(): Builder {
      this.(plan := Push(Pipe), ends := ends + [(true, true)])
    }

    function WithFile(remote: nat, path: string): Builder {
      this.(plan := Push(Remote(remote, OpenOutputFile(path))), ends := ends + [(false, true)])
    }

    function WithCommand(remote: nat, cmd: Command, stdin: nat, stdout: nat, stderr: nat): Builder
      requires CanRun(ends, PlanProcess(nextProcess, stdin, stdout, stderr))
    {
      var p := PlanProcess(nextProcess, stdin, stdout, stderr);
      Builder(Push(Remote(remote, Run(cmd, p))), nextProcess + 1, UseAll(ends, p))
    }

    function WithSink(stream: nat, sink: Sink): Builder {
      var grown := plan.sinkMap + seq(if |plan.sinkMap| <= stream then stream + 1 - |plan.sinkMap| else 0, _ => None);
      this.(plan := plan.(sinkMap := grown[stream := Some(sink)]))
    }
  }

  const NEW_BUILDER := Builder(Plan([], None, 0, 0, []), 0, [])

  class PlanBuilder {
    var plan: Plan
    const procIds: Ids
    var pipes: Ends

    ghost function View(): Builder
      reads this, procIds
    {
      Builder(plan, procIds.nextId, pipes)
    }

    /** The flags are what the steps so far have left. */
    ghost predicate Valid()
      reads this
    {
      EndsAfter(plan.steps) == Some(pipes)
    }

    constructor ()
      ensures Valid() && View() == NEW_BUILDER && fresh(procIds)
    {
      plan := Plan([], None, 0, 0, []);
      procIds := new Ids();
      pipes := [];
    }

    method AddPipe() returns (id: nat)
      requires Valid()
      modifies this
      ensures Valid() && id == |old(pipes)| && View() == old(View()).WithPipe()
    {
      StepAdded(plan.steps, Pipe);
      id := |pipes|;
      pipes := pipes + [(true, true)];
      plan := plan.(steps := plan.steps + [Pipe]);
    }

    method Exit(remote: nat)
      requires Valid()
      modifies this
      ensures plan == old(plan).(steps := old(plan).steps + [Remote(remote, Close)]) && pipes == old(pipes)
    {
      plan := plan.(steps := plan.steps + [Remote(remote, Close)]);
    }

    method AddFileOutput(remote: nat, file: string) returns (id: nat)
      requires Valid()
      modifies this
      ensures Valid() && id == |old(pipes)| && View() == old(View()).WithFile(remote, file)
    {
      StepAdded(plan.steps, Remote(remote, OpenOutputFile(file)));
      id := |pipes|;
      pipes := pipes + [(false, true)];
      plan := plan.(steps := plan.steps + [Remote(remote, OpenOutputFile(file))]);
    }

    method UseReadEnd(pipe: nat)
      requires pipe < |pipes| && pipes[pipe].0 // assert!
      modifies this`pipes
      ensures pipes == UseRead(old(pipes), pipe)
    {
      pipes := pipes[pipe := (false, pipes[pipe].1)];
    }

    method UseWriteEnd(pipe: nat)
      requires pipe < |pipes| && pipes[pipe].1 // assert!
      modifies this`pipes
      ensures pipes == UseWrite(old(pipes), pipe)
    {
      pipes := pipes[pipe := (pipes[pipe].0, false)];
    }

    method AddCommand(remote: nat, cmd: Command, stdin: nat, stdout: nat, stderr: nat)
      requires Valid() && CanRun(pipes, PlanProcess(procIds.nextId, stdin, stdout, stderr))
      modifies this, procIds
      ensures Valid() && View() == old(View()).WithCommand(remote, cmd, stdin, stdout, stderr)
    {
      StepAdded(plan.steps, Remote(remote, Run(cmd, PlanProcess(procIds.nextId, stdin, stdout, stderr))));
      UseReadEnd(stdin);
      UseWriteEnd(stdout);
      UseWriteEnd(stderr);
      var id := procIds.Next();
      plan := plan.(steps := plan.steps + [Remote(remote, Run(cmd, PlanProcess(id, stdin, stdout, stderr)))]);
    }

    method SetStdin(stdin: Option<nat>)
      requires Valid()
      modifies this`plan
      ensures Valid() && plan == old(plan).(stdin := stdin)
    {
      plan := plan.(stdin := stdin);
    }

    method AddSink(stream: nat, sink: Sink)
      requires Valid() && (stream < |plan.sinkMap| ==> plan.sinkMap[stream].None?) // assert!
      modifies this`plan
      ensures Valid() && View() == old(View()).WithSink(stream, sink)
    {
      ghost var before := plan.sinkMap;
      while |plan.sinkMap| <= stream
        invariant plan == old(plan).(sinkMap := plan.sinkMap)
        invariant |plan.sinkMap| <= |before| || |plan.sinkMap| <= stream + 1
        invariant |before| <= |plan.sinkMap|
        invariant plan.sinkMap == before + seq(|plan.sinkMap| - |before|, _ => None)
      {
        plan := plan.(sinkMap := plan.sinkMap + [None]);
      }
      plan := plan.(sinkMap := plan.sinkMap[stream := Some(sink)]);
    }
  }

  lemma StepAdded(steps: seq<Step>, step: Step)
    ensures (steps + [step])[..|steps|] == steps
  {
  }
}
