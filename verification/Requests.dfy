// The requests that the frontend has sent so far: which pipe ends they may use, and
// which commands they depend on.

module Requests {
  import opened Protocol
  import opened Driver
  import opened Plans
  import opened ClientSide
  import opened Interpretation
  import Pipes

  /** The pipe operations that a request can lead to. */
  function RequestOps(r: Request): seq<Pipes.Op> {
    match r
    case BeginCommand(_, _, c) => AllEnds(c.pipes)
    case OpenFile(id, path) => [Pipes.OpenOutput(id, path)]
    case StartRead(id) => [Pipes.ReadEnd(id)]
    case _ => []
  }

  function AllOps(reqs: seq<Request>): seq<Pipes.Op> {
    if reqs == [] then [] else AllOps(reqs[..|reqs| - 1]) + RequestOps(reqs[|reqs| - 1])
  }

  function Pids(reqs: seq<Request>): set<Pid> {
    set r | r in reqs && r.BeginCommand? :: r.pid
  }

  /** Every pipe end is asked for at most once, in an order in which it can be had. */
  ghost predicate Linear(reqs: seq<Request>, nextId: nat) {
    Pipes.ClashFree(AllOps(reqs)) && forall op :: op in AllOps(reqs) ==> op.id < nextId
  }

  /** Process ids are new, and commands depend on earlier ones without a condition. */
  ghost predicate Dependable(reqs: seq<Request>, nextId: nat) {
    forall i :: 0 <= i < |reqs| && reqs[i].BeginCommand? ==>
      && reqs[i].pid < nextId
      && reqs[i].pid !in Pids(reqs[..i])
      && forall d :: d in reqs[i].blockFor ==> reqs[i].blockFor[d] == None && d in Pids(reqs[..i])
  }

  ghost predicate Sane(c: Client) {
    && Linear(c.sent, c.nextId)
    && Dependable(c.sent, c.nextId)
    && Pids(c.sent) <= c.jobs
    && (forall r :: r in c.sent && r.StartRead? ==> r.pipe in c.pipes)
  }

  /** The ends that the interpreter holds have not been asked for, and it holds none twice. */
  ghost predicate Unused(ops: seq<Pipes.Op>, slots: seq<Slot>, nextId: nat) {
    && (forall k :: 0 <= k < |slots| && slots[k].read.Some? ==>
          slots[k].read.value < nextId && !Pipes.Blocks(ops, Pipes.ReadEnd(slots[k].read.value)))
    && (forall k :: 0 <= k < |slots| && slots[k].write.Some? ==>
          slots[k].write.value < nextId && !Pipes.Blocks(ops, Pipes.WriteEnd(slots[k].write.value)))
    && (forall j, k :: 0 <= j < k < |slots| && slots[j].read.Some? && slots[k].read.Some? ==>
          slots[j].read != slots[k].read)
    && (forall j, k :: 0 <= j < k < |slots| && slots[j].write.Some? && slots[k].write.Some? ==>
          slots[j].write != slots[k].write)
  }

  lemma AllOpsPush(reqs: seq<Request>, r: Request)
    ensures AllOps(reqs + [r]) == AllOps(reqs) + RequestOps(r)
  {
    assert (reqs + [r])[..|reqs|] == reqs;
  }

  lemma PidsPush(reqs: seq<Request>, r: Request)
    ensures Pids(reqs + [r]) == Pids(reqs) + if r.BeginCommand? then {r.pid} else {}
  {
    var all := reqs + [r];
    assert forall x :: x in all <==> x in reqs || x == r;
  }

  /** One more operation that nothing before it blocks. */
  lemma OpPush(ops: seq<Pipes.Op>, op: Pipes.Op)
    requires Pipes.ClashFree(ops) && !Pipes.Blocks(ops, op)
    ensures Pipes.ClashFree(ops + [op])
    ensures forall o :: Pipes.Blocks(ops + [op], o) <==> Pipes.Blocks(ops, o) || Pipes.Clashes(op, o)
  {
    Pipes.ClashFreeStep(ops, op);
    Pipes.OwnersStep(ops, op);
  }

  lemma NewIdFree(ops: seq<Pipes.Op>, op: Pipes.Op)
    requires forall o :: o in ops ==> o.id != op.id
    ensures !Pipes.Blocks(ops, op)
  {
  }

  /** A request without process or pipe ends changes nothing here. */
  lemma DependablePush(reqs: seq<Request>, r: Request, nextId: nat, nextId': nat)
    requires Dependable(reqs, nextId) && nextId <= nextId'
    requires r.BeginCommand? ==>
               && r.pid < nextId' && r.pid !in Pids(reqs)
               && forall d :: d in r.blockFor ==> r.blockFor[d] == None && d in Pids(reqs)
    ensures Dependable(reqs + [r], nextId')
  {
    var all := reqs + [r];
    forall i | 0 <= i < |all| && all[i].BeginCommand?
      ensures all[i].pid < nextId' && all[i].pid !in Pids(all[..i])
      ensures forall d :: d in all[i].blockFor ==> all[i].blockFor[d] == None && d in Pids(all[..i])
    {
      assert all[..i] == if i < |reqs| then reqs[..i] else reqs;
      assert i < |reqs| ==> all[i] == reqs[i];
    }
  }

  lemma {:induction false} PidsBelow(reqs: seq<Request>, nextId: nat)
    requires Dependable(reqs, nextId)
    ensures forall p :: p in Pids(reqs) ==> p < nextId
  {
  }

  ghost predicate StepInv(c: Client, d: Client, slots: seq<Slot>, wait: set<Pid>) {
    && Sane(d) && Unused(AllOps(d.sent), slots, d.nextId)
    && d == c.(nextId := d.nextId, pipes := d.pipes, jobs := d.jobs, sent := d.sent)
    && c.nextId <= d.nextId && c.pipes <= d.pipes && c.jobs <= d.jobs && c.sent <= d.sent
    && Pids(d.sent) == Pids(c.sent) + wait && Pids(c.sent) !! wait && Pids(d.sent[|c.sent|..]) == wait
    && (forall r :: r in d.sent[|c.sent|..] ==> r.BeginCommand? || r.OpenFile?)
    && (forall k :: 0 <= k < |slots| && slots[k].read.Some? ==>
          c.nextId <= slots[k].read.value && slots[k].read.value in d.pipes)
    && (forall k :: 0 <= k < |slots| && slots[k].write.Some? ==> c.nextId <= slots[k].write.value)
    && (forall op :: op in AllOps(d.sent[|c.sent|..]) ==> c.nextId <= op.id)
  }

  lemma StepKeeps(c: Client, d: Client, slots: seq<Slot>, wait: set<Pid>, step: Step)
    requires StepInv(c, d, slots, wait) && Emitted(step) && DoStep(d, slots, wait, step).Going?
    ensures var p := DoStep(d, slots, wait, step); StepInv(c, p.client, p.slots, p.wait)
  {
    match step {
      case Pipe => PipeKeeps(c, d, slots, wait);
      case Remote(_, OpenOutputFile(path)) => FileKeeps(c, d, slots, wait, path);
      case Remote(_, Run(cmd, p)) => RunStepKeeps(c, d, slots, wait, cmd, p);
    }
  }

  lemma PipeKeeps(c: Client, d: Client, slots: seq<Slot>, wait: set<Pid>)
    requires StepInv(c, d, slots, wait)
    ensures StepInv(c, d.WithPipe(), slots + [Slot(Some(d.nextId), Some(d.nextId))], wait)
  {
    NewIdFree(AllOps(d.sent), Pipes.ReadEnd(d.nextId));
    NewIdFree(AllOps(d.sent), Pipes.WriteEnd(d.nextId));
    hide AllOps, Pids, Pipes.ClashFree;
    assert Dependable(d.sent, d.nextId + 1);
  }

  lemma FileKeeps(c: Client, d: Client, slots: seq<Slot>, wait: set<Pid>, path: string)
    requires StepInv(c, d, slots, wait)
    ensures StepInv(c, d.WithFile(path), slots + [Slot(None, Some(d.nextId))], wait)
  {
    hide AllOps, Pids, Pipes.ClashFree, Pipes.Blocks, Dependable, Unused;
    var r := OpenFile(d.nextId, path);
    AllOpsPush(d.sent, r);
    PidsPush(d.sent, r);
    DependablePush(d.sent, r, d.nextId, d.nextId + 1);
    OpenKeeps(AllOps(d.sent), slots, d.nextId, path);
    PrefixPush(c.sent, d.sent, r);
  }

  lemma PrefixPush(a: seq<Request>, b: seq<Request>, r: Request)
    requires a <= b
    ensures a <= b + [r] && (b + [r])[|a|..] == b[|a|..] + [r]
    ensures AllOps((b + [r])[|a|..]) == AllOps(b[|a|..]) + RequestOps(r)
    ensures Pids((b + [r])[|a|..]) == Pids(b[|a|..]) + if r.BeginCommand? then {r.pid} else {}
  {
    assert (b + [r])[|a|..] == b[|a|..] + [r];
    AllOpsPush(b[|a|..], r);
    PidsPush(b[|a|..], r);
  }

  lemma NoOps()
    ensures AllOps([]) == []
  {
  }

  lemma Concat<T>(a: seq<T>, b: seq<T>, c: seq<T>)
    ensures (a + b) + c == a + (b + c)
  {
  }

  lemma {:induction false} AllOpsAppend(a: seq<Request>, b: seq<Request>)
    ensures AllOps(a + b) == AllOps(a) + AllOps(b)
    decreases b
  {
    hide RequestOps, AllOps;
    NoOps();
    if b == [] {
      assert a + b == a;
    } else {
      var rest, r := b[..|b| - 1], b[|b| - 1];
      assert a + b == (a + rest) + [r] && b == rest + [r];
      AllOpsPush(a + rest, r);
      AllOpsPush(rest, r);
      AllOpsAppend(a, rest);
      Concat(AllOps(a), AllOps(rest), RequestOps(r));
    }
  }

  lemma OpenKeeps(ops: seq<Pipes.Op>, slots: seq<Slot>, nextId: nat, path: string)
    requires Pipes.ClashFree(ops) && Unused(ops, slots, nextId) && forall op :: op in ops ==> op.id < nextId
    ensures var all := ops + [Pipes.OpenOutput(nextId, path)];
            Pipes.ClashFree(all) && Unused(all, slots + [Slot(None, Some(nextId))], nextId + 1)
  {
    hide Pipes.ClashFree, Pipes.Blocks;
    NewIdFree(ops, Pipes.OpenOutput(nextId, path));
    NewIdFree(ops, Pipes.WriteEnd(nextId));
    OpPush(ops, Pipes.OpenOutput(nextId, path));
  }

  lemma RunStepKeeps(c: Client, d: Client, slots: seq<Slot>, wait: set<Pid>, cmd: Command, p: PlanProcess)
    requires StepInv(c, d, slots, wait) && CanTake(slots, p)
    ensures var step := DoStep(d, slots, wait, Remote(0, Run(cmd, p))); StepInv(c, step.client, step.slots, step.wait)
  {
    hide AllOps, Pids, Pipes.ClashFree, Pipes.Blocks, Dependable, Unused, Outputs, TakeRead, TakeWrite;
    var pipes := WritePipes(slots[p.stdin].read.value, slots[p.stdout].write.value, slots[p.stderr].write.value);
    var r := BeginCommand(d.nextId, map[], RunCmd(cmd, pipes));
    PidsBelow(d.sent, d.nextId);
    AllOpsPush(d.sent, r);
    PidsPush(d.sent, r);
    DependablePush(d.sent, r, d.nextId, d.nextId + 1);
    TakeKeeps(AllOps(d.sent), slots, d.nextId, p, pipes);
    SlotsTaken(slots, p);
    PrefixPush(c.sent, d.sent, r);
    CommandOpIds(pipes, c.nextId);
  }

  lemma CommandOpIds(pipes: WritePipes, from: nat)
    requires from <= pipes.stdin && from <= pipes.stdout && from <= pipes.stderr
    ensures forall op :: op in AllEnds(pipes) ==> from <= op.id
  {
  }

  lemma TakeKeeps(ops: seq<Pipes.Op>, slots: seq<Slot>, nextId: nat, p: PlanProcess, pipes: WritePipes)
    requires Pipes.ClashFree(ops) && Unused(ops, slots, nextId) && CanTake(slots, p)
    requires forall op :: op in ops ==> op.id < nextId
    requires pipes == WritePipes(slots[p.stdin].read.value, slots[p.stdout].write.value, slots[p.stderr].write.value)
    ensures var all := ops + AllEnds(pipes);
            && Pipes.ClashFree(all)
            && (forall op :: op in all ==> op.id < nextId)
            && Unused(all, TakeRead(TakeWrite(TakeWrite(slots, p.stdout), p.stderr), p.stdin), nextId + 1)
  {
    hide Pipes.ClashFree, Pipes.Blocks;
    ThreeEnds(ops, pipes);
    SlotsTaken(slots, p);
  }

  lemma SlotsTaken(slots: seq<Slot>, p: PlanProcess)
    requires CanTake(slots, p)
    ensures var left := TakeRead(TakeWrite(TakeWrite(slots, p.stdout), p.stderr), p.stdin);
            && |left| == |slots|
            && (forall k :: 0 <= k < |left| ==> left[k].read == if k == p.stdin then None else slots[k].read)
            && (forall k :: 0 <= k < |left| ==>
                  left[k].write == if k == p.stdout || k == p.stderr then None else slots[k].write)
  {
  }

  lemma ThreeEnds(ops: seq<Pipes.Op>, pipes: WritePipes)
    requires Pipes.ClashFree(ops) && pipes.stdout != pipes.stderr
    requires !Pipes.Blocks(ops, Pipes.ReadEnd(pipes.stdin))
    requires !Pipes.Blocks(ops, Pipes.WriteEnd(pipes.stdout)) && !Pipes.Blocks(ops, Pipes.WriteEnd(pipes.stderr))
    ensures var all := ops + AllEnds(pipes);
            && Pipes.ClashFree(all)
            && (forall id :: id != pipes.stdin ==>
                  (Pipes.Blocks(all, Pipes.ReadEnd(id)) <==> Pipes.Blocks(ops, Pipes.ReadEnd(id))))
            && (forall id :: id != pipes.stdout && id != pipes.stderr ==>
                  (Pipes.Blocks(all, Pipes.WriteEnd(id)) <==> Pipes.Blocks(ops, Pipes.WriteEnd(id))))
  {
    var (a, b, c) := (Pipes.ReadEnd(pipes.stdin), Pipes.WriteEnd(pipes.stdout), Pipes.WriteEnd(pipes.stderr));
    OpPush(ops, a);
    OpPush(ops + [a], b);
    OpPush(ops + [a] + [b], c);
    assert ops + AllEnds(pipes) == ops + [a] + [b] + [c];
  }

  /** The steps of a plan ask for new ends only, each of them once, and wire them as planned. */
  lemma StepsKeep(c: Client, steps: seq<Step>) returns (ids: seq<PipeId>)
    requires Sane(c) && (forall s :: s in steps ==> Emitted(s)) && DoSteps(c, steps).Going?
    ensures var p := DoSteps(c, steps); StepInv(c, p.client, p.slots, p.wait) && Wired(c, p, steps, ids)
  {
    StepsStay(c, steps);
    ids := StepsWired(c, steps);
  }

  lemma {:induction false} StepsStay(c: Client, steps: seq<Step>)
    requires Sane(c) && (forall s :: s in steps ==> Emitted(s)) && DoSteps(c, steps).Going?
    ensures var p := DoSteps(c, steps); StepInv(c, p.client, p.slots, p.wait)
  {
    hide Sane, StepInv, Emitted;
    if steps == [] {
      StepsBegin(c);
    } else {
      var rest, last := steps[..|steps| - 1], steps[|steps| - 1];
      assert last in steps;
      StepsStay(c, rest);
      var p := DoSteps(c, rest);
      StepKeeps(c, p.client, p.slots, p.wait, last);
    }
  }

  lemma StepsBegin(c: Client)
    requires Sane(c)
    ensures StepInv(c, c, [], {})
  {
  }

  /** Reading a pipe whose read end has not been asked for. */
  lemma ReadKeeps(c: Client, pipe: PipeId)
    requires Sane(c) && pipe in c.pipes && pipe < c.nextId && !Pipes.Blocks(AllOps(c.sent), Pipes.ReadEnd(pipe))
    ensures Sane(c.Send(StartRead(pipe)))
    ensures Pids(c.Send(StartRead(pipe)).sent) == Pids(c.sent)
    ensures forall id :: Pipes.Blocks(AllOps(c.Send(StartRead(pipe)).sent), Pipes.ReadEnd(id)) <==>
              id == pipe || Pipes.Blocks(AllOps(c.sent), Pipes.ReadEnd(id))
  {
    hide AllOps, Pids, Pipes.ClashFree, Pipes.Blocks, Dependable;
    AllOpsPush(c.sent, StartRead(pipe));
    PidsPush(c.sent, StartRead(pipe));
    DependablePush(c.sent, StartRead(pipe), c.nextId, c.nextId);
    OpPush(AllOps(c.sent), Pipes.ReadEnd(pipe));
  }

  lemma LimitKeeps(c: Client, pipe: PipeId)
    requires Sane(c)
    ensures Sane(c.Send(ReadUpTo(pipe, READ_LIMIT)))
    ensures Pids(c.Send(ReadUpTo(pipe, READ_LIMIT)).sent) == Pids(c.sent)
    ensures AllOps(c.Send(ReadUpTo(pipe, READ_LIMIT)).sent) == AllOps(c.sent)
  {
    hide AllOps, Pids, Pipes.ClashFree, Pipes.Blocks, Dependable;
    AllOpsPush(c.sent, ReadUpTo(pipe, READ_LIMIT));
    PidsPush(c.sent, ReadUpTo(pipe, READ_LIMIT));
    DependablePush(c.sent, ReadUpTo(pipe, READ_LIMIT), c.nextId, c.nextId);
    assert AllOps(c.sent) + [] == AllOps(c.sent);
  }

  lemma AllocateKeeps(c: Client)
    requires Sane(c)
    ensures Sane(c.WithPipe())
    ensures !Pipes.Blocks(AllOps(c.sent), Pipes.ReadEnd(c.nextId))
    ensures !Pipes.Blocks(AllOps(c.sent), Pipes.WriteEnd(c.nextId))
  {
    NewIdFree(AllOps(c.sent), Pipes.ReadEnd(c.nextId));
    NewIdFree(AllOps(c.sent), Pipes.WriteEnd(c.nextId));
    hide AllOps, Pids, Pipes.ClashFree;
    assert Dependable(c.sent, c.nextId + 1);
  }

  /** Sending a command whose ends have not been asked for and whose dependencies were sent before. */
  lemma CommandKeeps(c: Client, blockFor: map<Pid, Condition>, cmd: RunCmd)
    requires Sane(c) && cmd.pipes.stdout != cmd.pipes.stderr
    requires cmd.pipes.stdin < c.nextId && cmd.pipes.stdout < c.nextId && cmd.pipes.stderr < c.nextId
    requires !Pipes.Blocks(AllOps(c.sent), Pipes.ReadEnd(cmd.pipes.stdin))
    requires !Pipes.Blocks(AllOps(c.sent), Pipes.WriteEnd(cmd.pipes.stdout))
    requires !Pipes.Blocks(AllOps(c.sent), Pipes.WriteEnd(cmd.pipes.stderr))
    requires forall d :: d in blockFor ==> blockFor[d] == None && d in Pids(c.sent)
    ensures Sane(c.WithCommand(blockFor, cmd))
    ensures c.nextId !in Pids(c.sent) && Pids(c.WithCommand(blockFor, cmd).sent) == Pids(c.sent) + {c.nextId}
    ensures forall id :: id != cmd.pipes.stdin ==>
              (Pipes.Blocks(AllOps(c.WithCommand(blockFor, cmd).sent), Pipes.ReadEnd(id)) <==>
               Pipes.Blocks(AllOps(c.sent), Pipes.ReadEnd(id)))
  {
    hide AllOps, Pids, Pipes.ClashFree, Pipes.Blocks, Dependable;
    var r := BeginCommand(c.nextId, blockFor, cmd);
    PidsBelow(c.sent, c.nextId);
    AllOpsPush(c.sent, r);
    PidsPush(c.sent, r);
    DependablePush(c.sent, r, c.nextId, c.nextId + 1);
    ThreeEnds(AllOps(c.sent), cmd.pipes);
  }

  ghost predicate ReadBlocked(c: Client, id: PipeId) {
    Pipes.Blocks(AllOps(c.sent), Pipes.ReadEnd(id))
  }

  /** `q` asks for the working directory once all of `wait` is done, on these pipes. */
  ghost predicate Queries(q: Request, wait: set<Pid>, stdout: PipeId, stderr: PipeId) {
    && q.BeginCommand? && q.cmd.cmd == GetDirectory
    && q.cmd.pipes.stdout == stdout && q.cmd.pipes.stderr == stderr
    && q.blockFor.Keys == wait && forall p :: p in q.blockFor ==> q.blockFor[p] == None
  }

  lemma BothReadKeep(c: Client, out: PipeId, err: PipeId)
    requires Sane(c) && out in c.pipes && err in c.pipes && out < c.nextId && err < c.nextId && out != err
    requires !ReadBlocked(c, out) && !ReadBlocked(c, err)
    ensures var d := c.(sent := c.sent
                + [StartRead(out), StartRead(err), ReadUpTo(out, READ_LIMIT), ReadUpTo(err, READ_LIMIT)]);
            && Sane(d) && Pids(d.sent) == Pids(c.sent)
            && forall id :: id != out && id != err ==> (ReadBlocked(d, id) <==> ReadBlocked(c, id))
  {
    hide AllOps, Pids, Sane;
    var c1, c2 := c.Send(StartRead(out)), c.Send(StartRead(out)).Send(StartRead(err));
    ReadKeeps(c, out);
    ReadKeeps(c1, err);
    LimitKeeps(c2, out);
    var c3 := c2.Send(ReadUpTo(out, READ_LIMIT));
    LimitKeeps(c3, err);
    assert c3.Send(ReadUpTo(err, READ_LIMIT)).sent == c.sent
      + [StartRead(out), StartRead(err), ReadUpTo(out, READ_LIMIT), ReadUpTo(err, READ_LIMIT)];
  }

  lemma AskSane(d: Client, wait: set<Pid>)
    requires Sane(d) && wait <= Pids(d.sent)
    ensures var (e, everyone) := AskDirectory(d, wait);
            && Sane(e)
            && everyone == wait + {d.nextId + 3}
            && Pids(e.sent) == Pids(d.sent) + {d.nextId + 3} && d.nextId + 3 !in Pids(d.sent)
            && (forall id: nat :: id < d.nextId ==> (ReadBlocked(e, id) <==> ReadBlocked(d, id)))
  {
    hide AllOps, Pids, Sane;
    var (out, err, input) := (d.nextId, d.nextId + 1, d.nextId + 2);
    AllocateKeeps(d);
    AllocateKeeps(d.WithPipe());
    AllocateKeeps(d.WithPipe().WithPipe());
    var prepared := d.WithPipe().WithPipe().WithPipe();
    var cmd := RunCmd(GetDirectory, WritePipes(input, out, err));
    CommandKeeps(prepared, map p | p in wait :: None, cmd);
    var asked := prepared.WithCommand(map p | p in wait :: None, cmd);
    BothReadKeep(asked, out, err);
    var (e, everyone) := AskDirectory(d, wait);
    SaneFields(asked.(sent := e.sent), e);
    forall id: nat | id < d.nextId ensures ReadBlocked(e, id) <==> ReadBlocked(d, id) {
      assert ReadBlocked(asked.(sent := e.sent), id) <==> ReadBlocked(asked, id);
    }
  }

  /** The question for the working directory: it waits for all of `wait` and takes new ends. */
  lemma AskKeeps(d: Client, wait: set<Pid>)
    requires Sane(d) && wait <= Pids(d.sent)
    ensures var (e, everyone) := AskDirectory(d, wait);
            && Sane(e)
            && everyone == wait + {d.nextId + 3}
            && Pids(e.sent) == Pids(d.sent) + {d.nextId + 3} && d.nextId + 3 !in Pids(d.sent)
            && (forall id: nat :: id < d.nextId ==> (ReadBlocked(e, id) <==> ReadBlocked(d, id)))
            && |d.sent| < |e.sent| && d.sent <= e.sent
            && e.sent[|d.sent|].BeginCommand? && e.sent[|d.sent|].pid == d.nextId + 3
            && Queries(e.sent[|d.sent|], wait, d.nextId, d.nextId + 1)
  {
    hide AllOps, Pids, Sane, ReadBlocked, AskDirectory;
    AskSane(d, wait);
    AskQueries(d, wait);
  }

  lemma AskQueries(d: Client, wait: set<Pid>)
    ensures var e := AskDirectory(d, wait).0;
            && |d.sent| < |e.sent| && d.sent <= e.sent
            && e.sent[|d.sent|].BeginCommand? && e.sent[|d.sent|].pid == d.nextId + 3
            && Queries(e.sent[|d.sent|], wait, d.nextId, d.nextId + 1)
  {
  }

  lemma SaneFields(c: Client, d: Client)
    requires Sane(c) && d.sent == c.sent && d.nextId == c.nextId && d.jobs == c.jobs && d.pipes == c.pipes
    ensures Sane(d)
  {
  }

  /** Starting to read one collected pipe. */
  lemma SinkKeeps(c: Client, pipe: PipeId, d: Client)
    requires Sane(c) && pipe in c.pipes && pipe < c.nextId && !ReadBlocked(c, pipe)
    requires d.sent == c.WithRead(pipe).sent && d.nextId == c.nextId && d.jobs == c.jobs && d.pipes == c.pipes
    ensures Sane(d) && Pids(d.sent) == Pids(c.sent)
    ensures forall id: nat :: ReadBlocked(d, id) <==> id == pipe || ReadBlocked(c, id)
  {
    hide AllOps, Pids, Sane;
    ReadKeeps(c, pipe);
    LimitKeeps(c.Send(StartRead(pipe)), pipe);
    assert d.sent == c.Send(StartRead(pipe)).Send(ReadUpTo(pipe, READ_LIMIT)).sent;
    SaneFields(c.Send(StartRead(pipe)).Send(ReadUpTo(pipe, READ_LIMIT)), d);
  }

  // What the compiler guarantees of a plan.
  ghost predicate GoodPlan(plan: Plan) {
    && (forall s :: s in plan.steps ==> Emitted(s))
    && EndsAfter(plan.steps).Some?
    && (var ends := EndsAfter(plan.steps).value; |ends| >= 2 && ends[0].0 && ends[1].0)
    && plan.sinkMap == [Some(Sink.Stdout), Some(Sink.Stderr)]
  }

  /** The requests of a prompt: those of the plan's steps, with the ids of its pipes, and then
      the question for the working directory. */
  datatype Submission = Submission(ids: seq<PipeId>, line: seq<Request>, query: Request)

  function Reads(out: PipeId, err: PipeId, o: PipeId, e: PipeId): seq<Request> {
    [StartRead(out), StartRead(err), ReadUpTo(out, READ_LIMIT), ReadUpTo(err, READ_LIMIT)]
    + [StartRead(o), ReadUpTo(o, READ_LIMIT), StartRead(e), ReadUpTo(e, READ_LIMIT)]
  }

  /** Turning `c` into `d`, a prompt submits `b` for a plan of these steps: commands are
      started on the pipes to which the plan connects them, the question waits for all of
      them, and the frontend reads its answer and both collected pipes. */
  ghost predicate Submits(c: Client, d: Client, steps: seq<Step>, b: Submission) {
    && |b.ids| >= 2 && Distinct(b.ids) && b.query.BeginCommand?
    && (var q := b.query.cmd.pipes;
        && d.sent == c.sent + b.line + [b.query] + Reads(q.stdout, q.stderr, b.ids[0], b.ids[1])
        && Wires(steps, b.ids, b.line)
        && Queries(b.query, Pids(b.line), q.stdout, q.stderr)
        && (forall id :: id in b.ids || id == q.stdout || id == q.stderr ==> c.nextId <= id < d.nextId)
        && q.stdout !in b.ids && q.stderr !in b.ids && q.stdout != q.stderr
        && d.gathering == c.gathering[q.stdout := []] && d.waitingForEof == c.waitingForEof + {q.stdout}
        && d.cwdFor == c.cwdFor[ROOT := q.stdout] && d.finished == c.finished
        && d.stdoutPipes == c.stdoutPipes + {b.ids[0]} && d.stderrPipes == c.stderrPipes + {q.stderr, b.ids[1]})
    && d.waitingFor == Pids(b.line) + {b.query.pid}
  }

  /** What a prompt changes: it submits the plan's requests, with new ids. */
  ghost predicate Issued(c: Client, d: Client, steps: seq<Step>) {
    && Sane(d) && c.nextId <= d.nextId && c.sent <= d.sent && c.pipes <= d.pipes && c.jobs <= d.jobs
    && Pids(d.sent) == Pids(c.sent) + d.waitingFor && Pids(c.sent) !! d.waitingFor
    && d.remotes == c.remotes && d.waitingForRemote == c.waitingForRemote
    && d.printed == c.printed && d.complained == c.complained
    && (forall r :: r in d.sent[|c.sent|..] ==> !r.FinishEdit?)
    && (forall op :: op in AllOps(d.sent[|c.sent|..]) ==> c.nextId <= op.id)
    && exists b :: Submits(c, d, steps, b)
  }

  /** A plan that the compiler can have made never crashes, whatever was sent before: it uses
      every pipe end once, on the pipes it names, and is followed by a question that waits for it. */
  lemma IssueKeeps(c: Client, plan: Plan)
    requires Sane(c) && GoodPlan(plan) && c.waitingFor == {}
    ensures Perform(c, plan).Going?
    ensures Issued(c, Perform(c, plan).client, plan.steps)
  {
    hide Sane, StepInv, Emitted, AllOps, Pids, Issued, DoSteps, AskDirectory, Wired;
    StepsGo(c, plan.steps);
    var ids := StepsKeep(c, plan.steps);
    var p := DoSteps(c, plan.steps);
    StepFacts(c, p.client, p.slots, p.wait);
    AskKeeps(p.client, p.wait);
    SinksGo(c, p, plan.steps, ids, plan.sinkMap);
  }

  lemma StepFacts(c: Client, d: Client, slots: seq<Slot>, wait: set<Pid>)
    requires StepInv(c, d, slots, wait)
    ensures Sane(d) && wait <= Pids(d.sent)
  {
  }

  /** Both collected pipes are read; `o` and `r` are their ids. */
  function Collected(e: Client, o: PipeId, r: PipeId): Client {
    var f := e.WithRead(o).(stdoutPipes := e.stdoutPipes + {o});
    f.WithRead(r).(stderrPipes := f.stderrPipes + {r})
  }

  lemma TwoSinks(e: Client, slots: seq<Slot>, sinks: seq<Option<Sink>>)
    requires |slots| >= 2 && slots[0].read.Some? && slots[1].read.Some?
    requires sinks == [Some(Sink.Stdout), Some(Sink.Stderr)]
    ensures DoSinks(e, slots, sinks).Returned?
    ensures DoSinks(e, slots, sinks).value.0 == Collected(e, slots[0].read.value, slots[1].read.value)
  {
    var o := slots[0].read.value;
    var f := e.WithRead(o).(stdoutPipes := e.stdoutPipes + {o});
    assert sinks[..1] == [Some(Sink.Stdout)] && sinks[..1][..0] == [];
    assert DoSinks(e, slots, sinks[..1]) == Returned((f, TakeRead(slots, 0)));
  }

  lemma SinksGo(c: Client, p: Progress, steps: seq<Step>, ids: seq<PipeId>, sinks: seq<Option<Sink>>)
    requires p.Going? && StepInv(c, p.client, p.slots, p.wait) && Wired(c, p, steps, ids)
    requires |p.slots| >= 2 && p.slots[0].read.Some? && p.slots[1].read.Some?
    requires sinks == [Some(Sink.Stdout), Some(Sink.Stderr)] && c.waitingFor == {}
    requires var (e, everyone) := AskDirectory(p.client, p.wait);
             && Sane(e) && everyone == p.wait + {p.client.nextId + 3}
             && Pids(e.sent) == Pids(p.client.sent) + {p.client.nextId + 3}
             && p.client.nextId + 3 !in Pids(p.client.sent)
             && (forall id: nat :: id < p.client.nextId ==> (ReadBlocked(e, id) <==> ReadBlocked(p.client, id)))
    ensures var (e, everyone) := AskDirectory(p.client, p.wait);
            && DoSinks(e, p.slots, sinks).Returned?
            && DoSinks(e, p.slots, sinks).value.0.waitingFor == {}
            && Issued(c, DoSinks(e, p.slots, sinks).value.0.(waitingFor := everyone), steps)
  {
    hide Sane, AllOps, Pids, Pipes.Blocks, DoSinks, Issued, Wires;
    var (e, everyone) := AskDirectory(p.client, p.wait);
    var (o, r) := (ids[0], ids[1]);
    assert !ReadBlocked(p.client, o) && !ReadBlocked(p.client, r) && o != r;
    var f := e.WithRead(o).(stdoutPipes := e.stdoutPipes + {o});
    var g := Collected(e, o, r);
    SinkKeeps(e, o, f);
    SinkKeeps(f, r, g);
    TwoSinks(e, p.slots, sinks);
    SaneFields(g, g.(waitingFor := everyone));
    CollectedIssued(c, p, steps, ids);
  }

  function QueryOf(d: Client, wait: set<Pid>): Request {
    BeginCommand(d.nextId + 3, map p | p in wait :: None,
                 RunCmd(GetDirectory, WritePipes(stdin := d.nextId + 2, stdout := d.nextId, stderr := d.nextId + 1)))
  }

  lemma CollectedSent(d: Client, wait: set<Pid>, o: PipeId, r: PipeId)
    ensures Collected(AskDirectory(d, wait).0, o, r).sent
         == d.sent + [QueryOf(d, wait)] + Reads(d.nextId, d.nextId + 1, o, r)
  {
  }

  lemma CollectedIssued(c: Client, p: Progress, steps: seq<Step>, ids: seq<PipeId>)
    requires p.Going? && StepInv(c, p.client, p.slots, p.wait) && Wired(c, p, steps, ids) && |ids| >= 2
    requires p.client.nextId + 3 !in Pids(p.client.sent)
    requires var (e, everyone) := AskDirectory(p.client, p.wait);
             var g := Collected(e, ids[0], ids[1]);
             Sane(g.(waitingFor := everyone)) && Pids(g.sent) == Pids(p.client.sent) + {p.client.nextId + 3}
    ensures var (e, everyone) := AskDirectory(p.client, p.wait);
            Issued(c, Collected(e, ids[0], ids[1]).(waitingFor := everyone), steps)
  {
    hide Sane, Pids, AllOps, Wires, Unused, Queries, Submits;
    var d, line := p.client, p.client.sent[|c.sent|..];
    var (e, everyone) := AskDirectory(d, p.wait);
    var g := Collected(e, ids[0], ids[1]).(waitingFor := everyone);
    CollectedSent(d, p.wait, ids[0], ids[1]);
    var query, after := QueryOf(d, p.wait), Reads(d.nextId, d.nextId + 1, ids[0], ids[1]);
    CollectedRequests(c.sent, line, query, after, c.nextId);
    assert d.sent == c.sent + line;
    var b := Submission(ids, line, query);
    CollectedSubmits(c, p, steps, ids);
    assert Submits(c, g, steps, b);
  }

  lemma CollectedSubmits(c: Client, p: Progress, steps: seq<Step>, ids: seq<PipeId>)
    requires p.Going? && StepInv(c, p.client, p.slots, p.wait) && Wired(c, p, steps, ids) && |ids| >= 2
    ensures var (e, everyone) := AskDirectory(p.client, p.wait);
            Submits(c, Collected(e, ids[0], ids[1]).(waitingFor := everyone), steps,
                    Submission(ids, p.client.sent[|c.sent|..], QueryOf(p.client, p.wait)))
  {
    hide Sane, Pids, AllOps, Wires, Unused;
    CollectedSent(p.client, p.wait, ids[0], ids[1]);
    assert p.client.sent == c.sent + p.client.sent[|c.sent|..];
  }

  lemma CollectedRequests(before: seq<Request>, line: seq<Request>, query: Request, after: seq<Request>, from: nat)
    requires forall r :: r in line ==> r.BeginCommand? || r.OpenFile?
    requires forall op :: op in AllOps(line) ==> from <= op.id
    requires query.BeginCommand? && (forall op :: op in RequestOps(query) ==> from <= op.id)
    requires forall r :: r in after ==> (r.StartRead? && from <= r.pipe) || r.ReadUpTo?
    ensures var more := (before + line + [query] + after)[|before|..];
            && (forall r :: r in more ==> !r.FinishEdit?)
            && (forall op :: op in AllOps(more) ==> from <= op.id)
  {
    hide AllOps, RequestOps;
    var more := line + [query] + after;
    assert (before + line + [query] + after)[|before|..] == more;
    AllOpsAppend(line + [query], after);
    AllOpsPush(line, query);
    ReadOps(after, from);
  }

  lemma ReadOps(reqs: seq<Request>, from: nat)
    requires forall r :: r in reqs ==> (r.StartRead? && from <= r.pipe) || r.ReadUpTo?
    ensures forall op :: op in AllOps(reqs) ==> from <= op.id
  {
    hide AllOps;
    OpsOfRequests(reqs);
  }

  lemma {:induction false} OpsOfRequests(reqs: seq<Request>)
    ensures forall op :: op in AllOps(reqs) ==> exists r :: r in reqs && op in RequestOps(r)
  {
    hide RequestOps;
    if reqs != [] {
      OpsOfRequests(reqs[..|reqs| - 1]);
      assert reqs[|reqs| - 1] in reqs;
    }
  }
}
