// What the moves of the system keep about its past: commands arrive as they were sent, take
// their ends when they start, and are answered before anyone who waits for them starts.

module SystemHistory {
  import opened Protocol
  import opened Scheduling
  import opened Driver
  import opened DriverLemmas
  import opened DriverRuns
  import opened ClientSide
  import opened Interpretation
  import opened Plans
  import opened Requests
  import opened System
  import Pipes
  import Utf8

  type Sched = Schedule<RunCmd, ProcessState>
  type Ops = seq<Pipes.Op>
  type Answers = map<Pid, (bool, Bytes)>
  type Words = map<PipeId, Bytes>

  // --- Requests as they were sent ---

  lemma TakeOne(sent: seq<Request>, n: nat)
    requires n < |sent|
    ensures sent[..n + 1] == sent[..n] + [sent[n]]
  {
  }

  lemma PlacedAdd(taken: seq<Request>, s: Sched, r: Request)
    requires Placed(taken, s) && r.BeginCommand? && r.pid !in s.jobs
    ensures Placed(taken + [r], s.Add(r.pid, Job(r.cmd, r.blockFor)))
  {
  }

  lemma PlacedSkip(taken: seq<Request>, s: Sched, r: Request)
    requires Placed(taken, s) && !r.BeginCommand?
    ensures Placed(taken + [r], s)
  {
  }

  lemma PlacedSame(taken: seq<Request>, s: Sched, s': Sched)
    requires Placed(taken, s) && s'.jobs == s.jobs
    ensures Placed(taken, s')
  {
  }

  // --- Ends taken ---

  lemma BeganAdd(taken: seq<Request>, s: Sched, past: Ops, answers: Answers, written: Words, r: Request)
    requires Began(taken, s, past, answers, written) && s.WellFormed() && r.BeginCommand? && r.pid !in s.jobs
    ensures Began(taken + [r], s.Add(r.pid, Job(r.cmd, r.blockFor)), past, answers, written)
  {
    hide Answered, RequestOps, Schedule.WellFormed;
    UnknownIsIdle(s, r.pid);
    WritersStay(s, s.Add(r.pid, Job(r.cmd, r.blockFor)), past);
  }

  lemma UnknownIsIdle(s: Sched, p: Pid)
    requires s.WellFormed() && p !in s.jobs
    ensures p !in s.started && p !in s.done
  {
  }

  lemma WritersStay(s: Sched, s': Sched, past: Ops)
    requires forall op :: op in past ==> !op.OpenInput? && (op.WriteEnd? ==> exists p :: Writer(s, p, op.id))
    requires forall p, id :: Writer(s, p, id) ==> Writer(s', p, id)
    ensures forall op :: op in past ==> !op.OpenInput? && (op.WriteEnd? ==> exists p :: Writer(s', p, op.id))
  {
    hide Writer;
  }

  lemma BeganNow(taken: seq<Request>, s: Sched, past: Ops, answers: Answers, written: Words, r: Request)
    requires Began(taken, s, past, answers, written) && !r.BeginCommand?
    ensures Began(taken + [r], s, past + RequestOps(r), answers, written)
  {
    hide Answered, Writer;
    forall p | p in s.jobs && (p in s.started || p in s.done)
      ensures Answered(s.jobs[p].cmd, p in s.started, answers[p], past + RequestOps(r), written)
    {
      AnsweredStays(s.jobs[p].cmd, p in s.started, answers[p], past, RequestOps(r), written, written);
    }
  }

  lemma AnsweredStays(c: RunCmd, left: bool, answer: (bool, Bytes), past: Ops, more: Ops, written: Words,
                      written': Words)
    requires Answered(c, left, answer, past, written)
    requires forall id :: id in written && Pipes.WriteEnd(id) in past ==> id in written' && written'[id] == written[id]
    ensures Answered(c, left, answer, past + more, written')
  {
    if !left { ClosedOutputs(c, answer.0); }
  }

  // A command that is not left running takes both its outputs.
  lemma ClosedOutputs(c: RunCmd, ok: bool)
    requires !ResultOf(c.cmd, ok).Process?
    ensures Pipes.WriteEnd(c.pipes.stdout) in OpsOf(c, ok) && Pipes.WriteEnd(c.pipes.stderr) in OpsOf(c, ok)
  {
    var ops := Outputs(c.pipes);
    assert ops[0] == Pipes.WriteEnd(c.pipes.stdout) && ops[1] == Pipes.WriteEnd(c.pipes.stderr);
    assert forall op :: op in ops ==> op in OpsOf(c, ok);
  }

  // What the launch of `p` makes of what the backend wrote.
  function WordsAfter(c: RunCmd, answer: (bool, Bytes), written: Words): Words {
    if ResultOf(c.cmd, answer.0).Process? then written
    else Wrote(written, c.pipes, Says(c.cmd, answer.0, answer.1))
  }

  /** `p` is started; `s'` is the schedule afterwards. */
  ghost predicate StartsNow(s: Sched, s': Sched, p: Pid, ok: bool) {
    && p in s.jobs && s'.jobs == s.jobs && p !in s.started && p !in s.done
    && (forall q :: q != p ==> (q in s'.started <==> q in s.started) && (q in s'.done <==> q in s.done))
    && (forall q :: q != p && q in s.started ==> s'.started[q] == s.started[q])
    && (p in s'.started ==> ResultOf(s.jobs[p].cmd.cmd, ok) == Process(s'.started[p]))
    && (p in s'.started <==> ResultOf(s.jobs[p].cmd.cmd, ok).Process?)
    && (p in s'.done <==> !ResultOf(s.jobs[p].cmd.cmd, ok).Process?)
  }

  lemma BeganLaunch(taken: seq<Request>, s: Sched, s': Sched, past: Ops, answers: Answers, written: Words, p: Pid,
                    answer: (bool, Bytes))
    requires Began(taken, s, past, answers, written) && StartsNow(s, s', p, answer.0) && Utf8.WellFormed(answer.1)
    requires s.jobs[p].cmd.cmd.Unknown? ==> answer.0
    requires Pipes.ClashFree(past + OpsOf(s.jobs[p].cmd, answer.0))
    ensures Began(taken, s', past + OpsOf(s.jobs[p].cmd, answer.0), answers[p := answer],
                  WordsAfter(s.jobs[p].cmd, answer, written))
  {
    hide Answered, Writer, OpsOf, Pipes.ClashFree, WordsAfter;
    var c := s.jobs[p].cmd;
    var ops, words := OpsOf(c, answer.0), WordsAfter(c, answer, written);
    NewWords(c, answer, past, written);
    forall q | q in s.jobs && (q in s.started || q in s.done)
      ensures Answered(s.jobs[q].cmd, q in s'.started, answers[q], past + ops, words)
    {
      AnsweredStays(s.jobs[q].cmd, q in s.started, answers[q], past, ops, written, words);
    }
    AnsweredNow(c, answer, past, written);
    WritersLaunch(s, s', past, p, answer.0);
  }

  lemma WritersLaunch(s: Sched, s': Sched, past: Ops, p: Pid, ok: bool)
    requires forall op :: op in past ==> !op.OpenInput? && (op.WriteEnd? ==> exists p :: Writer(s, p, op.id))
    requires StartsNow(s, s', p, ok)
    ensures forall op :: op in past + OpsOf(s.jobs[p].cmd, ok) ==>
              !op.OpenInput? && (op.WriteEnd? ==> exists p :: Writer(s', p, op.id))
  {
    WritersStay(s, s', past);
    forall op | op in OpsOf(s.jobs[p].cmd, ok)
      ensures !op.OpenInput? && (op.WriteEnd? ==> Writer(s', p, op.id))
    {
      LaunchedWrites(s.jobs[p].cmd, ok, op);
    }
  }

  lemma LaunchedWrites(c: RunCmd, ok: bool, op: Pipes.Op)
    requires op in OpsOf(c, ok)
    ensures !op.OpenInput? && (op.WriteEnd? ==> op.id == c.pipes.stdout || op.id == c.pipes.stderr)
    ensures !(c.cmd.Edit? && ok)
  {
  }

  lemma AnsweredNow(c: RunCmd, answer: (bool, Bytes), past: Ops, written: Words)
    requires Utf8.WellFormed(answer.1) && (c.cmd.Unknown? ==> answer.0) && Pipes.ClashFree(past + OpsOf(c, answer.0))
    ensures Answered(c, ResultOf(c.cmd, answer.0).Process?, answer, past + OpsOf(c, answer.0),
                     WordsAfter(c, answer, written))
  {
    if !ResultOf(c.cmd, answer.0).Process? { OutputsDiffer(c, answer.0, past); }
  }

  lemma OutputsDiffer(c: RunCmd, ok: bool, past: Ops)
    requires Pipes.ClashFree(past + OpsOf(c, ok)) && !ResultOf(c.cmd, ok).Process?
    ensures c.pipes.stdout != c.pipes.stderr
  {
    var all := past + OpsOf(c, ok);
    var n := |all| - 2;
    assert all[n] == Pipes.WriteEnd(c.pipes.stdout) && all[n + 1] == Pipes.WriteEnd(c.pipes.stderr);
    assert !Pipes.Clashes(all[n], all[n + 1]);
  }

  /** What is written now goes to pipes whose write ends had not been taken. */
  lemma NewWords(c: RunCmd, answer: (bool, Bytes), past: Ops, written: Words)
    requires Pipes.ClashFree(past + OpsOf(c, answer.0))
    ensures var words := WordsAfter(c, answer, written);
            && (forall id :: id in written ==> id in words)
            && (forall id :: id in written && Pipes.WriteEnd(id) in past ==> words[id] == written[id])
            && (forall id :: id in words && !(id in written && words[id] == written[id]) ==>
                  Pipes.WriteEnd(id) in OpsOf(c, answer.0) && Pipes.WriteEnd(id) !in past)
  {
    hide OpsOf, Pipes.ClashFree;
    if !ResultOf(c.cmd, answer.0).Process? {
      ClosedOutputs(c, answer.0);
      NotTakenBefore(past, OpsOf(c, answer.0), Pipes.WriteEnd(c.pipes.stdout));
      NotTakenBefore(past, OpsOf(c, answer.0), Pipes.WriteEnd(c.pipes.stderr));
    }
  }

  lemma NotTakenBefore(past: Ops, ops: Ops, op: Pipes.Op)
    requires Pipes.ClashFree(past + ops) && op in ops && (op.WriteEnd? || op.ReadEnd?)
    ensures op !in past
  {
    if op in past {
      NoClash(past, ops, op, op);
      assert false;
    }
  }

  lemma NoClash(past: Ops, ops: Ops, x: Pipes.Op, y: Pipes.Op)
    requires Pipes.ClashFree(past + ops) && x in past && y in ops
    ensures !Pipes.Clashes(x, y)
  {
    var i :| 0 <= i < |past| && past[i] == x;
    var j :| 0 <= j < |ops| && ops[j] == y;
    assert (past + ops)[i] == x && (past + ops)[|past| + j] == y;
  }

  lemma BeganFinish(taken: seq<Request>, s: Sched, past: Ops, answers: Answers, written: Words, p: Pid,
                    status: ExitStatus)
    requires Began(taken, s, past, answers, written) && p in s.started
    ensures Began(taken, s.Finish(p, status), past, answers, written)
  {
    hide Answered, RequestOps;
    WritersStay(s, s.Finish(p, status), past);
  }

  // --- What was written and what is read ---

  lemma GenuineMore(past: Ops, more: Ops, written: Words, produced: Words, ended: set<PipeId>)
    requires Genuine(past, written, produced, ended)
    ensures Genuine(past + more, written, produced, ended)
  {
  }

  lemma GenuineLaunch(c: RunCmd, answer: (bool, Bytes), past: Ops, written: Words, produced: Words,
                      ended: set<PipeId>)
    requires Genuine(past, written, produced, ended) && Pipes.ClashFree(past + OpsOf(c, answer.0))
    ensures Genuine(past + OpsOf(c, answer.0), WordsAfter(c, answer, written), produced, ended)
  {
    hide OpsOf, Pipes.ClashFree, WordsAfter;
    NewWords(c, answer, past, written);
  }

  lemma GenuineReads(past: Ops, written: Words, produced: Words, ended: set<PipeId>, id: PipeId, data: Bytes)
    requires Genuine(past, written, produced, ended) && Pipes.WriteEnd(id) in past && id !in ended
    requires id in written ==> BytesOf(produced, id) + data <= written[id]
    ensures Genuine(past, written, produced[id := BytesOf(produced, id) + data], ended)
  {
  }

  lemma GenuineEnds(past: Ops, written: Words, produced: Words, ended: set<PipeId>, id: PipeId)
    requires Genuine(past, written, produced, ended) && Pipes.WriteEnd(id) in past
    requires id in written ==> BytesOf(produced, id) == written[id]
    ensures Genuine(past, written, produced, ended + {id})
  {
  }

  // --- Standard streams ---

  lemma {:induction false} EndsStay(past: Ops, more: Ops)
    requires Pipes.PerformAll(past + more).Returned?
    ensures Pipes.PerformAll(past).Returned?
    ensures Pipes.PerformAll(past).value.0 <= Pipes.PerformAll(past + more).value.0
    ensures |Pipes.PerformAll(past + more).value.0| == |past + more| && |Pipes.PerformAll(past).value.0| == |past|
    decreases more
  {
    hide Pipes.Perform;
    if more == [] {
      assert past + more == past;
      OneEndEach(past);
    } else {
      var rest := more[..|more| - 1];
      assert (past + more)[..|past + more| - 1] == past + rest;
      EndsStay(past, rest);
    }
  }

  lemma {:induction false} OneEndEach(past: Ops)
    requires Pipes.PerformAll(past).Returned?
    ensures |Pipes.PerformAll(past).value.0| == |past|
  {
    hide Pipes.Perform;
    if past != [] { OneEndEach(past[..|past| - 1]); }
  }

  lemma GivenStays(past: Ops, more: Ops, op: Pipes.Op, e: Pipes.End)
    requires Given(past, op, e) && Pipes.PerformAll(past + more).Returned?
    ensures Given(past + more, op, e)
  {
    EndsStay(past, more);
    var i :| 0 <= i < |past| && past[i] == op && Pipes.PerformAll(past).value.0[i] == e;
    assert (past + more)[i] == op && Pipes.PerformAll(past + more).value.0[i] == e;
  }

  lemma EquippedMore(children: map<Pid, Stdio>, s: Sched, s': Sched, past: Ops, more: Ops)
    requires Equipped(children, s, past) && Pipes.PerformAll(past + more).Returned? && s.WellFormed()
    requires forall p :: p in s.jobs ==> p in s'.jobs && s'.jobs[p] == s.jobs[p]
    requires forall p :: p in s'.started && p in s'.jobs && s'.jobs[p].cmd.cmd.Unknown? ==> p in s.started
    ensures Equipped(children, s', past + more)
  {
    hide Given;
    forall p | p in s'.jobs && p in s'.started && s'.jobs[p].cmd.cmd.Unknown?
      ensures p in children
      ensures Given(past + more, Pipes.ReadEnd(s'.jobs[p].cmd.pipes.stdin), Pipes.In(children[p].stdin))
      ensures Given(past + more, Pipes.WriteEnd(s'.jobs[p].cmd.pipes.stdout), Pipes.Out(children[p].stdout))
      ensures Given(past + more, Pipes.WriteEnd(s'.jobs[p].cmd.pipes.stderr), Pipes.Out(children[p].stderr))
    {
      var pipes := s.jobs[p].cmd.pipes;
      GivenStays(past, more, Pipes.ReadEnd(pipes.stdin), Pipes.In(children[p].stdin));
      GivenStays(past, more, Pipes.WriteEnd(pipes.stdout), Pipes.Out(children[p].stdout));
      GivenStays(past, more, Pipes.WriteEnd(pipes.stderr), Pipes.Out(children[p].stderr));
    }
  }

  lemma AttachGives(past: Ops, t: Pipes.Table, pipes: WritePipes)
    requires Pipes.PerformAll(past).Returned? && Pipes.PerformAll(past).value.1 == t && Attach(t, pipes).Returned?
    ensures var (stdio, u) := Attach(t, pipes).value; var all := past + AllEnds(pipes);
            && Pipes.PerformAll(all).Returned? && Pipes.PerformAll(all).value.1 == u
            && Given(all, Pipes.ReadEnd(pipes.stdin), Pipes.In(stdio.stdin))
            && Given(all, Pipes.WriteEnd(pipes.stdout), Pipes.Out(stdio.stdout))
            && Given(all, Pipes.WriteEnd(pipes.stderr), Pipes.Out(stdio.stderr))
  {
    var (stdio, u) := Attach(t, pipes).value;
    hide Pipes.TakeRead, Pipes.TakeWrite;
    var (a, b, c) := (Pipes.ReadEnd(pipes.stdin), Pipes.WriteEnd(pipes.stdout), Pipes.WriteEnd(pipes.stderr));
    OneEndMore(past, a);
    OneEndMore(past + [a], b);
    OneEndMore(past + [a] + [b], c);
    assert past + AllEnds(pipes) == past + [a] + [b] + [c];
    GivenStays(past + [a], [b], a, Pipes.In(stdio.stdin));
    GivenStays(past + [a] + [b], [c], a, Pipes.In(stdio.stdin));
    GivenStays(past + [a] + [b], [c], b, Pipes.Out(stdio.stdout));
  }

  lemma OneEndMore(past: Ops, op: Pipes.Op)
    requires Pipes.PerformAll(past).Returned? && Pipes.Perform(Pipes.PerformAll(past).value.1, op).Returned?
    ensures var (e, u) := Pipes.Perform(Pipes.PerformAll(past).value.1, op).value;
            && Pipes.PerformAll(past + [op]).Returned? && Pipes.PerformAll(past + [op]).value.1 == u
            && Given(past + [op], op, e)
  {
    hide Pipes.Perform;
    OneEndEach(past);
    assert (past + [op])[..|past|] == past;
    assert (past + [op])[|past|] == op;
    assert Pipes.PerformAll(past + [op]).value.0[|past|] == Pipes.Perform(Pipes.PerformAll(past).value.1, op).value.0;
  }

  /** A program is spawned: its streams are the ends taken for it. */
  lemma EquippedSpawn(children: map<Pid, Stdio>, s: Sched, t: Pipes.Table, past: Ops, p: Pid, state: ProcessState)
    requires Equipped(children, s, past) && s.WellFormed() && p in s.jobs && s.jobs[p].cmd.cmd.Unknown?
    requires Pipes.PerformAll(past).Returned? && Pipes.PerformAll(past).value.1 == t && p !in s.started
    requires PerformOps(t, AllEnds(s.jobs[p].cmd.pipes)).Returned?
    ensures Equipped(WithChild(children, p, t, s.jobs[p].cmd.pipes), s.Begin(p, state),
                     past + AllEnds(s.jobs[p].cmd.pipes))
  {
    hide Given, Attach, PerformOps, AllEnds;
    var pipes := s.jobs[p].cmd.pipes;
    AttachPerforms(t, pipes);
    AttachGives(past, t, pipes);
    EquippedMore(children, s, s, past, AllEnds(pipes));
  }

  // --- The log ---

  lemma LoggedDispatch(b: Backend, p: Pid, ok: bool, text: Bytes)
    requires Logged(b) && b.sched.WellFormed() && p in b.sched.Runnable() && Dispatch(b, p, ok, text).Returned?
    ensures Logged(Dispatch(b, p, ok, text).value)
  {
    hide Schedule.WellFormed, PerformOps, LogFollows, Schedule.Contradicts, Schedule.Runnable, Reported, Asks;
    RunnableFacts(b.sched, p);
    DispatchLog(b, p, ok, text);
    AsksDispatch(b, p, ok, text);
    var c := Dispatch(b, p, ok, text).value;
    OneMoreEntry(b.log, Ran(p));
    if c.log != b.log + [Ran(p)] {
      var e := c.log[|b.log| + 1];
      assert c.log == b.log + [Ran(p)] + [e];
      OneMoreEntry(b.log + [Ran(p)], e);
    }
  }

  lemma OneMoreEntry(log: seq<Entry>, e: Entry)
    ensures forall p :: Reported(log + [e], p) ==> Reported(log, p) || IsResult(e, p)
  {
    forall p | Reported(log + [e], p) ensures Reported(log, p) || IsResult(e, p) {
      var i :| 0 <= i < |log + [e]| && IsResult((log + [e])[i], p);
      if i < |log| { assert IsResult(log[i], p); }
    }
  }

  lemma LoggedExit(b: Backend, p: Pid, exitCode: int)
    requires Logged(b) && b.sched.WellFormed() && Exit(b, p, exitCode).Returned?
    ensures Logged(Exit(b, p, exitCode).value)
  {
    hide LogFollows, Schedule.Contradicts, Reported, Asks;
    AsksMore(b, Exit(b, p, exitCode).value, [Sent(CommandDone(p, exitCode))]);
    ExitLog(b, p, exitCode);
    OneMoreEntry(b.log, Sent(CommandDone(p, exitCode)));
  }

  /** Nothing but a result is added, or nothing at all. */
  lemma LoggedQuiet(b: Backend, r: Response)
    requires Logged(b) && !r.CommandDone? && !r.EditRequest?
    ensures Logged(b.(log := b.log + [Sent(r)]))
  {
    hide ResultsFirst, OnceEach, Reported, Asks;
    AsksMore(b, b.(log := b.log + [Sent(r)]), [Sent(r)]);
    LogGrows(b.sched.jobs, b.log, Sent(r));
  }

  lemma LoggedAdd(b: Backend, p: Pid, job: Job<RunCmd>)
    requires Logged(b) && b.sched.WellFormed() && p !in b.sched.jobs
    ensures Logged(b.(sched := b.sched.Add(p, job)))
  {
    hide LogFollows, Reported, Asks;
    EnqueueLog(b, p, job);
    assert b.log + [] == b.log;
    AsksMore(b, b.(sched := b.sched.Add(p, job)), []);
  }

  lemma LoggedSame(b: Backend, c: Backend)
    requires Logged(b) && c.sched == b.sched && c.log == b.log && c.nextEdit == b.nextEdit
    requires forall e :: e in c.edits ==> e in b.edits && c.edits[e] == b.edits[e]
    ensures Logged(c)
  {
    hide ResultsFirst, OnceEach, Reported, Asks;
    assert b.log + [] == b.log;
    AsksMore(b, c, []);
  }

  // Nothing is asked, and edits may end.
  lemma AsksMore(b: Backend, c: Backend, more: seq<Entry>)
    requires Asks(b) && c.log == b.log + more && c.nextEdit == b.nextEdit
    requires forall x :: x in more ==> x.Sent? ==> !x.response.EditRequest?
    requires forall e :: e in c.edits ==> e in b.edits && c.edits[e] == b.edits[e]
    requires forall p :: p in b.sched.jobs ==> p in c.sched.jobs && c.sched.jobs[p] == b.sched.jobs[p]
    ensures Asks(c)
  {
  }

  lemma AsksDispatch(b: Backend, p: Pid, ok: bool, text: Bytes)
    requires Asks(b) && p in b.sched.Runnable() && Dispatch(b, p, ok, text).Returned?
    ensures Asks(Dispatch(b, p, ok, text).value)
  {
    hide Schedule.WellFormed, PerformOps, Schedule.Contradicts, Schedule.Runnable, Asks, OpsOf, Says, Wrote;
    RunnableFacts(b.sched, p);
    var c, cmd := Dispatch(b, p, ok, text).value, b.sched.jobs[p].cmd.cmd;
    if cmd.Edit? && ok {
      AsksOne(b, c, p, cmd.file);
    } else if cmd.Unknown? && ok {
      AsksMore(b, c, [Ran(p)]);
    } else {
      var last := c.log[|b.log| + 1];
      assert c.log == b.log + [Ran(p), last];
      AsksMore(b, c, [Ran(p), last]);
    }
  }

  lemma AsksOne(b: Backend, c: Backend, p: Pid, name: string)
    requires Asks(b) && p in b.sched.jobs && b.sched.jobs[p].cmd.cmd == Edit(name) && c.sched.jobs == b.sched.jobs
    requires c.log == b.log + [Ran(p), Sent(EditRequest(b.nextEdit, p, name))]
    requires c.edits == b.edits[b.nextEdit := (p, name)] && c.nextEdit == b.nextEdit + 1
    ensures Asks(c)
  {
    assert Sent(EditRequest(b.nextEdit, p, name)) in c.log;
  }

  // --- Results ---

  lemma ResultsMore(s: Sched, s': Sched, log: seq<Entry>, more: seq<Entry>, local: seq<Event>, local': seq<Event>,
                    answers: Answers, exits: map<Pid, int>)
    requires Results(s, log, local, answers, exits)
    requires s' == s.(order := s'.order, jobs := s'.jobs)
    requires forall p :: p in s.jobs ==> p in s'.jobs && s'.jobs[p] == s.jobs[p]
    requires forall x :: x in more ==> x.Sent? ==> !x.response.CommandDone?
    requires forall e :: e in local' && e.Completed? ==> e in local
    ensures Results(s', log + more, local', answers, exits)
  {
    hide Tells;
    forall p, code | Event.Completed(p, code) in local' ensures Event.Completed(p, code) in local {}
  }

  /** A process that was left running finishes and its result is sent. */
  lemma ResultsFinish(s: Sched, log: seq<Entry>, local: seq<Event>, answers: Answers, exits: map<Pid, int>, p: Pid,
                      status: ExitStatus, code: int, more: seq<Entry>)
    requires Results(s, log, local, answers, exits) && p in s.jobs && p !in s.done && p in answers
    requires Tells(s.jobs[p].cmd.cmd, p in s.started, answers[p].0, exits, p, status, code)
    requires forall x :: x in more ==> x.Sent? ==> x == Sent(CommandDone(p, code))
    ensures Results(s.Finish(p, status), log + more, local, answers, exits)
  {
    hide Tells;
  }

  lemma ResultsBegin(s: Sched, log: seq<Entry>, local: seq<Event>, answers: Answers, exits: map<Pid, int>, p: Pid,
                     state: ProcessState, answer: (bool, Bytes), more: seq<Entry>)
    requires Results(s, log, local, answers, exits) && p !in s.done
    requires forall x :: x in more ==> x.Sent? ==> !x.response.CommandDone?
    ensures Results(s.Begin(p, state), log + more, local, answers[p := answer], exits)
  {
    hide Tells;
  }

  /** The answer about a process that is not done is recorded. */
  lemma ResultsAnswer(s: Sched, log: seq<Entry>, local: seq<Event>, answers: Answers, exits: map<Pid, int>, p: Pid,
                      answer: (bool, Bytes))
    requires Results(s, log, local, answers, exits) && p !in s.done
    ensures Results(s, log, local, answers[p := answer], exits)
  {
    hide Tells;
  }

  lemma ResultsExit(s: Sched, log: seq<Entry>, local: seq<Event>, answers: Answers, exits: map<Pid, int>, p: Pid,
                    code: int)
    requires Results(s, log, local, answers, exits) && p !in s.done
    requires forall e :: e in local ==> !(e.Completed? && e.pid == p)
    ensures Results(s, log, local + [Event.Completed(p, code)], answers, exits[p := code])
  {
    forall q, c | Sent(CommandDone(q, c)) in log
      ensures Tells(s.jobs[q].cmd.cmd, q in s.started, answers[q].0, exits[p := code], q, s.done[q], c)
    {}
  }


  // --- What is gathered ---

  lemma GathersMore(c: Client, d: Client)
    requires Gathers(c) && c.sent <= d.sent && d.gathering.Keys <= c.gathering.Keys && d.cwdFor == c.cwdFor
    ensures Gathers(d)
  {
    forall id | id in d.gathering || (ROOT in d.cwdFor && d.cwdFor[ROOT] == id)
      ensures exists r :: r in d.sent && r.BeginCommand? && r.cmd.cmd == GetDirectory && r.cmd.pipes.stdout == id
    {
      assert id in c.gathering || (ROOT in c.cwdFor && c.cwdFor[ROOT] == id);
      var r :| r in c.sent && r.BeginCommand? && r.cmd.cmd == GetDirectory && r.cmd.pipes.stdout == id;
      assert r in d.sent;
    }
  }

  lemma GathersPrompt(c: Client, d: Client, steps: seq<Step>)
    requires Issued(c, d, steps) && c.gathering == map[] && c.cwdFor == map[]
    ensures Gathers(d)
  {
    hide AllOps, Pids, Sane, Wires;
    var b :| Submits(c, d, steps, b);
    assert b.query == d.sent[|c.sent| + |b.line|];
    assert b.query in d.sent;
  }
}
