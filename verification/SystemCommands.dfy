// What the moves of the system keep about processes, their results, and edits.

module SystemCommands {
  import opened Protocol
  import opened Scheduling
  import opened ScheduleLemmas
  import opened Driver
  import opened ClientSide
  import opened Plans
  import opened Requests
  import opened System
  import Pipes

  type Sched = Schedule<RunCmd, ProcessState>

  // --- Responses under way ---

  lemma AnnouncedPush(outbox: seq<Response>, r: Response)
    ensures Announced(outbox + [r]) == Announced(outbox) + if r.CommandDone? then {r.pid} else {}
  {
    assert forall x :: x in outbox + [r] <==> x in outbox || x == r;
  }

  lemma AnnouncedPop(outbox: seq<Response>)
    requires outbox != [] && OneResultEach(outbox)
    ensures OneResultEach(outbox[1..])
    ensures outbox[0].CommandDone? ==> outbox[0].pid in Announced(outbox)
    ensures Announced(outbox[1..]) == Announced(outbox) - if outbox[0].CommandDone? then {outbox[0].pid} else {}
  {
    var r, rest := outbox[0], outbox[1..];
    assert outbox == [r] + rest;
    assert forall x :: x in outbox <==> x in rest || x == r;
    forall x | x in rest && x.CommandDone? && r.CommandDone? ensures x.pid != r.pid {
      var k :| 0 <= k < |rest| && rest[k] == x;
      assert outbox[k + 1] == x;
    }
  }

  lemma OneMoreResult(outbox: seq<Response>, r: Response)
    requires OneResultEach(outbox) && (r.CommandDone? ==> r.pid !in Announced(outbox))
    ensures OneResultEach(outbox + [r])
  {
    forall i | 0 <= i < |outbox| && outbox[i].CommandDone? ensures outbox[i].pid in Announced(outbox) {
      assert outbox[i] in outbox;
    }
  }

  // --- Processes ---

  lemma NothingContradicts(s: Sched, p: Pid, status: ExitStatus)
    requires Unconditional(s)
    ensures !s.Contradicts(p, status)
  {
  }

  lemma FinishKeeps(c: Client, taken: nat, s: Sched, outbox: seq<Response>, p: Pid, status: ExitStatus, exitCode: int)
    requires Commands(c, taken, s, outbox)
    requires p in s.jobs && p !in s.done && !s.Blocked(p)
    ensures Commands(c, taken, s.Finish(p, status), outbox + [CommandDone(p, exitCode)])
  {
    hide Schedule.WellFormed, Sane, Pids, Announced, OneResultEach, Schedule.Contradicts;
    var r := CommandDone(p, exitCode);
    NothingContradicts(s, p, status);
    FinishWellFormed(s, p, status);
    AnnouncedPush(outbox, r);
    OneMoreResult(outbox, r);
    assert Unconditional(s.Finish(p, status));
  }

  lemma QuietKeeps(c: Client, taken: nat, s: Sched, outbox: seq<Response>, r: Response)
    requires Commands(c, taken, s, outbox) && !r.CommandDone?
    ensures Commands(c, taken, s, outbox + [r])
  {
    hide Schedule.WellFormed, Sane, Pids, Announced, OneResultEach;
    AnnouncedPush(outbox, r);
    OneMoreResult(outbox, r);
  }

  lemma BeginKeeps(c: Client, taken: nat, s: Sched, outbox: seq<Response>, p: Pid, state: ProcessState)
    requires Commands(c, taken, s, outbox) && p in s.Runnable()
    ensures Commands(c, taken, s.Begin(p, state), outbox)
  {
    hide Schedule.WellFormed, Sane, Pids, Announced, OneResultEach, Schedule.Runnable;
    BeginWellFormed(s, p, state);
    assert Unconditional(s.Begin(p, state));
  }

  lemma TakenPids(reqs: seq<Request>, n: nat)
    requires n < |reqs|
    ensures Pids(reqs[..n + 1]) == Pids(reqs[..n]) + if reqs[n].BeginCommand? then {reqs[n].pid} else {}
  {
    assert reqs[..n + 1] == reqs[..n] + [reqs[n]];
    PidsPush(reqs[..n], reqs[n]);
  }

  lemma SkipKeeps(c: Client, taken: nat, s: Sched, outbox: seq<Response>)
    requires Commands(c, taken, s, outbox) && taken < |c.sent| && !c.sent[taken].BeginCommand?
    ensures Commands(c, taken + 1, s, outbox)
  {
    hide Schedule.WellFormed, Sane, Pids, Announced, OneResultEach;
    TakenPids(c.sent, taken);
  }

  lemma NextCommand(c: Client, taken: nat)
    requires Sane(c) && taken < |c.sent| && c.sent[taken].BeginCommand?
    ensures var r := c.sent[taken];
            && r.pid !in Pids(c.sent[..taken])
            && (forall d :: d in r.blockFor ==> r.blockFor[d] == None && d in Pids(c.sent[..taken]))
  {
  }

  /** A command request is always accepted. */
  lemma EnqueueKeeps(c: Client, taken: nat, s: Sched, outbox: seq<Response>)
    requires Commands(c, taken, s, outbox) && taken < |c.sent| && c.sent[taken].BeginCommand?
    ensures var r := c.sent[taken];
            && r.pid !in s.jobs && !Mismatched(s.done, r.blockFor) && r.blockFor.Keys <= s.jobs.Keys
            && Commands(c, taken + 1, s.Add(r.pid, Job(r.cmd, r.blockFor)), outbox)
  {
    hide Schedule.WellFormed, Sane, Pids, Announced, OneResultEach;
    var r := c.sent[taken];
    TakenPids(c.sent, taken);
    NextCommand(c, taken);
    AddWellFormed(s, r.pid, Job(r.cmd, r.blockFor));
    assert Unconditional(s.Add(r.pid, Job(r.cmd, r.blockFor)));
  }

  lemma DoneArePids(c: Client, taken: nat, s: Sched, outbox: seq<Response>)
    requires Commands(c, taken, s, outbox)
    ensures s.done.Keys <= s.jobs.Keys <= Pids(c.sent)
  {
    PidsPrefix(c.sent, taken);
    LawfulDone(s);
  }

  lemma LawfulDone(s: Sched)
    requires s.WellFormed()
    ensures s.done.Keys <= s.jobs.Keys
  {
  }

  lemma PidsPrefix(reqs: seq<Request>, n: nat)
    requires n <= |reqs|
    ensures Pids(reqs[..n]) <= Pids(reqs)
  {
  }

  lemma {:induction false} PidsSplit(a: seq<Request>, b: seq<Request>)
    ensures Pids(a + b) == Pids(a) + Pids(b)
  {
    assert forall r :: r in a + b <==> r in a || r in b;
  }

  lemma InboxPids(reqs: seq<Request>, n: nat, nextId: nat)
    requires Dependable(reqs, nextId) && n <= |reqs|
    ensures Pids(reqs) == Pids(reqs[..n]) + Pids(reqs[n..]) && Pids(reqs[..n]) !! Pids(reqs[n..])
    ensures forall i, j :: n <= i < j < |reqs| && reqs[i].BeginCommand? && reqs[j].BeginCommand? ==>
              reqs[i].pid != reqs[j].pid
  {
    assert reqs == reqs[..n] + reqs[n..];
    PidsSplit(reqs[..n], reqs[n..]);
    forall i, k | 0 <= k < i < |reqs| && reqs[i].BeginCommand? && reqs[k].BeginCommand?
      ensures reqs[k].pid != reqs[i].pid
    {
      assert reqs[k] in reqs[..i];
    }
    forall q | q in reqs[n..] && q.BeginCommand? ensures q.pid !in Pids(reqs[..n]) {
      var i :| n <= i < |reqs| && reqs[i] == q;
      PidsPrefix(reqs[..i], n);
      assert reqs[..i][..n] == reqs[..n];
    }
  }

  lemma CommandsSane(c: Client, taken: nat, sched: Sched, outbox: seq<Response>)
    requires Commands(c, taken, sched, outbox)
    ensures Sane(c) && sched.WellFormed() && Unconditional(sched) && taken <= |c.sent|
    ensures forall r :: r in c.sent && r.StartRead? ==> r.pipe in c.pipes
  {
  }

  lemma NothingLeft(all: set<Pid>, gone: set<Pid>)
    requires all - gone == {} && gone <= all
    ensures gone == all
  {
    assert forall p :: p in all && p !in gone ==> p in all - gone;
  }

  lemma PromptKeeps(c: Client, settled: Client, d: Client, steps: seq<Step>, taken: nat, s: Sched,
                    outbox: seq<Response>)
    requires Commands(c, taken, s, outbox) && c.waitingFor == {} && settled.sent == c.sent && Issued(settled, d, steps)
    ensures Commands(d, taken, s, outbox)
  {
    hide Schedule.WellFormed, Sane, Pids, Announced, OneResultEach, Unconditional;
    DoneArePids(c, taken, s, outbox);
    NothingLeft(Pids(c.sent), s.done.Keys - Announced(outbox));
    assert d.sent[..taken] == c.sent[..taken];
    assert d.waitingFor == Pids(d.sent) - Pids(c.sent);
  }

  /** A result that arrives is waited for. */
  lemma ResultAwaited(c: Client, taken: nat, s: Sched, outbox: seq<Response>)
    requires Commands(c, taken, s, outbox) && outbox != [] && outbox[0].CommandDone?
    ensures outbox[0].pid in c.waitingFor
  {
    hide Schedule.WellFormed, Sane, Pids, Announced, OneResultEach;
    DoneArePids(c, taken, s, outbox);
    AnnouncedPop(outbox);
  }

  /** `d` is the frontend after receiving the first response. */
  lemma ArriveKeeps(c: Client, d: Client, taken: nat, s: Sched, outbox: seq<Response>)
    requires Commands(c, taken, s, outbox) && outbox != []
    requires Sane(d) && c.sent <= d.sent && Pids(d.sent) == Pids(c.sent)
    requires d.waitingFor == c.waitingFor - if outbox[0].CommandDone? then {outbox[0].pid} else {}
    ensures Commands(d, taken, s, outbox[1..])
  {
    hide Schedule.WellFormed, Sane, Pids, Announced, OneResultEach, Unconditional;
    DoneArePids(c, taken, s, outbox);
    AnnouncedPop(outbox);
    assert d.sent[..taken] == c.sent[..taken];
  }

  lemma AnswerSane(c: Client, editId: nat)
    requires Sane(c)
    ensures var d := c.Send(FinishEdit(editId));
            Sane(d) && c.sent <= d.sent && Pids(d.sent) == Pids(c.sent) && AllOps(d.sent) == AllOps(c.sent)
  {
    hide AllOps, Pids, Pipes.ClashFree, Dependable;
    var r := FinishEdit(editId);
    AllOpsPush(c.sent, r);
    PidsPush(c.sent, r);
    DependablePush(c.sent, r, c.nextId, c.nextId);
    assert AllOps(c.sent) + [] == AllOps(c.sent);
  }

  // --- Edits ---

  lemma AskedPush(outbox: seq<Response>, r: Response, e: nat)
    ensures Asked(outbox + [r], e) <==> Asked(outbox, e) || (r.EditRequest? && r.editId == e)
  {
    var all := outbox + [r];
    assert all[|outbox|] == r;
    if Asked(outbox, e) {
      var i :| 0 <= i < |outbox| && outbox[i].EditRequest? && outbox[i].editId == e;
      assert all[i] == outbox[i];
    }
  }

  lemma EditsQuiet(edits: map<nat, (Pid, string)>, nextEdit: nat, running: map<Pid, ProcessState>,
                   outbox: seq<Response>, inbox: seq<Request>, r: Response)
    requires Edits(edits, nextEdit, running, outbox, inbox) && !r.EditRequest?
    ensures Edits(edits, nextEdit, running, outbox + [r], inbox)
  {
    hide Asked;
    forall e | Asked(outbox, e) ensures Asked(outbox + [r], e) { AskedPush(outbox, r, e); }
  }

  /** The request at the front is handled and is not the end of an edit. */
  lemma EditsSkip(edits: map<nat, (Pid, string)>, nextEdit: nat, running: map<Pid, ProcessState>,
                  outbox: seq<Response>, inbox: seq<Request>)
    requires Edits(edits, nextEdit, running, outbox, inbox) && inbox != [] && !inbox[0].FinishEdit?
    ensures Edits(edits, nextEdit, running, outbox, inbox[1..])
  {
    hide Asked;
    assert forall r :: r in inbox <==> r == inbox[0] || r in inbox[1..];
  }

  lemma EditsMore(edits: map<nat, (Pid, string)>, nextEdit: nat, running: map<Pid, ProcessState>,
                  outbox: seq<Response>, inbox: seq<Request>, more: seq<Request>)
    requires Edits(edits, nextEdit, running, outbox, inbox) && forall r :: r in more ==> !r.FinishEdit?
    ensures Edits(edits, nextEdit, running, outbox, inbox + more)
  {
    hide Asked;
    var all := inbox + more;
    forall i, j | 0 <= i < j < |all| && all[i].FinishEdit? ensures all[j] != all[i] {
      if j >= |inbox| { assert all[j] in more; }
      if i >= |inbox| { assert all[i] in more; }
    }
  }

  lemma EditsBegin(edits: map<nat, (Pid, string)>, nextEdit: nat, running: map<Pid, ProcessState>,
                   outbox: seq<Response>, inbox: seq<Request>, p: Pid)
    requires Edits(edits, nextEdit, running, outbox, inbox) && p !in running
    ensures Edits(edits, nextEdit, running[p := Spawned], outbox, inbox)
  {
    hide Asked;
  }

  lemma EditsOpen(edits: map<nat, (Pid, string)>, nextEdit: nat, running: map<Pid, ProcessState>,
                  outbox: seq<Response>, inbox: seq<Request>, p: Pid, name: string)
    requires Edits(edits, nextEdit, running, outbox, inbox) && p !in running
    ensures Edits(edits[nextEdit := (p, name)], nextEdit + 1, running[p := AwaitingEdit],
                  outbox + [EditRequest(nextEdit, p, name)], inbox)
  {
    hide Asked;
    var r, ran, open := EditRequest(nextEdit, p, name), running[p := AwaitingEdit], edits[nextEdit := (p, name)];
    forall e ensures Asked(outbox + [r], e) <==> Asked(outbox, e) || e == nextEdit { AskedPush(outbox, r, e); }
    assert open[nextEdit].0 == p;
    forall q | q in ran && ran[q] == AwaitingEdit ensures exists e :: e in open && open[e].0 == q {
      if q != p {
        var e :| e in edits && edits[e].0 == q;
        assert e in open;
      }
    }
  }

  lemma EditsExit(edits: map<nat, (Pid, string)>, nextEdit: nat, running: map<Pid, ProcessState>,
                  outbox: seq<Response>, inbox: seq<Request>, p: Pid)
    requires Edits(edits, nextEdit, running, outbox, inbox) && p in running && running[p] == Spawned
    ensures Edits(edits, nextEdit, running - {p}, outbox, inbox)
  {
    hide Asked;
  }

  /** The end of an edit is for a process that is still running. */
  lemma EditsClose(edits: map<nat, (Pid, string)>, nextEdit: nat, running: map<Pid, ProcessState>,
                   outbox: seq<Response>, inbox: seq<Request>)
    requires Edits(edits, nextEdit, running, outbox, inbox) && inbox != [] && inbox[0].FinishEdit?
    ensures var e := inbox[0].editId;
            && e in edits && edits[e].0 in running && running[edits[e].0] == AwaitingEdit
            && Edits(edits - {e}, nextEdit, running - {edits[e].0}, outbox, inbox[1..])
  {
    hide Asked;
    var e := inbox[0].editId;
    assert inbox[0] in inbox;
    assert forall r :: r in inbox <==> r == inbox[0] || r in inbox[1..];
    forall q | q in running - {edits[e].0} && running[q] == AwaitingEdit
      ensures exists f :: f in edits - {e} && (edits - {e})[f].0 == q
    {
      var f :| f in edits && edits[f].0 == q;
      assert f in edits - {e} && (edits - {e})[f] == edits[f];
    }
    assert FinishEdit(e) !in inbox[1..];
  }

  lemma AskedPop(outbox: seq<Response>, e: nat)
    requires outbox != [] && Asked(outbox, e)
    ensures Asked(outbox[1..], e) || (outbox[0].EditRequest? && outbox[0].editId == e)
  {
    var i :| 0 <= i < |outbox| && outbox[i].EditRequest? && outbox[i].editId == e;
    if i > 0 { assert outbox[1..][i - 1] == outbox[i]; }
  }

  lemma EditsArrive(edits: map<nat, (Pid, string)>, nextEdit: nat, running: map<Pid, ProcessState>,
                    outbox: seq<Response>, inbox: seq<Request>)
    requires Edits(edits, nextEdit, running, outbox, inbox) && outbox != [] && !outbox[0].EditRequest?
    ensures Edits(edits, nextEdit, running, outbox[1..], inbox)
  {
    forall e | Asked(outbox, e) ensures Asked(outbox[1..], e) { AskedPop(outbox, e); }
    hide Asked;
  }

  /** A question is about a known process, and answering it keeps everything. */
  lemma EditsAnswer(edits: map<nat, (Pid, string)>, nextEdit: nat, running: map<Pid, ProcessState>,
                    outbox: seq<Response>, inbox: seq<Request>)
    requires Edits(edits, nextEdit, running, outbox, inbox) && outbox != [] && outbox[0].EditRequest?
    ensures outbox[0].command in running
    ensures Edits(edits, nextEdit, running, outbox[1..], inbox + [FinishEdit(outbox[0].editId)])
  {
    hide Asked;
    var answer := FinishEdit(outbox[0].editId);
    var all := inbox + [answer];
    assert forall r :: r in all <==> r in inbox || r == answer;
    assert all[|inbox|] == answer;
    forall e | e in edits ensures Asked(outbox[1..], e) || FinishEdit(e) in all {
      if Asked(outbox, e) { AskedPop(outbox, e); }
    }
    forall i | 0 <= i < |outbox[1..]| && outbox[1..][i].EditRequest? ensures FinishEdit(outbox[1..][i].editId) !in all {
      assert outbox[i + 1] == outbox[1..][i];
    }
  }

  // --- Exits ---

  lemma ExitsReport(local: seq<Event>, running: map<Pid, ProcessState>, p: Pid, exitCode: int)
    requires Exits(local, running) && p in running && running[p] == Spawned
    requires forall e :: e in local ==> !(e.Completed? && e.pid == p)
    ensures Exits(local + [Event.Completed(p, exitCode)], running)
  {
    forall i | 0 <= i < |local| && local[i].Completed? ensures local[i].pid != p {
      assert local[i] in local;
    }
  }

  lemma ExitsQuiet(local: seq<Event>, running: map<Pid, ProcessState>, e: Event)
    requires Exits(local, running) && (e.PipeOutput? || e.PipeEnd?)
    ensures Exits(local + [e], running)
  {
  }

  lemma ExitsBegin(local: seq<Event>, running: map<Pid, ProcessState>, p: Pid, state: ProcessState)
    requires Exits(local, running) && p !in running
    ensures Exits(local, running[p := state])
  {
  }

  lemma ExitsEdited(local: seq<Event>, running: map<Pid, ProcessState>, p: Pid)
    requires Exits(local, running) && p in running && running[p] == AwaitingEdit
    ensures Exits(local, running - {p})
  {
  }

  /** The report at the front is handled. */
  lemma ExitsTake(local: seq<Event>, running: map<Pid, ProcessState>)
    requires Exits(local, running) && local != []
    ensures local[0].Completed? || local[0].PipeOutput? || local[0].PipeEnd?
    ensures local[0].Completed? ==> local[0].pid in running && running[local[0].pid] == Spawned
    ensures Exits(local[1..], if local[0].Completed? then running - {local[0].pid} else running)
  {
    var rest := local[1..];
    assert local[0] in local;
    forall e | e in rest && e.Completed? ensures e in local && (local[0].Completed? ==> e.pid != local[0].pid) {
      var k :| 0 <= k < |rest| && rest[k] == e;
      assert local[k + 1] == e;
    }
    forall e | e in rest ensures e in local {
      var k :| 0 <= k < |rest| && rest[k] == e;
      assert local[k + 1] == e;
    }
  }

  // --- What the running processes become ---

  lemma BeginRunning(s: Sched, p: Pid, state: ProcessState)
    requires p in s.Runnable()
    ensures p !in s.Running() && s.Begin(p, state).Running() == s.Running()[p := state]
  {
    BeginTables(s, p, state);
  }

  lemma FinishRunning(s: Sched, p: Pid, status: ExitStatus)
    ensures s.Finish(p, status).Running() == s.Running() - {p}
    ensures p in s.Runnable() ==> s.Running() - {p} == s.Running()
  {
  }

  lemma AddRunning(s: Sched, p: Pid, job: Job<RunCmd>)
    ensures s.Add(p, job).Running() == s.Running()
  {
  }

  lemma RunningFacts(s: Sched, p: Pid)
    requires s.WellFormed() && p in s.Running()
    ensures p in s.jobs && p !in s.done && !s.Blocked(p)
  {
  }
}
