// What the moves of the system keep about pipe ends: whatever was taken, is idle or is
// still to come never clashes, whichever order the ends are taken in.

module SystemPipes {
  import opened Protocol
  import opened Scheduling
  import opened Driver
  import opened ClientSide
  import opened Requests
  import opened System
  import DriverRuns
  import ScheduleLemmas
  import Pipes

  type Sched = Schedule<RunCmd, ProcessState>
  type Ops = seq<Pipes.Op>

  // --- Clashes across sequences ---

  ghost predicate Apart(a: Ops, b: Ops) {
    forall x, y :: x in a && y in b ==> !Pipes.Clashes(x, y)
  }

  predicate EndsOnly(ops: Ops) {
    forall op :: op in ops ==> op.ReadEnd? || op.WriteEnd?
  }

  lemma ClashFreeAppend(a: Ops, b: Ops)
    ensures Pipes.ClashFree(a + b) <==> Pipes.ClashFree(a) && Pipes.ClashFree(b) && Apart(a, b)
  {
    var all := a + b;
    if Pipes.ClashFree(all) {
      forall i, j | 0 <= i < j < |a| ensures !Pipes.Clashes(a[i], a[j]) {
        assert all[i] == a[i] && all[j] == a[j];
      }
      forall i, j | 0 <= i < j < |b| ensures !Pipes.Clashes(b[i], b[j]) {
        assert all[|a| + i] == b[i] && all[|a| + j] == b[j];
      }
      forall x, y | x in a && y in b ensures !Pipes.Clashes(x, y) {
        var i :| 0 <= i < |a| && a[i] == x;
        var j :| 0 <= j < |b| && b[j] == y;
        assert all[i] == x && all[|a| + j] == y;
      }
    }
  }

  lemma ClashFreeThree(a: Ops, b: Ops, c: Ops)
    ensures Pipes.ClashFree(a + b + c) <==>
            && Pipes.ClashFree(a) && Pipes.ClashFree(b) && Pipes.ClashFree(c)
            && Apart(a, b) && Apart(a, c) && Apart(b, c)
  {
    hide Pipes.ClashFree, Pipes.Clashes;
    ClashFreeAppend(a + b, c);
    ClashFreeAppend(a, b);
    forall x ensures x in a + b <==> x in a || x in b {}
  }

  lemma ApartMore(a: Ops, b: Ops, c: Ops)
    ensures Apart(a + b, c) <==> Apart(a, c) && Apart(b, c)
    ensures Apart(c, a + b) <==> Apart(c, a) && Apart(c, b)
  {
    hide Pipes.Clashes;
    forall x ensures x in a + b <==> x in a || x in b {}
  }

  lemma ApartTurned(a: Ops, b: Ops)
    requires Apart(a, b) && EndsOnly(a)
    requires forall y :: y in b && !(y.ReadEnd? || y.WriteEnd?) ==> forall x :: x in a ==> x.id != y.id
    ensures Apart(b, a)
  {
  }

  /** Taking the ends `ops` of the idle commands' `m` now instead of later. */
  lemma TakenEarlier(past: Ops, a: Ops, m: Ops, b: Ops, later: Ops, ops: Ops)
    requires Pipes.ClashFree(past + (a + m + b) + later) && EndsOnly(a) && EndsOnly(m)
    requires Pipes.ClashFree(ops) && forall op :: op in ops ==> op in m
    ensures Pipes.ClashFree(past + ops) && Pipes.ClashFree(past + ops + (a + b) + later)
  {
    hide Pipes.ClashFree, Pipes.Clashes;
    ClashFreeThree(past, a + m + b, later);
    ClashFreeThree(a, m, b);
    ApartMore(a + m, b, past);
    ApartMore(a, m, past);
    ApartMore(a + m, b, later);
    ApartMore(a, m, later);
    ApartTurned(a, m);
    ClashFreeAppend(a, b);
    ClashFreeAppend(past, ops);
    ApartMore(a, b, past);
    ApartMore(a, b, later);
    ApartMore(a, b, ops);
    ApartMore(past, ops, a + b);
    ApartMore(past, ops, later);
    ClashFreeThree(past + ops, a + b, later);
  }

  /** Performing an operation of the next request before those of the idle commands. */
  lemma PerformedEarlier(past: Ops, idle: Ops, op: Pipes.Op, later: Ops)
    requires Pipes.ClashFree(past + idle + ([op] + later)) && EndsOnly(idle)
    ensures Pipes.ClashFree(past + [op]) && Pipes.ClashFree(past + [op] + idle + later)
  {
    ClashFreeThree(past, idle, [op] + later);
    ClashFreeAppend([op], later);
    ApartMore([op], later, past);
    ApartMore([op], later, idle);
    ClashFreeAppend(past, [op]);
    OneTurned(idle, op);
    hide Pipes.ClashFree, Pipes.Clashes, Apart, EndsOnly;
    ApartMore(past, [op], idle);
    ApartMore(past, [op], later);
    ClashFreeThree(past + [op], idle, later);
  }

  lemma OneTurned(a: Ops, op: Pipes.Op)
    requires Apart(a, [op]) && EndsOnly(a)
    ensures Apart([op], a)
  {
    assert op in [op];
    assert forall x :: x in a ==> !Pipes.Clashes(x, op);
  }

  lemma FarApart(a: Ops, b: Ops, n: nat)
    requires (forall op :: op in a ==> op.id < n) && (forall op :: op in b ==> n <= op.id)
    ensures Apart(a, b)
  {
  }

  // --- The table ---

  lemma PerformPush(past: Ops, op: Pipes.Op)
    ensures Pipes.PerformAll(past + [op])
         == match Pipes.PerformAll(past)
            case Panicked => Panicked
            case Returned((ends, t)) =>
              match Pipes.Perform(t, op)
              case Panicked => Panicked
              case Returned((e, u)) => Returned((ends + [e], u))
  {
    assert (past + [op])[..|past|] == past;
  }

  lemma {:induction false} PerformMore(past: Ops, t: Pipes.Table, ops: Ops)
    requires Pipes.PerformAll(past).Returned? && Pipes.PerformAll(past).value.1 == t && PerformOps(t, ops).Returned?
    ensures Pipes.PerformAll(past + ops).Returned? && Pipes.PerformAll(past + ops).value.1 == PerformOps(t, ops).value
    decreases ops
  {
    hide Pipes.Perform, Pipes.PerformAll;
    if ops == [] {
      assert past + ops == past;
    } else {
      assert past + ops == (past + [ops[0]]) + ops[1..];
      PerformPush(past, ops[0]);
      PerformMore(past + [ops[0]], Pipes.Perform(t, ops[0]).value.1, ops[1..]);
    }
  }

  // --- The invariant ---

  lemma OneRequest(r: Request)
    ensures AllOps([r]) == RequestOps(r)
  {
    hide RequestOps;
    assert [r][..0] == [];
  }

  lemma AllOpsNext(inbox: seq<Request>)
    requires inbox != []
    ensures AllOps(inbox) == RequestOps(inbox[0]) + AllOps(inbox[1..])
  {
    hide AllOps, RequestOps;
    assert inbox == [inbox[0]] + inbox[1..];
    AllOpsAppend([inbox[0]], inbox[1..]);
    OneRequest(inbox[0]);
  }

  /** Nothing that was taken is parked: of pipes on which no file was opened for reading, those flow
      whose write end was taken. */
  lemma FlowsExactly(t: Pipes.Table, past: Ops, idle: Ops, inbox: seq<Request>, nextId: nat, id: PipeId)
    requires Linked(t, past, idle, inbox, nextId) && forall op :: op in past ==> !op.OpenInput?
    ensures Flows(t, id) <==> Pipes.WriteEnd(id) in past
  {
    Pipes.RunDescribed(past);
    Pipes.OwnersOnce(past);
    assert Pipes.Keeps(t, past, id);
    if Pipes.WriteEnd(id) in past {
      var k :| 0 <= k < |past| && past[k] == Pipes.WriteEnd(id);
      assert Pipes.Clashes(past[k], Pipes.WriteEnd(id));
    }
  }

  lemma LinkedPerforms(t: Pipes.Table, past: Ops, idle: Ops, inbox: seq<Request>, nextId: nat)
    requires Linked(t, past, idle, inbox, nextId)
    ensures Pipes.PerformAll(past).Returned? && Pipes.PerformAll(past).value.1 == t
  {
    hide Pipes.ClashFree, AllOps, Pipes.PerformAll;
  }

  lemma PastClashFree(t: Pipes.Table, past: Ops, idle: Ops, inbox: seq<Request>, nextId: nat)
    requires Linked(t, past, idle, inbox, nextId)
    ensures Pipes.ClashFree(past)
  {
    hide Pipes.ClashFree, AllOps;
    Pipes.RunDescribed(past);
  }

  lemma LinkedSkip(t: Pipes.Table, past: Ops, idle: Ops, inbox: seq<Request>, nextId: nat)
    requires Linked(t, past, idle, inbox, nextId) && inbox != [] && RequestOps(inbox[0]) == []
    ensures Linked(t, past, idle, inbox[1..], nextId)
  {
    hide AllOps, Pipes.ClashFree;
    AllOpsNext(inbox);
    assert AllOps(inbox) == AllOps(inbox[1..]);
  }

  lemma LinkedAnswer(t: Pipes.Table, past: Ops, idle: Ops, inbox: seq<Request>, nextId: nat, editId: nat)
    requires Linked(t, past, idle, inbox, nextId)
    ensures Linked(t, past, idle, inbox + [FinishEdit(editId)], nextId)
  {
    hide AllOps, Pipes.ClashFree;
    AllOpsPush(inbox, FinishEdit(editId));
    assert AllOps(inbox) + [] == AllOps(inbox);
  }

  lemma LinkedEnqueue(t: Pipes.Table, past: Ops, idle: Ops, inbox: seq<Request>, nextId: nat)
    requires Linked(t, past, idle, inbox, nextId) && inbox != [] && inbox[0].BeginCommand?
    ensures Linked(t, past, idle + AllEnds(inbox[0].cmd.pipes), inbox[1..], nextId)
  {
    hide AllOps, Pipes.ClashFree;
    AllOpsNext(inbox);
    assert past + idle + AllOps(inbox) == past + (idle + AllEnds(inbox[0].cmd.pipes)) + AllOps(inbox[1..]);
  }

  /** A request that opens a file or reads a pipe gets its end. */
  lemma LinkedNow(t: Pipes.Table, past: Ops, idle: Ops, inbox: seq<Request>, nextId: nat, op: Pipes.Op)
    requires Linked(t, past, idle, inbox, nextId) && EndsOnly(idle) && inbox != [] && RequestOps(inbox[0]) == [op]
    ensures Pipes.Perform(t, op).Returned?
    ensures Linked(Pipes.Perform(t, op).value.1, past + [op], idle, inbox[1..], nextId)
  {
    hide AllOps, Pipes.ClashFree, Pipes.Perform, EndsOnly, Pipes.PerformAll;
    AllOpsNext(inbox);
    PerformedEarlier(past, idle, op, AllOps(inbox[1..]));
    Pipes.RunDescribed(past + [op]);
    PerformPush(past, op);
  }

  /** Starting an idle command gets all its ends. */
  lemma LinkedStart(t: Pipes.Table, past: Ops, a: Ops, m: Ops, b: Ops, inbox: seq<Request>, nextId: nat, ops: Ops)
    requires Linked(t, past, a + m + b, inbox, nextId) && EndsOnly(a) && EndsOnly(m)
    requires Pipes.ClashFree(ops) && forall op :: op in ops ==> op in m
    ensures PerformOps(t, ops).Returned?
    ensures Linked(PerformOps(t, ops).value, past + ops, a + b, inbox, nextId)
  {
    hide AllOps, Pipes.ClashFree, PerformOps, EndsOnly, Pipes.PerformAll;
    TakenEarlier(past, a, m, b, AllOps(inbox), ops);
    Pipes.RunDescribed(past);
    ClashFreeAppend(past, ops);
    DriverRuns.TakingPanics(t, Pipes.PerformAll(past).value.0, past, ops);
    PerformMore(past, t, ops);
  }

  lemma LinkedPrompt(t: Pipes.Table, past: Ops, idle: Ops, inbox: seq<Request>, more: seq<Request>, nextId: nat,
                     nextId': nat)
    requires Linked(t, past, idle, inbox, nextId) && nextId <= nextId'
    requires Pipes.ClashFree(AllOps(more)) && forall op :: op in AllOps(more) ==> nextId <= op.id < nextId'
    ensures Linked(t, past, idle, inbox + more, nextId')
  {
    hide AllOps, Pipes.ClashFree, Pipes.PerformAll;
    AllOpsAppend(inbox, more);
    FarApart(past + idle + AllOps(inbox), AllOps(more), nextId);
    ClashFreeAppend(past + idle + AllOps(inbox), AllOps(more));
    assert past + idle + AllOps(inbox + more) == (past + idle + AllOps(inbox)) + AllOps(more);
  }

  lemma SentOps(d: Client, n: nat)
    requires Sane(d) && n <= |d.sent|
    ensures Pipes.ClashFree(AllOps(d.sent[n..])) && forall op :: op in AllOps(d.sent[n..]) ==> op.id < d.nextId
  {
    hide AllOps, Pipes.ClashFree;
    assert d.sent == d.sent[..n] + d.sent[n..];
    AllOpsAppend(d.sent[..n], d.sent[n..]);
    ClashFreeAppend(AllOps(d.sent[..n]), AllOps(d.sent[n..]));
  }

  // --- Idle commands ---

  ghost predicate IdleAt(s: Sched, p: Pid) {
    p in s.jobs && p !in s.done && p !in s.started
  }

  lemma {:induction false} IdleEndsOnly(ws: seq<Pid>, s: Sched)
    ensures EndsOnly(IdleOps(ws, s))
  {
    if ws != [] {
      IdleEndsOnly(ws[..|ws| - 1], s);
    }
  }

  lemma {:induction false} IdleFrame(ws: seq<Pid>, s: Sched, s': Sched)
    requires forall w :: w in ws ==> (IdleAt(s, w) <==> IdleAt(s', w))
    requires forall w :: w in ws && IdleAt(s, w) ==> w in s'.jobs && s.jobs[w] == s'.jobs[w]
    ensures IdleOps(ws, s) == IdleOps(ws, s')
  {
    hide AllEnds;
    if ws != [] {
      IdleFrame(ws[..|ws| - 1], s, s');
    }
  }

  /** `p` stops being idle: its operations are cut out. */
  lemma {:induction false} IdleSplit(ws: seq<Pid>, s: Sched, s': Sched, p: Pid) returns (a: Ops, b: Ops)
    requires InOrder(ws, s.jobs) && p in ws && IdleAt(s, p) && !IdleAt(s', p)
    requires s.jobs == s'.jobs && forall w :: w in ws && w != p ==> (IdleAt(s, w) <==> IdleAt(s', w))
    ensures IdleOps(ws, s) == a + AllEnds(s.jobs[p].cmd.pipes) + b
    ensures IdleOps(ws, s') == a + b
  {
    hide AllEnds;
    var rest, w := ws[..|ws| - 1], ws[|ws| - 1];
    if w == p {
      IdleFrame(rest, s, s');
      a, b := IdleOps(rest, s), [];
    } else {
      assert p in rest;
      var c: Ops;
      a, c := IdleSplit(rest, s, s', p);
      b := c + if IdleAt(s, w) then AllEnds(s.jobs[w].cmd.pipes) else [];
    }
  }

  lemma IdleAdd(s: Sched, p: Pid, job: Job<RunCmd>)
    requires s.WellFormed() && p !in s.jobs
    ensures IdleOps(s.Add(p, job).order, s.Add(p, job)) == IdleOps(s.order, s) + AllEnds(job.cmd.pipes)
  {
    var t := s.Add(p, job);
    assert t.order[..|s.order|] == s.order;
    ScheduleLemmas.OrderedAreJobs(s.order, s.jobs);
    IdleFrame(s.order, s, t);
    assert p !in s.done && p !in s.started;
  }

  /** A started process finishes: idle commands stay what they were. */
  lemma IdleFinish(s: Sched, p: Pid, status: ExitStatus)
    requires p in s.started
    ensures IdleOps(s.order, s.Finish(p, status)) == IdleOps(s.order, s)
  {
    IdleFrame(s.order, s, s.Finish(p, status));
  }

  lemma RunsEnds(c: RunCmd, ok: bool)
    requires c.cmd.Unknown? ==> ok
    ensures var ops := OpsOf(c, ok); ops == AllEnds(c.pipes) || ops == Outputs(c.pipes) || ops == []
  {
  }

  lemma OpsOfCommand(c: RunCmd, ok: bool)
    requires c.cmd.Unknown? ==> ok
    requires Pipes.ClashFree(AllEnds(c.pipes))
    ensures EndsOnly(AllEnds(c.pipes)) && Pipes.ClashFree(OpsOf(c, ok))
    ensures forall op :: op in OpsOf(c, ok) ==> op in AllEnds(c.pipes)
  {
    RunsEnds(c, ok);
    ClashFreeAppend([Pipes.ReadEnd(c.pipes.stdin)], Outputs(c.pipes));
  }

  /** Launching a runnable process never finds a pipe end gone; `s'` is the schedule afterwards. */
  lemma LaunchLinked(t: Pipes.Table, past: Ops, s: Sched, s': Sched, inbox: seq<Request>, nextId: nat, p: Pid, ok: bool)
    requires s.WellFormed() && IdleAt(s, p) && (s.jobs[p].cmd.cmd.Unknown? ==> ok)
    requires Linked(t, past, IdleOps(s.order, s), inbox, nextId)
    requires s'.jobs == s.jobs && s'.order == s.order && !IdleAt(s', p)
    requires forall w :: w != p ==> (IdleAt(s, w) <==> IdleAt(s', w))
    ensures var ops := OpsOf(s.jobs[p].cmd, ok);
            && PerformOps(t, ops).Returned?
            && Linked(PerformOps(t, ops).value, past + ops, IdleOps(s'.order, s'), inbox, nextId)
            && Pipes.ClashFree(past + ops)
  {
    hide Pipes.ClashFree, AllEnds, OpsOf, IdleOps, PerformOps, EndsOnly, IdleAt, Linked, Schedule.Lawful, InOrder;
    IdleJob(s, p);
    var c := s.jobs[p].cmd;
    IdleEndsOnly(s.order, s);
    var a, b := IdleSplit(s.order, s, s', p);
    var m := AllEnds(c.pipes);
    MiddleClashFree(t, past, a, m, b, inbox, nextId);
    OpsOfCommand(c, ok);
    EndsOnlyPart(a, m, b);
    LinkedStart(t, past, a, m, b, inbox, nextId, OpsOf(c, ok));
    PastClashFree(PerformOps(t, OpsOf(c, ok)).value, past + OpsOf(c, ok), IdleOps(s'.order, s'), inbox, nextId);
  }

  lemma IdleJob(s: Sched, p: Pid)
    requires s.WellFormed() && IdleAt(s, p)
    ensures p in s.order && InOrder(s.order, s.jobs) && p in s.jobs
  {
  }

  lemma MiddleClashFree(t: Pipes.Table, past: Ops, a: Ops, m: Ops, b: Ops, inbox: seq<Request>, nextId: nat)
    requires Linked(t, past, a + m + b, inbox, nextId)
    ensures Pipes.ClashFree(m)
  {
    hide Pipes.ClashFree, AllOps, Pipes.PerformAll;
    ClashFreeThree(past, a + m + b, AllOps(inbox));
    ClashFreeThree(a, m, b);
  }

  lemma EndsOnlyPart(a: Ops, m: Ops, b: Ops)
    requires EndsOnly(a + m + b)
    ensures EndsOnly(a) && EndsOnly(m)
  {
    forall x ensures x in a || x in m ==> x in a + m + b {}
  }
}
