// Every command line is answered: between two prompts only boundedly many moves are
// possible besides reading output, and the next prompt can always be reached.

module SystemProgress {
  import opened Protocol
  import opened Scheduling
  import opened Driver
  import opened DriverLemmas
  import opened ClientSide
  import opened System
  import opened SystemCommands
  import opened SystemHistory
  import opened SystemMoves
  import opened SystemPrompts
  import opened SystemRuns
  import Pipes
  import Prefs

  // --- How much is left to do ---

  /** Each message and each process weighs as many moves as it can still cause. */
  function RequestWeight(r: Request): nat {
    match r
    case BeginCommand(_, _, _) => 6
    case StartRead(_) => 4
    case FinishEdit(_) => 2
    case _ => 1
  }

  function InboxWeight(inbox: seq<Request>): nat {
    if inbox == [] then 0 else RequestWeight(inbox[0]) + InboxWeight(inbox[1..])
  }

  function OutboxWeight(outbox: seq<Response>): nat {
    if outbox == [] then 0 else (if outbox[0].EditRequest? then 3 else 1) + OutboxWeight(outbox[1..])
  }

  /** Spawned processes that have not reported their exit. */
  ghost function Unexited(running: map<Pid, ProcessState>, local: seq<Event>): set<Pid> {
    set p | p in running && running[p] == Spawned && (forall e :: e in local ==> !(e.Completed? && e.pid == p))
  }

  ghost function Work(sched: Sched, local: seq<Event>): nat {
    5 * |Idle(sched)| + 3 * |Unexited(sched.Running(), local)| + 2 * |local|
  }

  /** Pipes on which not all of what the backend wrote has been read. */
  ghost function Unread(written: map<PipeId, Bytes>, produced: map<PipeId, Bytes>): set<PipeId> {
    set id | id in written && BytesOf(produced, id) != written[id]
  }

  ghost function Measure(s: System): nat
    requires s.taken <= |s.c.sent|
  {
    InboxWeight(s.Inbox()) + OutboxWeight(s.outbox) + Work(s.b.sched, s.local) + 3 * |s.b.reading - s.ended|
    + 3 * |Unread(s.b.written, s.produced)|
  }

  lemma {:induction false} InboxPush(inbox: seq<Request>, r: Request)
    ensures InboxWeight(inbox + [r]) == InboxWeight(inbox) + RequestWeight(r)
  {
    hide RequestWeight;
    if inbox == [] {
      assert [r][1..] == [];
    } else {
      assert (inbox + [r])[1..] == inbox[1..] + [r];
      InboxPush(inbox[1..], r);
    }
  }

  lemma {:induction false} OutboxPush(outbox: seq<Response>, r: Response)
    ensures OutboxWeight(outbox + [r]) == OutboxWeight(outbox) + if r.EditRequest? then 3 else 1
  {
    if outbox == [] {
      assert [r][1..] == [];
    } else {
      assert (outbox + [r])[1..] == outbox[1..] + [r];
      OutboxPush(outbox[1..], r);
    }
  }

  lemma Fewer<T>(a: set<T>, b: set<T>)
    requires a <= b
    ensures |a| <= |b|
  {
    assert b == a + (b - a);
  }

  lemma OneFewer<T>(a: set<T>, b: set<T>, x: T)
    requires a <= b - {x} && x in b
    ensures |a| + 1 <= |b|
  {
    Fewer(a, b - {x});
  }

  lemma OneMore<T>(a: set<T>, b: set<T>, x: T)
    requires a <= b + {x}
    ensures |a| <= |b| + 1
  {
    Fewer(a, b + {x});
  }

  lemma WorkAdd(s: Sched, p: Pid, job: Job<RunCmd>, local: seq<Event>)
    ensures Work(s.Add(p, job), local) <= Work(s, local) + 5
  {
    hide Schedule.Running;
    AddRunning(s, p, job);
    OneMore(Idle(s.Add(p, job)), Idle(s), p);
  }

  lemma WorkFinish(s: Sched, p: Pid, status: ExitStatus, local: seq<Event>)
    ensures Work(s.Finish(p, status), local) <= Work(s, local)
    ensures p in Idle(s) ==> Work(s.Finish(p, status), local) + 5 <= Work(s, local)
  {
    var t := s.Finish(p, status);
    Fewer(Unexited(t.Running(), local), Unexited(s.Running(), local));
    Fewer(Idle(t), Idle(s));
    if p in Idle(s) { OneFewer(Idle(t), Idle(s), p); }
  }

  lemma WorkBegin(s: Sched, p: Pid, state: ProcessState, local: seq<Event>)
    requires p in s.Runnable()
    ensures Work(s.Begin(p, state), local) + (if state == Spawned then 2 else 5) <= Work(s, local)
  {
    hide Schedule.Runnable, Schedule.Running;
    RunnableFacts(s, p);
    BeginRunning(s, p, state);
    OneFewer(Idle(s.Begin(p, state)), Idle(s), p);
    var (before, after) := (Unexited(s.Running(), local), Unexited(s.Running()[p := state], local));
    if state == Spawned {
      OneMore(after, before, p);
    } else {
      Fewer(after, before);
    }
  }

  lemma WorkReported(s: Sched, local: seq<Event>, p: Pid, exitCode: int)
    requires p in Unexited(s.Running(), local)
    ensures Work(s, local + [Event.Completed(p, exitCode)]) + 1 <= Work(s, local)
  {
    hide Schedule.Running, Idle;
    var e := Event.Completed(p, exitCode);
    var all := local + [e];
    assert e in all && forall x :: x in local ==> x in all;
    OneFewer(Unexited(s.Running(), all), Unexited(s.Running(), local), p);
  }

  lemma WorkHeard(s: Sched, local: seq<Event>, e: Event)
    ensures Work(s, local + [e]) <= Work(s, local) + 2
  {
    hide Schedule.Running, Idle;
    assert forall x :: x in local ==> x in local + [e];
    Fewer(Unexited(s.Running(), local + [e]), Unexited(s.Running(), local));
  }

  /** The report at the front has been handled. */
  lemma WorkTaken(s: Sched, local: seq<Event>)
    requires local != []
    ensures match local[0]
            case Completed(p, code) => Work(s.Finish(p, FromExitCode(code)), local[1..]) + 2 <= Work(s, local)
            case _ => Work(s, local[1..]) + 2 <= Work(s, local)
  {
    assert forall e :: e in local ==> e == local[0] || e in local[1..];
    if local[0].Completed? {
      var t := s.Finish(local[0].pid, FromExitCode(local[0].exitCode));
      Fewer(Unexited(t.Running(), local[1..]), Unexited(s.Running(), local));
      Fewer(Idle(t), Idle(s));
    } else {
      Fewer(Unexited(s.Running(), local[1..]), Unexited(s.Running(), local));
    }
  }

  // --- Every move but a prompt uses some of it up ---

  // Reads more of a pipe than the rest of what the backend wrote to it.
  predicate Adds(s: System, m: Move) {
    m.ReaderReads? && !Completes(s, m.pipe, m.data)
  }

  // After `m` there is less to do than before; reading output may add to it.
  ghost predicate Falls(s: System, m: Move)
    requires s.taken <= |s.c.sent| && Enabled(s, m)
  {
    && Next(s, m).Returned? && Next(s, m).value.taken <= |Next(s, m).value.c.sent|
    && Next(s, m).value.over == s.over
    && Measure(Next(s, m).value) + 1 <= Measure(s) + if Adds(s, m) then 3 else 0
  }

  lemma ArriveFalls(s: System, ok: bool)
    requires s.taken <= |s.c.sent| && Enabled(s, Arrive(ok)) && Next(s, Arrive(ok)).Returned?
    ensures Falls(s, Arrive(ok))
  {
    hide Work, Deliver, Unread;
    DeliverSends(s.c, s.outbox[0], ok);
    var d := Deliver(s.c, s.outbox[0], ok).value;
    if s.outbox[0].EditRequest? {
      var r := FinishEdit(s.outbox[0].editId);
      assert d.sent[s.taken..] == s.Inbox() + [r];
      InboxPush(s.Inbox(), r);
    }
  }

  lemma DeliverSends(c: Client, r: Response, ok: bool)
    requires Deliver(c, r, ok).Returned?
    ensures Deliver(c, r, ok).value.sent == if r.EditRequest? then c.sent + [FinishEdit(r.editId)] else c.sent
  {
  }

  lemma SilentNews(s: System, b: Backend)
    requires b.log == s.b.log
    ensures s.outbox + News(s.b, b) == s.outbox
  {
    Nothing(s.b.log);
    NewsOf(s.b, b, []);
    Responses(0, RemoteReady);
  }

  lemma TakeFalls(s: System, ok: bool)
    requires s.taken <= |s.c.sent| && Enabled(s, TakeRequest(ok)) && Next(s, TakeRequest(ok)).Returned?
    ensures Falls(s, TakeRequest(ok))
  {
    hide Work, Mismatched, Pipes.Perform, News, Schedule.Runnable, Exit;
    var r := s.c.sent[s.taken];
    InboxNext(s);
    if EventOf(r).Some? {
      var b := Receive(s.b, EventOf(r).value, ok).value;
      match r {
        case BeginCommand(p, blockFor, cmd) =>
          if Mismatched(s.b.sched.done, blockFor) {
            NewsOf(s.b, b, [Sent(CommandDone(p, 1))]);
            Responses(p, CommandDone(p, 1));
            OutboxPush(s.outbox, CommandDone(p, 1));
          } else {
            SilentNews(s, b);
            WorkAdd(s.b.sched, p, Job(cmd, blockFor), s.local);
          }
        case FinishEdit(editId) =>
          AnswerFalls(s, editId, ok);
        case OpenFile(_, _) =>
          SilentNews(s, b);
        case StartRead(id) =>
          SilentNews(s, b);
          OneMore(b.reading - s.ended, s.b.reading - s.ended, id);
        case ReadUpTo(_, _) =>
      }
    }
  }

  lemma AnswerFalls(s: System, editId: nat, ok: bool)
    requires s.taken < |s.c.sent| && s.c.sent[s.taken] == FinishEdit(editId)
    requires Enabled(s, TakeRequest(ok)) && Next(s, TakeRequest(ok)).Returned?
    ensures Falls(s, TakeRequest(ok))
  {
    hide Work, News, Schedule.Runnable, Schedule.Contradicts, Schedule.Running;
    InboxNext(s);
    var left, p := s.b.(edits := s.b.edits - {editId}), s.b.edits[editId].0;
    var b := Exit(left, p, 0).value;
    NewsOf(s.b, b, [Sent(CommandDone(p, 0))]);
    Responses(p, CommandDone(p, 0));
    OutboxPush(s.outbox, CommandDone(p, 0));
    WorkFinish(s.b.sched, p, Success, s.local);
  }

  lemma LocalFalls(s: System)
    requires s.taken <= |s.c.sent| && Enabled(s, TakeLocal) && Next(s, TakeLocal).Returned?
    requires s.local[0].Completed? || s.local[0].PipeOutput? || s.local[0].PipeEnd?
    ensures Falls(s, TakeLocal)
  {
    hide Work, News, Schedule.Runnable, Schedule.Contradicts, Schedule.Running;
    var b := Receive(s.b, s.local[0], true).value;
    var r := match s.local[0]
             case Completed(p, code) => CommandDone(p, code)
             case PipeOutput(id, data) => PipeData(id, data)
             case PipeEnd(id) => PipeClosed(id)
             case _ => RemoteReady;
    NewsOf(s.b, b, [Sent(r)]);
    Responses(0, r);
    OutboxPush(s.outbox, r);
    WorkTaken(s.b.sched, s.local);
  }

  /** At most one of the two outputs has something to be read. */
  lemma UnreadWords(written: map<PipeId, Bytes>, produced: map<PipeId, Bytes>, c: RunCmd, answer: (bool, Bytes))
    requires forall id :: id in WordsAfter(c, answer, written) ==>
               BytesOf(produced, id) <= WordsAfter(c, answer, written)[id]
    ensures |Unread(WordsAfter(c, answer, written), produced)| <= |Unread(written, produced)| + 1
  {
    hide BytesOf;
    var id := if Says(c.cmd, answer.0, answer.1).0 == [] then c.pipes.stderr else c.pipes.stdout;
    OneMore(Unread(WordsAfter(c, answer, written), produced), Unread(written, produced), id);
  }

  lemma LaunchFalls(s: System, p: Pid, ok: bool, text: Bytes)
    requires s.taken <= |s.c.sent| && Enabled(s, Launch(p, ok, text)) && Next(s, Launch(p, ok, text)).Returned?
    requires var t := Next(s, Launch(p, ok, text)).value;
             forall id :: id in t.b.written ==> BytesOf(t.produced, id) <= t.b.written[id]
    ensures Falls(s, Launch(p, ok, text))
  {
    hide Work, News, Dispatch, OpsOf, Unread, BytesOf, Says, Schedule.Runnable, WordsAfter;
    RunnableFacts(s.b.sched, p);
    var b, c := Dispatch(s.b, p, ok, text).value, s.b.sched.jobs[p].cmd;
    if ResultOf(c.cmd, ok).Process? {
      var state, more := DispatchLeaves(s.b, p, ok, text);
      WorkBegin(s.b.sched, p, state, s.local);
      NewsOf(s.b, b, [Ran(p)] + more);
      if more == [] {
        Responses(p, RemoteReady);
        Nothing([Ran(p)]);
        Nothing(s.outbox);
      } else {
        Responses(p, more[0].response);
        OutboxPush(s.outbox, more[0].response);
      }
    } else {
      var status, r := DispatchEnds(s.b, p, ok, text);
      NewsOf(s.b, b, [Ran(p), Sent(r)]);
      Responses(p, r);
      OutboxPush(s.outbox, r);
      WorkFinish(s.b.sched, p, status, s.local);
      UnreadWords(s.b.written, s.produced, c, (ok, text));
    }
  }

  lemma DispatchLeaves(b: Backend, p: Pid, ok: bool, text: Bytes) returns (state: ProcessState, more: seq<Entry>)
    requires p in b.sched.Runnable() && Dispatch(b, p, ok, text).Returned?
    requires ResultOf(b.sched.jobs[p].cmd.cmd, ok).Process?
    ensures var c := Dispatch(b, p, ok, text).value;
            && c.sched == b.sched.Begin(p, state) && c.reading == b.reading && c.written == b.written
            && c.log == b.log + ([Ran(p)] + more)
    ensures if state == Spawned then more == [] else |more| == 1 && more[0].Sent? && more[0].response.EditRequest?
  {
    hide PerformOps, OpsOf, Schedule.Runnable, Schedule.Contradicts;
    RunnableFacts(b.sched, p);
    var cmd := b.sched.jobs[p].cmd.cmd;
    state := if cmd.Edit? then AwaitingEdit else Spawned;
    more := if cmd.Edit? then [Sent(EditRequest(b.nextEdit, p, cmd.file))] else [];
    Nothing([Ran(p)]);
  }

  lemma DispatchEnds(b: Backend, p: Pid, ok: bool, text: Bytes) returns (status: ExitStatus, r: Response)
    requires p in b.sched.Runnable() && Dispatch(b, p, ok, text).Returned?
    requires !ResultOf(b.sched.jobs[p].cmd.cmd, ok).Process?
    ensures var c := Dispatch(b, p, ok, text).value;
            && c.sched == b.sched.Finish(p, status) && c.reading == b.reading
            && c.written == WordsAfter(b.sched.jobs[p].cmd, (ok, text), b.written)
            && c.log == b.log + [Ran(p), Sent(r)] && r.CommandDone?
  {
    hide PerformOps, OpsOf, Schedule.Runnable, Schedule.Contradicts, Says, Wrote;
    RunnableFacts(b.sched, p);
    var c := Dispatch(b, p, ok, text).value;
    status := c.sched.done[p];
    r := c.log[|b.log| + 1].response;
  }

  lemma ReadOn(s: System, id: PipeId, data: Bytes)
    requires data != [] && (id in s.b.written ==> BytesOf(s.produced, id) + data <= s.b.written[id])
    ensures var produced := s.produced[id := BytesOf(s.produced, id) + data];
            var before, after := Unread(s.b.written, s.produced), Unread(s.b.written, produced);
            |after| + (if Completes(s, id, data) then 1 else 0) <= |before|
  {
    var produced := s.produced[id := BytesOf(s.produced, id) + data];
    if Completes(s, id, data) {
      OneFewer(Unread(s.b.written, produced), Unread(s.b.written, s.produced), id);
    } else {
      Fewer(Unread(s.b.written, produced), Unread(s.b.written, s.produced));
    }
  }

  lemma ThreadFalls(s: System, m: Move)
    requires s.taken <= |s.c.sent| && Enabled(s, m) && (m.ProcessExits? || m.ReaderReads? || m.ReaderEnds?)
    ensures Falls(s, m)
  {
    hide Work, Schedule.Running, Unread, BytesOf;
    match m {
      case ProcessExits(p, exitCode) => WorkReported(s.b.sched, s.local, p, exitCode);
      case ReaderReads(id, data) =>
        WorkHeard(s.b.sched, s.local, PipeOutput(id, data));
        ReadOn(s, id, data);
      case ReaderEnds(id) =>
        WorkHeard(s.b.sched, s.local, PipeEnd(id));
        OneFewer(s.b.reading - (s.ended + {id}), s.b.reading - s.ended, id);
    }
  }

  lemma MoveFalls(s: System, m: Move)
    requires Invariant(s) && s.taken <= |s.c.sent| && Enabled(s, m) && !m.Prompt? && Next(s, m).Returned?
    ensures Falls(s, m)
  {
    hide Invariant, Falls, Next;
    FrontReport(s);
    match m {
      case Arrive(ok) => ArriveFalls(s, ok);
      case TakeRequest(ok) => TakeFalls(s, ok);
      case TakeLocal => LocalFalls(s);
      case Launch(p, ok, text) =>
        LaunchSafe(s, p, ok, text);
        WrittenFirst(Next(s, m).value);
        LaunchFalls(s, p, ok, text);
      case _ => ThreadFalls(s, m);
    }
  }

  lemma WrittenFirst(s: System)
    requires Invariant(s)
    ensures forall id :: id in s.b.written ==> BytesOf(s.produced, id) <= s.b.written[id]
  {
    hide Commands, Edits, Exits, Linked, Streams, Output, Placed, Began, Equipped, Logged, Results, Gathers,
         Directory, Greeting;
  }

  lemma FrontReport(s: System)
    requires Invariant(s) && s.taken <= |s.c.sent|
    ensures s.local != [] ==> s.local[0].Completed? || s.local[0].PipeOutput? || s.local[0].PipeEnd?
  {
    hide Commands, Edits, Linked, Streams;
    if s.local != [] { ExitsTake(s.local, s.b.sched.Running()); }
  }

  // --- Runs ---

  // How many pieces of output are read in `moves`.
  function Pieces(moves: seq<Move>): nat {
    if moves == [] then 0 else Pieces(moves[..|moves| - 1]) + if moves[|moves| - 1].ReaderReads? then 1 else 0
  }

  lemma LegalStep(aliases: seq<Prefs.Rule>, moves: seq<Move>, m: Move)
    requires Legal(aliases, moves) && Played(aliases, moves).Returned?
    requires Played(aliases, moves).value.taken <= |Played(aliases, moves).value.c.sent|
    requires Enabled(Played(aliases, moves).value, m)
    ensures Legal(aliases, moves + [m]) && Played(aliases, moves + [m]) == Next(Played(aliases, moves).value, m)
  {
    assert (moves + [m])[..|moves|] == moves;
  }

  /** After a prompt, however the threads and queues are scheduled, at most so many moves
      can follow before the next prompt, apart from those that read and pass on output. */
  lemma {:induction false} Bounded(aliases: seq<Prefs.Rule>, moves: seq<Move>, more: seq<Move>)
    requires Legal(aliases, moves + more) && Played(aliases, moves + more).Returned?
    requires forall m :: m in more ==> !m.Prompt?
    ensures Legal(aliases, moves) && Played(aliases, moves).Returned?
    ensures Played(aliases, moves).value.taken <= |Played(aliases, moves).value.c.sent|
    ensures |more| <= Measure(Played(aliases, moves).value) + 3 * Pieces(more)
  {
    UsesUp(aliases, moves, more);
  }

  lemma {:induction false} UsesUp(aliases: seq<Prefs.Rule>, moves: seq<Move>, more: seq<Move>)
    requires Legal(aliases, moves + more) && Played(aliases, moves + more).Returned?
    requires forall m :: m in more ==> !m.Prompt?
    ensures Legal(aliases, moves) && Played(aliases, moves).Returned?
    ensures Played(aliases, moves).value.taken <= |Played(aliases, moves).value.c.sent|
    ensures Played(aliases, moves + more).value.taken <= |Played(aliases, moves + more).value.c.sent|
    ensures |more| + Measure(Played(aliases, moves + more).value)
         <= Measure(Played(aliases, moves).value) + 3 * Pieces(more)
    decreases more
  {
    hide Invariant, Measure, Next, Enabled;
    Safe(aliases, moves + more);
    InboxExists(Played(aliases, moves + more).value);
    if more == [] {
      assert moves + more == moves;
    } else {
      var rest, m := more[..|more| - 1], more[|more| - 1];
      assert (moves + more)[..|moves + more| - 1] == moves + rest && (moves + more)[|moves + more| - 1] == m;
      UsesUp(aliases, moves, rest);
      Safe(aliases, moves + rest);
      MoveFalls(Played(aliases, moves + rest).value, m);
    }
  }

  /** Continuing `moves` by `more`, the frontend reads no line, no output of a program is waited for, and no
      pipe ends before everybody who could write to it is done. */
  ghost predicate Patient(aliases: seq<Prefs.Rule>, moves: seq<Move>, more: seq<Move>) {
    more == [] ||
    (var rest, m := more[..|more| - 1], more[|more| - 1];
     && Patient(aliases, moves, rest)
     && !m.Prompt?
     && Played(aliases, moves + rest).Returned? && Steady(Played(aliases, moves + rest).value, m))
  }

  lemma {:induction false} PatientFrom(aliases: seq<Prefs.Rule>, moves: seq<Move>, m: Move, more: seq<Move>)
    requires Patient(aliases, moves + [m], more) && Patient(aliases, moves, [m])
    ensures Patient(aliases, moves, [m] + more)
    decreases more
  {
    hide Played, Steady;
    if more == [] {
      assert [m] + more == [m];
    } else {
      var rest, last := more[..|more| - 1], more[|more| - 1];
      PatientFrom(aliases, moves, m, rest);
      assert ([m] + more)[..|more|] == [m] + rest && ([m] + more)[|more|] == last;
      assert moves + [m] + rest == moves + ([m] + rest);
    }
  }

  lemma PatientOne(aliases: seq<Prefs.Rule>, moves: seq<Move>, m: Move)
    requires !m.Prompt? && Played(aliases, moves).Returned? && Steady(Played(aliases, moves).value, m)
    ensures Patient(aliases, moves, [m])
  {
    hide Played, Steady;
    assert [m][..0] == [] && moves + [] == moves;
  }

  /** From every reachable state the frontend can be brought back to its prompt; for that no program has to
      write anything, and no pipe has to end before its writers are done. */
  lemma {:induction false} ComesBack(aliases: seq<Prefs.Rule>, moves: seq<Move>, s: System) returns (more: seq<Move>)
    requires Legal(aliases, moves) && Played(aliases, moves) == Returned(s) && s.taken <= |s.c.sent| && !s.over
    ensures Legal(aliases, moves + more)
    ensures Played(aliases, moves + more).Returned? && Prompting(Played(aliases, moves + more).value.c)
    ensures Patient(aliases, moves, more)
    decreases Measure(s)
  {
    hide Invariant, Measure, Next, Enabled, Legal, Played, Prompting, Refused, Steady, Patient;
    if Prompting(s.c) {
      more := [];
      assert moves + more == moves;
      PatientNothing(aliases, moves);
    } else {
      Safe(aliases, moves);
      var m := NeverStuck(s);
      MoveSafe(s, m);
      MoveFalls(s, m);
      SteadyAddsNothing(s, m);
      LegalStep(aliases, moves, m);
      PatientOne(aliases, moves, m);
      var rest := ComesBack(aliases, moves + [m], Next(s, m).value);
      more := [m] + rest;
      assert moves + more == moves + [m] + rest;
      PatientFrom(aliases, moves, m, rest);
    }
  }

  lemma SteadyAddsNothing(s: System, m: Move)
    requires Steady(s, m)
    ensures !Adds(s, m)
  {
  }

  lemma PatientNothing(aliases: seq<Prefs.Rule>, moves: seq<Move>)
    ensures Patient(aliases, moves, [])
  {
  }
}
