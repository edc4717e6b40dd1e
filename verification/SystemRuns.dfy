// Runs of the whole system: what it does not survive, that every process is accounted for exactly
// once, and that whatever was asked for can be answered.

module SystemRuns {
  import opened Protocol
  import opened Scheduling
  import opened ScheduleLemmas
  import opened Driver
  import opened ClientSide
  import opened Requests
  import opened System
  import opened SystemCommands
  import opened SystemStreams
  import opened SystemMoves
  import opened SystemPrompts
  import DriverRuns
  import Pipes
  import Prefs

  lemma StartHolds(aliases: seq<Prefs.Rule>)
    ensures Invariant(NewSystem(aliases))
  {
    StartLinked();
    StartStreams();
    StartCommands();
    StartHistory();
    hide Linked, Streams, Commands, Logged, Began, Genuine, Equipped, Results, Placed;
    assert NewClient().sent[..0] == [];
    assert forall i :: 0 <= i < |NewSystem(aliases).outbox| ==> NewSystem(aliases).outbox[i] == RemoteReady;
  }

  lemma StartHistory()
    ensures Placed([], EmptySchedule()) && Began([], EmptySchedule(), [], map[], map[]) && Logged(NewBackend())
    ensures Genuine([], map[], map[], {}) && Equipped(map[], EmptySchedule(), [])
    ensures Results(EmptySchedule(), [], [], map[], map[])
  {
    DriverRuns.EmptyLog();
  }

  lemma StartLinked()
    ensures Linked(Pipes.EmptyTable(), [], [], [], 0)
  {
  }

  lemma StartCommands()
    ensures Commands(NewClient(), 0, EmptySchedule(), [RemoteReady])
  {
    assert NewClient().sent == [];
  }

  lemma StartStreams()
    ensures Streams(NewClient(), [], Feed({}, [RemoteReady], [], {}, map[], []))
  {
    forall id ensures Told([RemoteReady], id) + Heard([], id) == [] { assert [RemoteReady][1..] == []; }
  }

  /** In every interleaving of the frontend, the queues, the backend and what its threads report, an
      assertion, `expect` or `unwrap` in the event loop of either side fails exactly when something is
      refused: a command that cannot be spawned, a file that cannot be opened, an edit that cannot
      be saved, an editor that fails, or a bad line.  Pipes and threads can always be made, and
      messages always travel; a panic of a thread that reads or writes a pipe does not reach the loops. */
  lemma {:induction false} Safe(aliases: seq<Prefs.Rule>, moves: seq<Move>)
    requires Legal(aliases, moves)
    ensures Played(aliases, moves).Panicked? <==>
              moves != [] && Refused(Played(aliases, moves[..|moves| - 1]).value, moves[|moves| - 1])
    ensures Played(aliases, moves).Returned? ==> Invariant(Played(aliases, moves).value)
  {
    hide Invariant, Next, Enabled, Refused;
    if moves == [] {
      StartHolds(aliases);
    } else {
      var before, m := moves[..|moves| - 1], moves[|moves| - 1];
      Safe(aliases, before);
      MoveSafe(Played(aliases, before).value, m);
    }
  }

  // --- Exactly once ---

  /** What the frontend waits for is either still on its way to the backend, or runnable,
      running or waiting there, or its result is on its way back: one of these, and only once. */
  ghost predicate Accounted(s: System)
    requires s.taken <= |s.c.sent|
  {
    var sched := s.b.sched;
    var (coming, ready, running, waiting, answered) :=
      (Pids(s.Inbox()), sched.Runnable(), sched.Running().Keys, sched.WaitingTable().Keys, Announced(s.outbox));
    && s.c.waitingFor == coming + ready + running + waiting + answered
    && coming !! ready !! running !! waiting !! answered
    && OneResultEach(s.outbox)
    && (forall i, j :: s.taken <= i < j < |s.c.sent| && s.c.sent[i].BeginCommand? && s.c.sent[j].BeginCommand? ==>
          s.c.sent[i].pid != s.c.sent[j].pid)
  }

  lemma ThreeGroups(sched: Sched)
    requires sched.WellFormed()
    ensures sched.jobs.Keys - sched.done.Keys == sched.Runnable() + sched.Running().Keys + sched.WaitingTable().Keys
    ensures sched.Runnable() !! sched.Running().Keys !! sched.WaitingTable().Keys
  {
  }

  lemma ExactlyOnce(aliases: seq<Prefs.Rule>, moves: seq<Move>)
    requires Legal(aliases, moves) && Played(aliases, moves).Returned?
    ensures Played(aliases, moves).value.taken <= |Played(aliases, moves).value.c.sent|
    ensures Accounted(Played(aliases, moves).value)
  {
    hide Legal, Played, Placed, Began, Genuine, Equipped, Logged, Results, Gathers, Output, Edits, Exits, Linked,
         Streams, Directory, Greeting, AllOps, Pids, Announced, Schedule.WellFormed, Schedule.Runnable,
         Schedule.Running, Schedule.WaitingTable, Schedule.Blocked, Dependable, Linear;
    Safe(aliases, moves);
    var s := Played(aliases, moves).value;
    InboxPids(s.c.sent, s.taken, s.c.nextId);
    ThreeGroups(s.b.sched);
    LawfulDone(s.b.sched);
    Partition(s.c.waitingFor, Pids(s.c.sent), Pids(s.c.sent[..s.taken]), Pids(s.Inbox()), s.b.sched.done.Keys,
              Announced(s.outbox));
  }

  lemma Partition(waiting: set<Pid>, all: set<Pid>, known: set<Pid>, coming: set<Pid>, done: set<Pid>,
                  answered: set<Pid>)
    requires waiting == all - (done - answered) && all == known + coming && known !! coming
    requires answered <= done <= known
    ensures waiting == coming + (known - done) + answered
    ensures coming !! (known - done) && coming !! answered && (known - done) !! answered
  {
  }

  // --- Gathered output ---

  /** At every prompt the working directory can be taken in, and it is the one that the system answered
      when the question asked after the last line was started: what was gathered is what the
      backend wrote, and all that its pipe produced, up to the end. */
  lemma DirectoryComplete(aliases: seq<Prefs.Rule>, moves: seq<Move>, s: System)
    returns (q: Request, ok: bool, text: Bytes)
    requires Legal(aliases, moves) && Played(aliases, moves) == Returned(s) && Prompting(s.c)
    ensures Settle(s.c).Returned?
    ensures ROOT in s.c.cwdFor ==>
              var id := s.c.cwdFor[ROOT];
              && q in s.c.sent && q.BeginCommand? && q.cmd.cmd == GetDirectory && q.cmd.pipes.stdout == id
              && Launch(q.pid, ok, text) in moves
              && id in s.c.finished && s.c.finished[id] == BytesOf(s.produced, id)
              && s.c.finished[id] == (if ok then text + [NEWLINE] else []) && id in s.ended
              && Settle(s.c).value.workingDir == if ok then text else s.c.workingDir
    ensures ROOT !in s.c.cwdFor ==> Settle(s.c).value == s.c
  {
    hide Invariant, Legal, Played, Settle, Prompting;
    ok, text := false, [];
    Safe(aliases, moves);
    q := DirectorySettles(s);
    if ROOT in s.c.cwdFor {
      ok, text := s.answers[q.pid].0, s.answers[q.pid].1;
      AnswersGiven(aliases, moves, q.pid);
    }
  }

  /** What is read of the output and errors of `cd`, of a question for the directory and of an edit whose file
      cannot be read: the beginning, and at the end all, of what the backend says about the system's
      answer when it started the command. */
  lemma BuiltInSays(aliases: seq<Prefs.Rule>, moves: seq<Move>, s: System, r: Request) returns (ok: bool, text: Bytes)
    requires Legal(aliases, moves) && Played(aliases, moves) == Returned(s)
    requires r in s.c.sent && r.BeginCommand? && Begun(s, r.pid) && !r.cmd.cmd.Unknown?
    requires r.cmd.cmd.Edit? ==> r.pid !in s.b.sched.started
    ensures Launch(r.pid, ok, text) in moves
    ensures r.cmd.cmd.SetDirectory? ==>
              && ReadsAs(s, r.cmd.pipes.stdout, if ok then "Success: ()" else "Error: " + text)
              && ReadsAs(s, r.cmd.pipes.stderr, "")
    ensures r.cmd.cmd.GetDirectory? ==>
              && ReadsAs(s, r.cmd.pipes.stdout, if ok then text + "\n" else "")
              && ReadsAs(s, r.cmd.pipes.stderr, if ok then "" else "Error: " + text)
    ensures r.cmd.cmd.Edit? ==> !ok && ReadsAs(s, r.cmd.pipes.stdout, "") && ReadsAs(s, r.cmd.pipes.stderr, text)
  {
    hide Invariant, Legal, Played, Begun;
    Safe(aliases, moves);
    BuiltInWrote(s, r);
    ok, text := s.answers[r.pid].0, s.answers[r.pid].1;
    AnswersGiven(aliases, moves, r.pid);
    ReadsWritten(s, r.cmd.pipes.stdout);
    ReadsWritten(s, r.cmd.pipes.stderr);
  }

  // What has been read of the pipe is the beginning of `all`, and once it has ended all of it.
  predicate ReadsAs(s: System, id: PipeId, all: Bytes) {
    BytesOf(s.produced, id) <= all && (id in s.ended ==> BytesOf(s.produced, id) == all)
  }

  lemma ReadsWritten(s: System, id: PipeId)
    requires Invariant(s) && id in s.b.written
    ensures ReadsAs(s, id, s.b.written[id])
  {
    hide Commands, Edits, Exits, Linked, Streams, Output, Placed, Began, Equipped, Logged, Results, Gathers,
         Directory, Greeting;
  }

  /** Every answer on record was given when the process was started. */
  lemma {:induction false} AnswersGiven(aliases: seq<Prefs.Rule>, moves: seq<Move>, p: Pid)
    requires Played(aliases, moves).Returned? && p in Played(aliases, moves).value.answers
    ensures var (ok, text) := Played(aliases, moves).value.answers[p]; Launch(p, ok, text) in moves
  {
    if moves != [] {
      var before, m := moves[..|moves| - 1], moves[|moves| - 1];
      AnsweredByMove(Played(aliases, before).value, m, p);
      if m != Launch(p, Played(aliases, moves).value.answers[p].0, Played(aliases, moves).value.answers[p].1) {
        AnswersGiven(aliases, before, p);
      }
    }
  }

  lemma AnsweredByMove(s: System, m: Move, p: Pid)
    requires s.taken <= |s.c.sent| && Enabled(s, m) && Next(s, m).Returned? && p in Next(s, m).value.answers
    ensures var (ok, text) := Next(s, m).value.answers[p];
            m == Launch(p, ok, text) || (p in s.answers && s.answers[p] == (ok, text))
  {
    hide Issue, Receive, Dispatch, Deliver, Schedule.Runnable, Schedule.Running;
  }

  lemma PipeConserved(s: System, id: PipeId)
    requires Invariant(s)
    ensures Only(s.delivered, {id}) + DataOf(Under(s.outbox, s.local, id)) == BytesOf(s.produced, id)
  {
    hide Commands, Edits, Exits, Linked, Streams, Output, Placed, Began, Genuine, Equipped, Logged, Results, Gathers,
         Directory, Greeting, Only, Under;
    InboxExists(s);
    StreamsHere(s.c, s.Inbox(), FeedOf(s), id);
  }

  /** Nothing is lost, invented or reordered: the bytes of each pipe that the frontend has received,
      followed by those still under way, are the bytes that were produced on it; and it has shown
      those of its output pipes as output and those of its error pipes as errors. */
  lemma OutputConserved(aliases: seq<Prefs.Rule>, moves: seq<Move>)
    requires Legal(aliases, moves) && Played(aliases, moves).Returned?
    ensures var s := Played(aliases, moves).value;
            && (forall id: nat ::
                  Only(s.delivered, {id}) + DataOf(Under(s.outbox, s.local, id)) == BytesOf(s.produced, id))
            && s.c.printed == Only(s.delivered, s.c.stdoutPipes)
            && s.c.complained == Only(s.delivered, s.c.stderrPipes)
            && s.c.stdoutPipes !! s.c.stderrPipes
  {
    hide Legal, Played, Placed, Began, Genuine, Equipped, Logged, Results, Gathers, Commands, Edits, Exits, Linked,
         Streams, Greeting, Directory, Only, Under;
    Safe(aliases, moves);
    var s := Played(aliases, moves).value;
    forall id: nat ensures Only(s.delivered, {id}) + DataOf(Under(s.outbox, s.local, id)) == BytesOf(s.produced, id) {
      PipeConserved(s, id);
    }
  }

  // --- Progress ---

  /** The write end of the pipe was handed out, and no running command holds it. */
  ghost predicate Closed(s: System, id: PipeId) {
    && Flows(s.b.pipes, id)
    && forall p :: p in s.b.sched.Running() && p in s.b.sched.jobs ==>
         s.b.sched.jobs[p].cmd.pipes.stdout != id && s.b.sched.jobs[p].cmd.pipes.stderr != id
  }

  /** The reader has read the rest of what the backend wrote to the pipe. */
  predicate Completes(s: System, id: PipeId, data: Bytes) {
    id in s.b.written && BytesOf(s.produced, id) + data == s.b.written[id]
  }

  /** No output of a program has to be waited for, and no pipe ends before its writers are done with it. */
  ghost predicate Steady(s: System, m: Move) {
    && (m.ReaderReads? ==> Completes(s, m.pipe, m.data))
    && (m.ReaderEnds? ==> Closed(s, m.pipe))
  }

  /** While the frontend waits, something other than a program's output can happen that nothing refuses; if
      it is the end of a pipe, whoever wrote to that pipe is done with it. */
  lemma NeverStuck(s: System) returns (m: Move)
    requires Invariant(s) && !Prompting(s.c) && !s.over && s.taken <= |s.c.sent|
    ensures Enabled(s, m) && !Refused(s, m) && !m.Prompt? && Steady(s, m)
  {
    hide Commands, Edits, Exits, Linked, Streams, Output, Placed, Began, Genuine, Equipped, Logged, Results, Gathers,
         Schedule.Runnable, Schedule.Running, Schedule.WellFormed, Closed;
    if s.outbox != [] {
      m := Arrive(true);
    } else if p :| p in s.b.sched.Runnable() {
      m := Launch(p, true, []);
      ScheduledJob(s.b.sched, p);
    } else if s.Inbox() != [] {
      m := TakeRequest(true);
    } else if s.local != [] {
      m := TakeLocal;
    } else if s.c.waitingFor != {} {
      m := SomeoneRuns(s);
    } else {
      m := SomeoneReads(s);
    }
  }

  lemma ScheduledJob(sched: Sched, p: Pid)
    requires p in sched.Runnable()
    ensures p in sched.jobs
  {
  }

  lemma SomeoneRuns(s: System) returns (m: Move)
    requires Invariant(s) && s.c.waitingFor != {} && s.outbox == [] && s.b.sched.Runnable() == {} && s.local == []
    requires s.taken <= |s.c.sent| && s.Inbox() == [] && !s.over
    ensures Enabled(s, m) && m.ProcessExits?
  {
    hide Linked, Streams, Directory, Greeting, Output, Exits, Placed, Began, Genuine, Equipped, Logged, Results,
         Gathers, IdleOps, Sane, Pids, Schedule.WellFormed, Schedule.Running, Schedule.Runnable;
    var running := s.b.sched.Running();
    assert s.c.sent[..s.taken] == s.c.sent;
    if running == map[] {
      NoDeadlock(s.b.sched);
      assert false;
    }
    var p :| p in running;
    assert running[p] == Spawned;
    m := ProcessExits(p, 0);
  }

  lemma PrefixWritten(s: System, id: PipeId)
    requires Invariant(s) && id in s.b.written
    ensures BytesOf(s.produced, id) <= s.b.written[id]
  {
    hide Commands, Edits, Exits, Linked, Streams, Output, Placed, Began, Equipped, Logged, Results, Gathers,
         Directory, Greeting;
  }

  lemma GatheredReads(s: System) returns (id: PipeId)
    requires Invariant(s) && !Prompting(s.c) && s.c.waitingFor == {} && s.outbox == [] && s.local == []
    requires s.taken <= |s.c.sent| && s.Inbox() == []
    ensures id in s.c.gathering && id in s.b.reading && id !in s.ended
  {
    hide Commands, Edits, Exits, Linked, Streams, Output, Placed, Began, Genuine, Equipped, Logged, Results, Gathers;
    assert s.c.waitingForEof != {};
    id :| id in s.c.waitingForEof;
    StreamsHere(s.c, s.Inbox(), FeedOf(s), id);
  }

  /** Nothing is waited for but the answer about the working directory: its process is done, so the
      backend has written the answer, and either its rest can be read or the pipe ends. */
  lemma SomeoneReads(s: System) returns (m: Move)
    requires Invariant(s) && !Prompting(s.c) && s.c.waitingFor == {} && s.outbox == [] && s.local == []
    requires s.taken <= |s.c.sent| && s.Inbox() == [] && !s.over
    ensures Enabled(s, m) && (m.ReaderReads? || m.ReaderEnds?) && Steady(s, m)
  {
    hide Commands, Edits, Exits, Linked, Streams, Output, Placed, Began, Genuine, Equipped, Logged, Results, Gathers,
         Greeting, Schedule.Runnable, Schedule.Running, Schedule.WellFormed, Flows, BytesOf;
    var id := GatheredReads(s);
    AllFinished(s);
    var q := DirectoryAnswered(s, id);
    FlowsNow(s, id);
    PrefixWritten(s, id);
    var all, n := s.b.written[id], |BytesOf(s.produced, id)|;
    if n < |all| {
      m := ReaderReads(id, all[n..]);
      assert BytesOf(s.produced, id) + all[n..] == all;
    } else {
      m := ReaderEnds(id);
    }
  }
}
