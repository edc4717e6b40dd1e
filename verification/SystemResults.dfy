// What the frontend and the waiters are told about a process is what happened to it.

module SystemResults {
  import opened Protocol
  import opened Scheduling
  import opened Driver
  import opened ClientSide
  import opened Requests
  import opened System
  import opened SystemMoves
  import opened SystemRuns
  import DriverRuns
  import Prefs
  import SystemCommands

  /** Every exit code on record is one with which the program exited. */
  lemma {:induction false} ExitsHappened(aliases: seq<Prefs.Rule>, moves: seq<Move>, p: Pid)
    requires Played(aliases, moves).Returned? && p in Played(aliases, moves).value.exits
    ensures ProcessExits(p, Played(aliases, moves).value.exits[p]) in moves
  {
    if moves != [] {
      var before, m := moves[..|moves| - 1], moves[|moves| - 1];
      ExitedByMove(Played(aliases, before).value, m, p);
      if m != ProcessExits(p, Played(aliases, moves).value.exits[p]) { ExitsHappened(aliases, before, p); }
    }
  }

  lemma ExitedByMove(s: System, m: Move, p: Pid)
    requires s.taken <= |s.c.sent| && Enabled(s, m) && Next(s, m).Returned? && p in Next(s, m).value.exits
    ensures var code := Next(s, m).value.exits[p]; m == ProcessExits(p, code) || (p in s.exits && s.exits[p] == code)
  {
    hide Issue, Receive, Dispatch, Deliver, Schedule.Runnable, Schedule.Running;
  }

  lemma JobAsSent(s: System, p: Pid) returns (r: Request)
    requires Invariant(s) && p in s.b.sched.jobs
    ensures r in s.c.sent && r.BeginCommand? && r.pid == p && s.b.sched.jobs[p].cmd == r.cmd
  {
    hide Edits, Exits, Linked, Streams, Output, Began, Genuine, Equipped, Logged, Results, Gathers, Directory, Greeting,
         Schedule.WellFormed, Sane, Unconditional, OneResultEach;
    r :| r in s.c.sent[..s.taken] && r.BeginCommand? && r.pid == p;
  }

  lemma ResultFacts(s: System, p: Pid, code: int)
    requires Invariant(s) && Sent(CommandDone(p, code)) in s.b.log
    ensures p in s.b.sched.jobs && p in s.b.sched.done && p in s.answers
    ensures Tells(s.b.sched.jobs[p].cmd.cmd, p in s.b.sched.started, s.answers[p].0, s.exits, p, s.b.sched.done[p],
                  code)
    ensures p in s.b.sched.started <==> ResultOf(s.b.sched.jobs[p].cmd.cmd, s.answers[p].0).Process?
  {
    hide Commands, Edits, Exits, Linked, Streams, Output, Placed, Genuine, Logged, Gathers, Directory, Greeting,
         Tells, Writer;
  }

  /** In every reachable state, of every result that was sent: for a program it is the code with which it exited,
      and its waiters see a success exactly for 0; an edit reports 0 and a success if its file could
      be read, 1 and a failure if not; a built-in reports 0 whatever happened, but its waiters see
      whether the system agreed. */
  lemma ResultsTell(aliases: seq<Prefs.Rule>, moves: seq<Move>, s: System, p: Pid, code: int)
    returns (r: Request, ok: bool, text: Bytes)
    requires Legal(aliases, moves) && Played(aliases, moves) == Returned(s) && Sent(CommandDone(p, code)) in s.b.log
    ensures r in s.c.sent && r.BeginCommand? && r.pid == p && p in s.b.sched.done
    ensures r.cmd.cmd.Unknown? ==> ProcessExits(p, code) in moves && (s.b.sched.done[p] == Success <==> code == 0)
    ensures !r.cmd.cmd.Unknown? ==> Launch(p, ok, text) in moves && (s.b.sched.done[p] == Success <==> ok)
    ensures r.cmd.cmd.Edit? ==> code == if ok then 0 else 1
    ensures r.cmd.cmd.SetDirectory? || r.cmd.cmd.GetDirectory? ==> code == 0
  {
    hide Invariant, Legal, Played;
    Safe(aliases, moves);
    ResultFacts(s, p, code);
    r := JobAsSent(s, p);
    ok, text := s.answers[p].0, s.answers[p].1;
    if r.cmd.cmd.Unknown? { ExitsHappened(aliases, moves, p); } else { AnswersGiven(aliases, moves, p); }
  }

  /** The exit of a program is passed on as it is: its code is sent, and its waiters see a success exactly
      for the code 0, so none for a program that was killed, whose code is -1. */
  lemma ExitTold(s: System, p: Pid, code: int)
    requires Invariant(s) && s.taken <= |s.c.sent| && Enabled(s, TakeLocal) && s.local[0] == Event.Completed(p, code)
    ensures Next(s, TakeLocal).Returned?
    ensures var t := Next(s, TakeLocal).value;
            && t.outbox == s.outbox + [CommandDone(p, code)]
            && p in t.b.sched.done && (t.b.sched.done[p] == Success <==> code == 0)
  {
    hide Sane, AllOps, Pids, Placed, Began, Genuine, Equipped, Logged, Results, Gathers, Commands, Edits, Exits,
         Linked, Streams, IdleOps, Schedule.Running, Greeting, Output, Directory, Schedule.WellFormed, Unconditional,
         Exit, Schedule.Runnable;
    SystemCommands.CommandsSane(s.c, s.taken, s.b.sched, s.outbox);
    SystemCommands.ExitsTake(s.local, s.b.sched.Running());
    ExitNext(s.b, p, code);
  }

  /** When an edit that the backend asked for is saved, exactly the result 0 of its process is sent,
      which is the edit of the file that was named, and its waiters see a success. */
  lemma EditTold(s: System, e: nat, p: Pid, name: string)
    requires Invariant(s) && s.taken < |s.c.sent| && Enabled(s, TakeRequest(true)) && s.c.sent[s.taken] == FinishEdit(e)
    requires Sent(EditRequest(e, p, name)) in s.b.log
    ensures e in s.b.edits && s.b.edits[e] == (p, name) // the file that is saved
    ensures Next(s, TakeRequest(true)).Returned?
    ensures var t := Next(s, TakeRequest(true)).value;
            && t.outbox == s.outbox + [CommandDone(p, 0)]
            && p in t.b.sched.done && t.b.sched.done[p] == Success
            && p in t.b.sched.jobs && t.b.sched.jobs[p].cmd.cmd == Edit(name)
  {
    hide Sane, AllOps, Pids, Placed, Began, Genuine, Equipped, Results, Gathers, Commands, Edits, Exits, Linked,
         Streams, IdleOps, Schedule.Running, Greeting, Output, Directory, Schedule.WellFormed, Unconditional, Exit,
         Schedule.Runnable, DriverRuns.LogFollows, DriverRuns.Reported;
    SystemCommands.CommandsSane(s.c, s.taken, s.b.sched, s.outbox);
    InboxNext(s);
    SystemCommands.EditsClose(s.b.edits, s.b.nextEdit, s.b.sched.Running(), s.outbox, s.Inbox());
    assert s.b.edits[e] == (p, name);
    var left := s.b.(edits := s.b.edits - {e});
    ExitNext(left, p, 0);
    assert News(s.b, Exit(left, p, 0).value) == News(left, Exit(left, p, 0).value);
  }
}
