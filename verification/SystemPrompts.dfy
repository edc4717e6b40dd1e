// What is settled about the commands that were sent: what the system answered when they were
// started, and, when the frontend waits for nothing, the working directory.

module SystemPrompts {
  import opened Protocol
  import opened Scheduling
  import opened ClientSide
  import opened Requests
  import opened System
  import opened SystemCommands
  import opened SystemStreams
  import Pipes
  import Utf8

  // --- From requests to processes ---

  lemma KnownAsSent(taken: seq<Request>, sched: Sched, r: Request)
    requires Placed(taken, sched) && r in taken && r.BeginCommand?
    ensures r.pid in sched.jobs && sched.jobs[r.pid] == Job(r.cmd, r.blockFor)
  {
  }

  lemma PidOf(reqs: seq<Request>, r: Request)
    requires r in reqs && r.BeginCommand?
    ensures r.pid in Pids(reqs)
  {
  }

  /** A process that the backend knows is the command that was sent under its id. */
  lemma AsSent(s: System, r: Request)
    requires Invariant(s) && r in s.c.sent && r.BeginCommand? && r.pid in s.b.sched.jobs
    ensures s.taken <= |s.c.sent| && r in s.c.sent[..s.taken]
    ensures s.b.sched.jobs[r.pid] == Job(r.cmd, r.blockFor)
  {
    hide Edits, Exits, Linked, Streams, Output, Began, Genuine, Equipped, Logged, Results, Gathers, Directory,
         Greeting, Pids, Schedule.WellFormed, Linear, Dependable, Unconditional, OneResultEach;
    InboxPids(s.c.sent, s.taken, s.c.nextId);
    if r !in s.c.sent[..s.taken] {
      assert s.c.sent == s.c.sent[..s.taken] + s.c.sent[s.taken..];
      PidOf(s.c.sent[s.taken..], r);
    }
    KnownAsSent(s.c.sent[..s.taken], s.b.sched, r);
  }

  /** The process was started. */
  ghost predicate Begun(s: System, p: Pid) {
    p in s.b.sched.jobs && (p in s.b.sched.started || p in s.b.sched.done)
  }

  /** What is known of a command that was sent, once it has started. */
  lemma StartedAsSent(s: System, r: Request)
    requires Invariant(s) && r in s.c.sent && r.BeginCommand? && Begun(s, r.pid)
    ensures r.pid in s.answers
    ensures Answered(r.cmd, r.pid in s.b.sched.started, s.answers[r.pid], s.past, s.b.written)
  {
    hide Commands, Edits, Exits, Linked, Streams, Output, Placed, Genuine, Equipped, Logged, Results, Gathers,
         Directory, Greeting, Answered;
    AsSent(s, r);
  }

  /** What the backend has written, as output and as errors, for a command that was not left running. */
  lemma BuiltInWrote(s: System, r: Request)
    requires Invariant(s) && r in s.c.sent && r.BeginCommand? && Begun(s, r.pid) && !r.cmd.cmd.Unknown?
    requires r.cmd.cmd.Edit? ==> r.pid !in s.b.sched.started
    ensures r.pid in s.answers && r.cmd.pipes.stdout in s.b.written && r.cmd.pipes.stderr in s.b.written
    ensures var ((ok, text), out, err) :=
              (s.answers[r.pid], s.b.written[r.cmd.pipes.stdout], s.b.written[r.cmd.pipes.stderr]);
            match r.cmd.cmd
            case SetDirectory(_) => out == (if ok then "Success: ()" else "Error: " + text) && err == ""
            case GetDirectory => if ok then out == text + "\n" && err == "" else out == "" && err == "Error: " + text
            case _ => !ok && out == "" && err == text
  {
    hide Invariant;
    StartedAsSent(s, r);
  }

  lemma InboxExists(s: System)
    requires Invariant(s)
    ensures s.taken <= |s.c.sent|
  {
  }

  // --- When nothing is waited for ---

  /** Every process that was sent is done when the frontend waits for no result. */
  lemma AllFinished(s: System)
    requires Commands(s.c, s.taken, s.b.sched, s.outbox) && s.c.waitingFor == {}
    ensures Pids(s.c.sent) <= s.b.sched.done.Keys <= s.b.sched.jobs.Keys && s.b.sched.Running() == map[]
  {
    hide Sane, Pids, OneResultEach, Unconditional;
    DoneArePids(s.c, s.taken, s.b.sched, s.outbox);
    NothingLeft(Pids(s.c.sent), s.b.sched.done.Keys - Announced(s.outbox));
    StartedAreJobs(s.b.sched);
  }

  lemma StartedAreJobs(sched: Sched)
    requires sched.WellFormed()
    ensures forall p :: p in sched.Running() ==> p in sched.jobs && p !in sched.done
  {
  }

  lemma SentIsBegun(s: System, r: Request)
    requires Invariant(s) && s.c.waitingFor == {} && r in s.c.sent && r.BeginCommand?
    ensures Begun(s, r.pid) && r.pid in s.b.sched.done
  {
    hide Commands, Edits, Exits, Linked, Streams, Output, Placed, Began, Genuine, Equipped, Logged, Results, Gathers,
         Directory, Greeting, Pids;
    AllFinished(s);
    PidOf(s.c.sent, r);
  }

  /** `q` asked for the working directory, which is gathered from the pipe `id`. */
  ghost predicate AsksFor(s: System, q: Request, id: PipeId) {
    && q in s.c.sent && q.BeginCommand? && q.cmd.cmd == GetDirectory && q.cmd.pipes.stdout == id
    && q.pid in s.answers && Utf8.WellFormed(s.answers[q.pid].1)
  }

  /** The backend has written the answer to the question: the directory's name and the end of a line, or
      nothing if the system could not tell. */
  lemma DirectoryAnswered(s: System, id: PipeId) returns (q: Request)
    requires Invariant(s) && s.c.waitingFor == {}
    requires id in s.c.gathering || (ROOT in s.c.cwdFor && s.c.cwdFor[ROOT] == id)
    ensures AsksFor(s, q, id) && Pipes.WriteEnd(id) in s.past
    ensures id in s.b.written
    ensures s.b.written[id] == if s.answers[q.pid].0 then s.answers[q.pid].1 + [NEWLINE] else []
  {
    hide Commands, Edits, Exits, Linked, Streams, Output, Placed, Began, Equipped, Logged, Results, Directory, Greeting;
    q :| q in s.c.sent && q.BeginCommand? && q.cmd.cmd == GetDirectory && q.cmd.pipes.stdout == id;
    SentIsBegun(s, q);
    StartedAsSent(s, q);
  }

  /** What was gathered in full is what the backend wrote. */
  lemma GatheredIsWritten(s: System, id: PipeId)
    requires Invariant(s) && id in s.c.finished && id in s.b.written
    ensures s.c.finished[id] == s.b.written[id] == BytesOf(s.produced, id) && id in s.ended
  {
    hide Commands, Edits, Exits, Linked, Streams, Output, Placed, Began, Equipped, Logged, Results, Gathers,
         Directory, Greeting, Only, Under;
    InboxExists(s);
    StreamsHere(s.c, s.Inbox(), FeedOf(s), id);
    assert DataOf([]) == [];
  }

  // The frontend after it has taken in the working directory.
  ghost predicate Settled(c: Client, d: Client) {
    && d == c.(cwdFor := d.cwdFor, finished := d.finished, workingDir := d.workingDir)
    && d.cwdFor == map[] && d.finished.Keys <= c.finished.Keys
    && forall id :: id in d.finished ==> d.finished[id] == c.finished[id]
  }

  /** At a prompt the gathered working directory is there in full and is text, so that it can be taken
      in, and the new one is the one that the system answered. */
  lemma DirectorySettles(s: System) returns (q: Request)
    requires Invariant(s) && Prompting(s.c)
    ensures s.c.gathering == map[]
    ensures Settle(s.c).Returned? && Settled(s.c, Settle(s.c).value)
    ensures ROOT !in s.c.cwdFor ==> Settle(s.c).value == s.c
    ensures ROOT in s.c.cwdFor ==>
              var id := s.c.cwdFor[ROOT];
              && AsksFor(s, q, id)
              && var (ok, text) := s.answers[q.pid];
                 && Settle(s.c).value.workingDir == (if ok then text else s.c.workingDir)
                 && id in s.c.finished && s.c.finished[id] == (if ok then text + [NEWLINE] else [])
                 && s.c.finished[id] == BytesOf(s.produced, id) && id in s.ended
  {
    hide Commands, Edits, Exits, Linked, Streams, Output, Placed, Began, Genuine, Equipped, Logged, Results, Gathers,
         Greeting, Utf8.WellFormed;
    assert s.c.gathering.Keys == {};
    if ROOT in s.c.cwdFor {
      var id := s.c.cwdFor[ROOT];
      q := DirectoryAnswered(s, id);
      GatheredIsWritten(s, id);
      var (ok, text) := s.answers[q.pid];
      if ok { assert (text + [NEWLINE])[..|text|] == text; }
    } else {
      q := StartRead(0);
      assert s.c.cwdFor.Keys == {};
    }
  }
}
