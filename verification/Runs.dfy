// Whole runs of the scheduler: any sequence of calls on a fresh machine that does
// not panic.

module Runs {
  import opened Protocol
  import opened Scheduling
  import opened ScheduleLemmas

  datatype Call<Cmd, State> =
    | Enqueue(pid: Pid, cmd: Cmd, blockFor: map<Pid, Condition>)
    | Start(pid: Pid, state: State)
    | StartCompleted(pid: Pid, status: ExitStatus)
    | Completed(pid: Pid, status: ExitStatus)

  /** The calls `Scheduler.Machine` answers without a panic. */
  ghost predicate Accepts<Cmd, State>(s: Schedule<Cmd, State>, c: Call<Cmd, State>) {
    match c
    case Enqueue(p, _, blockFor) => p !in s.jobs && blockFor.Keys <= s.jobs.Keys
    case Start(p, _) => p in s.Runnable()
    case StartCompleted(p, status) => p in s.Runnable() && !s.Contradicts(p, status)
    case Completed(p, status) => p in s.Running() && !s.Contradicts(p, status)
  }

  ghost function After<Cmd, State>(s: Schedule<Cmd, State>, c: Call<Cmd, State>): Schedule<Cmd, State> {
    match c
    case Enqueue(p, cmd, blockFor) => if Mismatched(s.done, blockFor) then s else s.Add(p, Job(cmd, blockFor))
    case Start(p, state) => s.Begin(p, state)
    case StartCompleted(p, status) => s.Finish(p, status)
    case Completed(p, status) => s.Finish(p, status)
  }

  ghost function Answer<Cmd, State>(s: Schedule<Cmd, State>, c: Call<Cmd, State>): seq<Task<Cmd>> {
    match c
    case Enqueue(p, cmd, blockFor) =>
      if Mismatched(s.done, blockFor) then [ConditionFailed(p, cmd)]
      else if After(s, c).Blocked(p) then []
      else [Task.Start(p, cmd)]
    case Start(_, _) => []
    case StartCompleted(p, _) => s.Released(p)
    case Completed(p, _) => s.Released(p)
  }

  ghost function Replay<Cmd, State>(calls: seq<Call<Cmd, State>>): Schedule<Cmd, State> {
    if calls == [] then EmptySchedule() else After(Replay(calls[..|calls| - 1]), calls[|calls| - 1])
  }

  ghost function AllAnswers<Cmd, State>(calls: seq<Call<Cmd, State>>): seq<Task<Cmd>> {
    if calls == [] then []
    else AllAnswers(calls[..|calls| - 1]) + Answer(Replay(calls[..|calls| - 1]), calls[|calls| - 1])
  }

  ghost predicate Accepted<Cmd, State>(calls: seq<Call<Cmd, State>>) {
    calls == [] ||
    (Accepted(calls[..|calls| - 1]) && Accepts(Replay(calls[..|calls| - 1]), calls[|calls| - 1]))
  }

  ghost predicate StartedOnce<Cmd>(tasks: seq<Task<Cmd>>) {
    forall i, j :: 0 <= i < j < |tasks| && tasks[i].Start? && tasks[j].Start? ==> tasks[i].pid != tasks[j].pid
  }

  ghost predicate AllHandedOut<Cmd, State>(s: Schedule<Cmd, State>, tasks: seq<Task<Cmd>>) {
    && StartedOnce(tasks)
    && (forall t :: t in tasks && t.Start? ==> t.pid in s.jobs && t.cmd == s.jobs[t.pid].cmd)
    && (forall p :: p in s.jobs ==> (Cleared(s.jobs, s.done, p) <==> Task.Start(p, s.jobs[p].cmd) in tasks))
  }

  /** In every run each process is handed out at most once, with its own command,
      and it has been handed out exactly when all its dependencies finished as
      it required. */
  lemma {:induction false} HandedOut<Cmd, State>(calls: seq<Call<Cmd, State>>)
    requires Accepted(calls)
    ensures Replay(calls).WellFormed() && AllHandedOut(Replay(calls), AllAnswers(calls))
  {
    if calls != [] {
      var before, c := calls[..|calls| - 1], calls[|calls| - 1];
      HandedOut(before);
      AfterWellFormed(Replay(before), c);
      AnswerExact(Replay(before), c);
      HandedOutStep(Replay(before), AllAnswers(before), Replay(calls), Answer(Replay(before), c));
    }
  }

  lemma AfterWellFormed<Cmd, State>(s: Schedule<Cmd, State>, c: Call<Cmd, State>)
    requires s.WellFormed() && Accepts(s, c)
    ensures After(s, c).WellFormed()
  {
    match c {
      case Enqueue(p, cmd, blockFor) => if !Mismatched(s.done, blockFor) { AddWellFormed(s, p, Job(cmd, blockFor)); }
      case Start(p, state) => BeginWellFormed(s, p, state);
      case StartCompleted(p, status) => FinishWellFormed(s, p, status);
      case Completed(p, status) => FinishWellFormed(s, p, status);
    }
  }

  lemma ClearedIffUnblocked<Cmd, State>(s: Schedule<Cmd, State>, p: Pid)
    requires s.WellFormed() && p in s.jobs
    ensures Cleared(s.jobs, s.done, p) <==> !s.Blocked(p)
  {
    hide Schedule.Ordered;
  }

  /** `Starts` lists, once each, waiters for which `p` was the last dependency. */
  lemma {:induction false} StartsSound<Cmd, State>(s: Schedule<Cmd, State>, ds: seq<(Condition, Pid)>, p: Pid)
    requires OncePerWaiter(ds)
    ensures StartedOnce(s.Starts(ds, p))
    ensures forall t :: t in s.Starts(ds, p) ==>
              t.Start? && t.pid in Waiters(ds) && t.pid in s.jobs
              && s.Unfinished(t.pid).Keys == {p} && t.cmd == s.jobs[t.pid].cmd
  {
    if ds != [] {
      NextWaiter(ds, |ds| - 1);
      assert ds[..|ds|] == ds;
      StartsSound(s, ds[..|ds| - 1], p);
      var tasks := s.Starts(ds[..|ds| - 1], p);
      forall i | 0 <= i < |tasks| ensures tasks[i].pid != ds[|ds| - 1].1 {
        assert tasks[i] in tasks;
      }
    }
  }

  /** `Starts` lists all of them. */
  lemma {:induction false} StartsComplete<Cmd, State>(s: Schedule<Cmd, State>, ds: seq<(Condition, Pid)>, p: Pid,
                                                      w: Pid)
    requires w in Waiters(ds) && w in s.jobs && s.Unfinished(w).Keys == {p}
    ensures Task.Start(w, s.jobs[w].cmd) in s.Starts(ds, p)
  {
    if w != ds[|ds| - 1].1 {
      assert ds == ds[..|ds| - 1] + [ds[|ds| - 1]];
      StartsComplete(s, ds[..|ds| - 1], p, w);
    }
  }

  /** Going from `s` to `t`, `tasks` hands out exactly the jobs that become cleared. */
  ghost predicate HandsOut<Cmd, State>(s: Schedule<Cmd, State>, t: Schedule<Cmd, State>, tasks: seq<Task<Cmd>>) {
    && StartedOnce(tasks)
    && (forall p :: p in s.jobs ==> p in t.jobs && t.jobs[p] == s.jobs[p])
    && (forall p :: p in s.jobs && Cleared(s.jobs, s.done, p) ==> Cleared(t.jobs, t.done, p))
    && (forall k :: k in tasks && k.Start? ==>
          && k.pid in t.jobs && k.cmd == t.jobs[k.pid].cmd && Cleared(t.jobs, t.done, k.pid)
          && !(k.pid in s.jobs && Cleared(s.jobs, s.done, k.pid)))
    && (forall p :: p in t.jobs && Cleared(t.jobs, t.done, p) && !(p in s.jobs && Cleared(s.jobs, s.done, p)) ==>
          Task.Start(p, t.jobs[p].cmd) in tasks)
  }

  lemma AnswerExact<Cmd, State>(s: Schedule<Cmd, State>, c: Call<Cmd, State>)
    requires s.WellFormed() && Accepts(s, c)
    ensures HandsOut(s, After(s, c), Answer(s, c))
  {
    match c {
      case Enqueue(p, cmd, blockFor) => AnswerEnqueue(s, p, cmd, blockFor);
      case Start(p, state) =>
      case StartCompleted(p, status) => AnswerFinish(s, p, status);
      case Completed(p, status) => AnswerFinish(s, p, status);
    }
  }

  lemma AnswerEnqueue<Cmd, State>(s: Schedule<Cmd, State>, p: Pid, cmd: Cmd, blockFor: map<Pid, Condition>)
    requires s.WellFormed() && Accepts(s, Enqueue(p, cmd, blockFor))
    ensures HandsOut(s, After(s, Enqueue(p, cmd, blockFor)), Answer(s, Enqueue(p, cmd, blockFor)))
  {
    hide Schedule.WellFormed, Schedule.Blocked;
    if !Mismatched(s.done, blockFor) {
      var t := s.Add(p, Job(cmd, blockFor));
      AddWellFormed(s, p, Job(cmd, blockFor));
      ClearedIffUnblocked(t, p);
      assert forall q :: q in s.jobs ==> Cleared(s.jobs, s.done, q) == Cleared(t.jobs, t.done, q);
    }
  }

  lemma AnswerFinish<Cmd, State>(s: Schedule<Cmd, State>, p: Pid, status: ExitStatus)
    requires s.WellFormed() && p in s.jobs && p !in s.done && !s.Blocked(p) && !s.Contradicts(p, status)
    ensures HandsOut(s, s.Finish(p, status), s.Released(p))
  {
    hide Schedule.WellFormed, Dependents, Waiters, Schedule.Unfinished, Schedule.Starts;
    var t := s.Finish(p, status);
    var ds := Dependents(s.order, s.jobs, p);
    FinishWellFormed(s, p, status);
    BlockedOnce(s, p);
    StartsSound(s, ds, p);
    forall w | w in s.jobs
      ensures Cleared(s.jobs, s.done, w) ==> Cleared(t.jobs, t.done, w)
      ensures Task.Start(w, s.jobs[w].cmd) in s.Released(p)
         <==> Cleared(t.jobs, t.done, w) && !Cleared(s.jobs, s.done, w)
    {
      FinishClears(s, p, status, w);
      if s.Unfinished(w).Keys == {p} {
        StartsComplete(s, ds, p, w);
      }
    }
  }

  lemma FinishClears<Cmd, State>(s: Schedule<Cmd, State>, p: Pid, status: ExitStatus, w: Pid)
    requires s.WellFormed() && p in s.jobs && p !in s.done && !s.Blocked(p) && !s.Contradicts(p, status)
    requires w in s.jobs
    ensures Cleared(s.jobs, s.done, w) ==> Cleared(s.jobs, s.done[p := status], w)
    ensures s.Unfinished(w).Keys == {p} <==> Cleared(s.jobs, s.done[p := status], w) && !Cleared(s.jobs, s.done, w)
    ensures s.Unfinished(w).Keys == {p} ==> w in Waiters(Dependents(s.order, s.jobs, p))
  {
    hide Dependents;
    FinishWellFormed(s, p, status);
    FinishAt(s, p, status, w);
    ClearedIffUnblocked(s, w);
    ClearedIffUnblocked(s.Finish(p, status), w);
  }

  lemma HandedOutStep<Cmd, State>(s: Schedule<Cmd, State>, issued: seq<Task<Cmd>>,
                                  t: Schedule<Cmd, State>, tasks: seq<Task<Cmd>>)
    requires AllHandedOut(s, issued) && HandsOut(s, t, tasks)
    ensures AllHandedOut(t, issued + tasks)
  {
    hide Cleared;
    var all := issued + tasks;
    forall i, j | 0 <= i < j < |all| && all[i].Start? && all[j].Start? ensures all[i].pid != all[j].pid {
      if i < |issued| <= j {
        assert all[i] in issued && all[j] in tasks;
      }
    }
    forall p | p in t.jobs ensures Cleared(t.jobs, t.done, p) <==> Task.Start(p, t.jobs[p].cmd) in all {}
  }
}
