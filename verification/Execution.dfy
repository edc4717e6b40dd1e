// The calls of `Runs` are those of the machine: one call on a machine does to it what the
// run says.

module Execution {
  import opened Protocol
  import opened Scheduling
  import opened Scheduler
  import opened Runs

  /** The dependencies of a new process are known; of an unknown and a mismatching one, the
      visiting order decides which is noticed. */
  ghost predicate DependsOnKnown<Cmd, State>(s: Schedule<Cmd, State>, c: Call<Cmd, State>) {
    c.Enqueue? ==> c.blockFor.Keys <= s.jobs.Keys
  }

  /** Makes the call `c`: it panics exactly when runs do not accept it. */
  method Execute<Cmd, State>(m: Machine<Cmd, State>, c: Call<Cmd, State>) returns (out: Outcome<seq<Task<Cmd>>>)
    requires m.Valid()
    modifies m
    ensures DependsOnKnown(old(m.model), c) ==> (out.Panicked? <==> !Accepts(old(m.model), c))
    ensures out.Returned? && DependsOnKnown(old(m.model), c) ==>
              && m.Valid() && m.model == After(old(m.model), c) && out.value == Answer(old(m.model), c)
  {
    hide Represents, Mismatched, Schedule.Runnable, Schedule.Contradicts, Schedule.Blocked, Schedule.Released;
    match c {
      case Enqueue(p, cmd, blockFor) => out := m.Enqueue(p, cmd, blockFor);
      case Start(p, state) =>
        var started := m.Start(p, state);
        out := if started.Panicked? then Panicked else Returned([]);
      case StartCompleted(p, status) => out := m.StartCompleted(p, status);
      case Completed(p, status) =>
        RunningIsRunning(m);
        out := m.Completed(p, status);
    }
  }

  lemma RunningIsRunning<Cmd, State>(m: Machine<Cmd, State>)
    requires m.Valid()
    ensures m.running == m.model.Running()
  {
  }
}
