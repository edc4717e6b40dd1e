// The specification of the dependency scheduler: which jobs were enqueued, which
// have started and which have finished.  Everything the incremental `Machine`
// stores is recomputed here from the original dependency maps.

module Scheduling {
  import opened Protocol

  datatype Job<Cmd> = Job(cmd: Cmd, blockFor: map<Pid, Condition>)

  datatype Waiting<Cmd> = Waiting(cmd: Cmd, conditions: map<Pid, Condition>)

  datatype Task<Cmd> =
    | Start(pid: Pid, cmd: Cmd)
    | ConditionFailed(pid: Pid, cmd: Cmd)

  /** The jobs of `ws` that depend on `p`, in order, with their condition on it. */
  ghost function Dependents<Cmd>(ws: seq<Pid>, jobs: map<Pid, Job<Cmd>>, p: Pid): seq<(Condition, Pid)> {
    if ws == [] then []
    else
      var w := ws[|ws| - 1];
      Dependents(ws[..|ws| - 1], jobs, p)
      + if w in jobs && p in jobs[w].blockFor then [(jobs[w].blockFor[p], w)] else []
  }

  /** Every pid of `ws` is a job, is listed once, and only depends on earlier ones. */
  ghost predicate InOrder<Cmd>(ws: seq<Pid>, jobs: map<Pid, Job<Cmd>>) {
    ws != [] ==>
      var w, rest := ws[|ws| - 1], ws[..|ws| - 1];
      && w !in rest
      && w in jobs
      && (forall d :: d in jobs[w].blockFor ==> d in rest)
      && InOrder(rest, jobs)
  }

  datatype Schedule<Cmd, State> = Schedule(
    order: seq<Pid>,                // enqueue order
    jobs: map<Pid, Job<Cmd>>,       // what was enqueued, never changed
    started: map<Pid, State>,       // jobs that were left running
    done: map<Pid, ExitStatus>)
  {
    /** The dependencies of `p` that have not finished. */
    ghost function Unfinished(p: Pid): map<Pid, Condition>
      requires p in jobs
    {
      map d | d in jobs[p].blockFor && d !in done :: jobs[p].blockFor[d]
    }

    ghost predicate Blocked(p: Pid)
      requires p in jobs
    {
      exists d :: d in jobs[p].blockFor && d !in done
    }

    ghost function Runnable(): set<Pid> {
      set p | p in jobs && p !in done && p !in started && !Blocked(p)
    }

    ghost function Running(): map<Pid, State> {
      map p | p in started && p !in done :: started[p]
    }

    ghost function WaitingTable(): map<Pid, Waiting<Cmd>> {
      map p | p in jobs && p !in done && Blocked(p) :: Waiting(jobs[p].cmd, Unfinished(p))
    }

    /** For each unfinished job, who is waiting for it, in enqueue order. */
    ghost function Index(): map<Pid, seq<(Condition, Pid)>> {
      map p | p in jobs && p !in done && Dependents(order, jobs, p) != [] :: Dependents(order, jobs, p)
    }

    /** `order` lists every job once, after everything it depends on. */
    ghost predicate Ordered() {
      InOrder(order, jobs) && forall p :: p in jobs ==> p in order
    }

    /** No job went ahead of its dependencies, and no finished dependency
        contradicts a recorded condition. */
    ghost predicate Lawful() {
      && (forall p :: p in started ==> p in jobs && !Blocked(p))
      && (forall p :: p in done ==> p in jobs && !Blocked(p))
      && (forall p, d :: p in jobs && d in jobs[p].blockFor && d in done ==> Met(jobs[p].blockFor[d], done[d]))
    }

    ghost predicate WellFormed() {
      Ordered() && Lawful()
    }

    /** Some job expects another exit status of `p`. */
    ghost predicate Contradicts(p: Pid, status: ExitStatus) {
      exists w :: w in jobs && p in jobs[w].blockFor && !Met(jobs[w].blockFor[p], status)
    }

    function Add(p: Pid, job: Job<Cmd>): Schedule<Cmd, State> {
      this.(order := order + [p], jobs := jobs[p := job])
    }

    function Begin(p: Pid, state: State): Schedule<Cmd, State> {
      this.(started := started[p := state])
    }

    function Finish(p: Pid, status: ExitStatus): Schedule<Cmd, State> {
      this.(done := done[p := status])
    }

    /** `Start` tasks for those of `ws` whose only unfinished dependency is `p`. */
    ghost function Starts(ws: seq<(Condition, Pid)>, p: Pid): seq<Task<Cmd>> {
      if ws == [] then []
      else
        var w := ws[|ws| - 1].1;
        Starts(ws[..|ws| - 1], p)
        + if w in jobs && Unfinished(w).Keys == {p} then [Start(w, jobs[w].cmd)] else []
    }

    /** The tasks that finishing `p` hands out. */
    ghost function Released(p: Pid): seq<Task<Cmd>> {
      Starts(Dependents(order, jobs, p), p)
    }
  }

  /** The fields of the incremental machine. */
  datatype Tables<Cmd, State> = Tables(
    finished: map<Pid, ExitStatus>,
    toRun: set<Pid>,
    running: map<Pid, State>,
    waitingOn: map<Pid, Waiting<Cmd>>,
    checkOnCompleted: map<Pid, seq<(Condition, Pid)>>)

  /** Both indices and the four groups of processes are what the schedule
      recomputes from the original dependency maps. */
  ghost predicate Represents<Cmd, State>(t: Tables<Cmd, State>, s: Schedule<Cmd, State>) {
    && s.WellFormed()
    && t.finished == s.done
    && t.toRun == s.Runnable()
    && t.running == s.Running()
    && t.waitingOn == s.WaitingTable()
    && t.checkOnCompleted == s.Index()
  }

  /** Some finished dependency has another status than `blockFor` expects. */
  ghost predicate Mismatched(done: map<Pid, ExitStatus>, blockFor: map<Pid, Condition>) {
    exists d :: d in blockFor && d in done && !Met(blockFor[d], done[d])
  }

  /** All dependencies of `p` have finished with the status `p` asked for. */
  ghost predicate Cleared<Cmd>(jobs: map<Pid, Job<Cmd>>, done: map<Pid, ExitStatus>, p: Pid)
    requires p in jobs
  {
    forall d :: d in jobs[p].blockFor ==> d in done && Met(jobs[p].blockFor[d], done[d])
  }

  function EmptySchedule<Cmd, State>(): Schedule<Cmd, State> {
    Schedule([], map[], map[], map[])
  }
}
