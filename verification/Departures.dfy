// Inputs on which the code, as it is written, does not do what it is for.

module Departures {
  import opened Protocol
  import opened Scheduling
  import opened Runs

  /** A process finishes while another waits for it.  If it was expected to finish otherwise, the waiter is
      treated as if it had been running, and the scheduler panics; in every other case it is started. */
  lemma MismatchPanics<Cmd, State>(cmd: Cmd, state: State, condition: Condition, status: ExitStatus)
    ensures var calls := [Enqueue(0, cmd, map[]), Call.Start(0, state), Enqueue(1, cmd, map[0 := condition])];
            && Accepted(calls)
            && (Accepts(Replay(calls), Completed(0, status)) <==> condition == None || condition == Some(status))
  {
    var first: Call<Cmd, State> := Enqueue(0, cmd, map[]);
    var second: Call<Cmd, State> := Call.Start(0, state);
    var third: Call<Cmd, State> := Enqueue(1, cmd, map[0 := condition]);
    var calls := [first, second, third];
    assert calls[..2] == [first, second];
    StartedZero(cmd, state);
    var s2 := Replay([first, second]);
    var s3 := s2.Add(1, Job(cmd, map[0 := condition]));
    assert !Mismatched(s2.done, map[0 := condition]);
    assert Replay(calls) == s3;
    assert 0 in s2.jobs && Accepts(s2, third);
    assert Accepted(calls);
    assert 0 in s3.Running();
    assert s3.jobs[1].blockFor == map[0 := condition] && s3.jobs[0].blockFor == map[];
    assert s3.Contradicts(0, status) <==> !Met(condition, status);
  }

  lemma StartedZero<Cmd, State>(cmd: Cmd, state: State)
    ensures var calls := [Enqueue(0, cmd, map[]), Call.Start(0, state)];
            && Accepted(calls) && Replay(calls) == EmptySchedule().Add(0, Job(cmd, map[])).Begin(0, state)
            && 0 in Replay(calls).Running()
  {
    var first: Call<Cmd, State> := Enqueue(0, cmd, map[]);
    var second: Call<Cmd, State> := Call.Start(0, state);
    assert [first, second][..1] == [first] && [first][..0] == [];
    var s0: Schedule<Cmd, State> := EmptySchedule();
    var s1 := s0.Add(0, Job(cmd, map[]));
    assert !Mismatched(s0.done, map[]);
    assert Replay([first]) == s1;
    assert 0 in s1.Runnable();
    assert Accepts(s0, first) && Accepted([first][..0]);
    assert Accepted([first]);
    assert Accepts(s1, second);
  }

  /** Waiting for a process that has already finished: the new process is refused exactly when it expects
      the other status, and handed out at once otherwise. */
  lemma LateWaiter<Cmd, State>(cmd: Cmd, state: State, condition: Condition, status: ExitStatus)
    ensures var calls := [Enqueue(0, cmd, map[]), Call.Start(0, state), Completed(0, status)];
            && Accepted(calls) && Replay(calls).done == map[0 := status]
            && Accepts(Replay(calls), Enqueue(1, cmd, map[0 := condition]))
            && Answer(Replay(calls), Enqueue(1, cmd, map[0 := condition]))
               == if condition == None || condition == Some(status) then [Task.Start(1, cmd)]
                  else [ConditionFailed(1, cmd)]
  {
    var first: Call<Cmd, State> := Enqueue(0, cmd, map[]);
    var second: Call<Cmd, State> := Call.Start(0, state);
    var third: Call<Cmd, State> := Completed(0, status);
    var calls := [first, second, third];
    assert calls[..2] == [first, second];
    StartedZero(cmd, state);
    var s2 := Replay([first, second]);
    assert s2.jobs == map[0 := Job(cmd, map[])] && s2.done == map[];
    assert !s2.Contradicts(0, status);
    assert Accepts(s2, third) && Accepted(calls);
    var s3 := Replay(calls);
    assert s3 == s2.Finish(0, status);
    assert Mismatched(s3.done, map[0 := condition]) <==> !Met(condition, status);
    var last: Call<Cmd, State> := Enqueue(1, cmd, map[0 := condition]);
    if Met(condition, status) { assert !After(s3, last).Blocked(1); }
  }

  /** A process that is refused because a dependency has finished otherwise is not remembered:
      another process can depend on it afterwards exactly when it was not refused. */
  lemma RefusedIsUnknown<Cmd, State>(s: Schedule<Cmd, State>, p: Pid, cmd: Cmd, blockFor: map<Pid, Condition>, q: Pid,
                                     next: Cmd)
    requires s.WellFormed() && Accepts(s, Enqueue(p, cmd, blockFor)) && q !in s.jobs && q != p
    ensures var after := After(s, Enqueue(p, cmd, blockFor));
            Accepts(after, Enqueue(q, next, map[p := None])) <==> !Mismatched(s.done, blockFor)
  {
    var after: map<Pid, Condition> := map[p := None];
    assert p in after.Keys && after.Keys == {p};
  }
}
