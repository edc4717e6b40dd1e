// The failure cascade the scheduler is meant to perform: when a process finishes
// with a status that a waiter rejects, the waiter fails too, and so on down the
// dependency graph.  Used by `IntendedScheduler`, not by the code as it is written.

module Cascade {
  import opened Protocol
  import opened Scheduling
  import opened ScheduleLemmas

  /** Some finished dependency of `w` has a status that `w` rejects. */
  ghost predicate Doomed<Cmd>(jobs: map<Pid, Job<Cmd>>, done: map<Pid, ExitStatus>, w: Pid) {
    w in jobs && Mismatched(done, jobs[w].blockFor)
  }

  /** Reference definition of the cascade: one pass down the enqueue order, failing
      every unfinished job that is doomed by what finished before it. */
  ghost function Settle<Cmd>(ws: seq<Pid>, jobs: map<Pid, Job<Cmd>>, done: map<Pid, ExitStatus>): map<Pid, ExitStatus> {
    if ws == [] then done
    else
      var w, earlier := ws[|ws| - 1], Settle(ws[..|ws| - 1], jobs, done);
      if w !in earlier && Doomed(jobs, earlier, w) then earlier[w := Failure] else earlier
  }

  /** `after` extends `before` only by failures of doomed jobs, and leaves no doomed job unfinished. */
  ghost predicate Settles<Cmd>(jobs: map<Pid, Job<Cmd>>, before: map<Pid, ExitStatus>, after: map<Pid, ExitStatus>) {
    && (forall w :: w in before ==> w in after && after[w] == before[w])
    && (forall w :: w in after && w !in before ==> after[w] == Failure && Doomed(jobs, after, w))
    && (forall w :: w in jobs && w !in after ==> !Doomed(jobs, after, w))
    && after.Keys <= jobs.Keys
  }

  ghost predicate AgreeOn(ws: seq<Pid>, a: map<Pid, ExitStatus>, b: map<Pid, ExitStatus>) {
    forall w :: w in ws ==> (w in a <==> w in b) && (w in a ==> a[w] == b[w])
  }

  /** However the cascade is carried out, it ends with the statuses of the reference pass. */
  lemma {:induction false} SettledOnce<Cmd>(ws: seq<Pid>, jobs: map<Pid, Job<Cmd>>,
                                            before: map<Pid, ExitStatus>, after: map<Pid, ExitStatus>)
    requires InOrder(ws, jobs) && Settles(jobs, before, after)
    ensures AgreeOn(ws, Settle(ws, jobs, before), after)
    ensures forall w :: w !in ws ==> (w in Settle(ws, jobs, before) <==> w in before)
    ensures forall w :: w in before ==> w in Settle(ws, jobs, before) && Settle(ws, jobs, before)[w] == before[w]
  {
    if ws != [] {
      var w, rest := ws[|ws| - 1], ws[..|ws| - 1];
      SettledOnce(rest, jobs, before, after);
      var earlier := Settle(rest, jobs, before);
      forall d | d in jobs[w].blockFor
        ensures (d in earlier <==> d in after) && (d in after ==> earlier[d] == after[d])
      {
        assert d in rest;
      }
      assert Doomed(jobs, earlier, w) <==> Doomed(jobs, after, w);
      assert ws == rest + [w];
    }
  }

  lemma SettlesIsSettle<Cmd, State>(s: Schedule<Cmd, State>, before: map<Pid, ExitStatus>, after: map<Pid, ExitStatus>)
    requires s.Ordered() && Settles(s.jobs, before, after)
    ensures after == Settle(s.order, s.jobs, before)
  {
    SettledOnce(s.order, s.jobs, before, after);
    OrderedAreJobs(s.order, s.jobs);
    var r := Settle(s.order, s.jobs, before);
    forall w ensures (w in r <==> w in after) && (w in r ==> r[w] == after[w]) {
      if w !in s.order { assert w in r ==> w in before; }
    }
    assert r.Keys == after.Keys;
  }

  /** `(p, w)`: `p` has finished, but its waiter `w` has not been told yet. */
  type Edge = (Pid, Pid)

  ghost function Edges(p: Pid, list: seq<(Condition, Pid)>): set<Edge> {
    set e | e in list :: (p, e.1)
  }

  ghost function ListOf(index: map<Pid, seq<(Condition, Pid)>>, p: Pid): seq<(Condition, Pid)> {
    if p in index then index[p] else []
  }

  /** What `w` still waits for when the news of `pending` is under way. */
  ghost function Left<Cmd, State>(s: Schedule<Cmd, State>, pending: set<Edge>, w: Pid): map<Pid, Condition>
    requires w in s.jobs
  {
    map d | d in s.jobs[w].blockFor && (d !in s.done || (d, w) in pending) :: s.jobs[w].blockFor[d]
  }

  /** The entries of `list` are jobs that depend on `p`, once each, with their condition on it. */
  ghost predicate Entries<Cmd>(list: seq<(Condition, Pid)>, jobs: map<Pid, Job<Cmd>>, p: Pid) {
    && OncePerWaiter(list)
    && forall e :: e in list ==> e.1 in jobs && p in jobs[e.1].blockFor && e.0 == jobs[e.1].blockFor[p]
  }

  /** `list` names every unfinished job that depends on `p`.  It may also name failed ones. */
  ghost predicate ListsWaiters<Cmd, State>(list: seq<(Condition, Pid)>, s: Schedule<Cmd, State>, p: Pid) {
    && Entries(list, s.jobs, p)
    && (forall w :: w in s.jobs && w !in s.done && p in s.jobs[w].blockFor ==> (s.jobs[w].blockFor[p], w) in list)
  }

  /** Nothing ran ahead of its dependencies, and exactly the jobs that were told of
      a rejected status have failed. */
  ghost predicate Admissible<Cmd, State>(s: Schedule<Cmd, State>, pending: set<Edge>) {
    && (forall p :: p in s.started ==> p in s.jobs && Cleared(s.jobs, s.done, p))
    && (forall p :: p in s.done ==>
          p in s.jobs && (Cleared(s.jobs, s.done, p) || (Doomed(s.jobs, s.done, p) && s.done[p] == Failure)))
    && (forall w, d :: w in s.jobs && w !in s.done && d in s.jobs[w].blockFor && d in s.done && (d, w) !in pending ==>
          Met(s.jobs[w].blockFor[d], s.done[d]))
    && (forall e :: e in pending ==> e.0 in s.done && e.1 !in s.started)
  }

  /** Where process `w` is kept while `pending` is under way. */
  ghost predicate StoredAt<Cmd, State>(t: Tables<Cmd, State>, s: Schedule<Cmd, State>, pending: set<Edge>, w: Pid) {
    && (w in t.toRun <==> w in s.jobs && w !in s.done && w !in s.started && w !in t.waitingOn)
    && (w in t.waitingOn <==> w in s.jobs && w !in s.done && |Left(s, pending, w)| != 0)
    && (w in t.waitingOn ==> t.waitingOn[w] == Waiting(s.jobs[w].cmd, Left(s, pending, w)))
  }

  ghost predicate Stored<Cmd, State>(t: Tables<Cmd, State>, s: Schedule<Cmd, State>, pending: set<Edge>) {
    && t.finished == s.done
    && t.running == s.Running()
    && forall w :: StoredAt(t, s, pending, w)
  }

  ghost predicate Indexed<Cmd, State>(index: map<Pid, seq<(Condition, Pid)>>, s: Schedule<Cmd, State>) {
    && index.Keys <= s.jobs.Keys
    && forall p :: p in s.jobs && p !in s.done ==> ListsWaiters(ListOf(index, p), s, p)
  }

  /** `t` is what the intended machine stores for `s` while `pending` is under way. */
  ghost predicate Mid<Cmd, State>(t: Tables<Cmd, State>, s: Schedule<Cmd, State>, pending: set<Edge>) {
    s.Ordered() && Admissible(s, pending) && Stored(t, s, pending) && Indexed(t.checkOnCompleted, s)
  }

  /** A waiter that has already failed need not be told anything. */
  lemma MidSkip<Cmd, State>(t: Tables<Cmd, State>, s: Schedule<Cmd, State>, pending: set<Edge>, e: Edge)
    requires Mid(t, s, pending + {e}) && e.1 in s.done
    ensures Mid(t, s, pending)
  {
    hide Schedule.Ordered, Indexed, Cleared, Doomed, Met;
    forall w ensures StoredAt(t, s, pending, w) {
      assert StoredAt(t, s, pending + {e}, w);
      assert w in s.jobs && w !in s.done ==> Left(s, pending + {e}, w) == Left(s, pending, w);
    }
  }

  /** A waiter whose condition on `p` is met stops waiting for `p`. */
  lemma MidDrop<Cmd, State>(t: Tables<Cmd, State>, s: Schedule<Cmd, State>, pending: set<Edge>, p: Pid, w: Pid)
    requires Mid(t, s, pending + {(p, w)}) && (p, w) !in pending
    requires w in s.jobs && w !in s.done && p in s.jobs[w].blockFor && p in s.done
    requires Met(s.jobs[w].blockFor[p], s.done[p])
    ensures w in t.waitingOn && p in t.waitingOn[w].conditions
         && t.waitingOn[w].cmd == s.jobs[w].cmd && t.waitingOn[w].conditions[p] == s.jobs[w].blockFor[p]
    ensures var left := t.waitingOn[w].conditions - {p};
            && (|left| == 0 ==> Mid(t.(toRun := t.toRun + {w}, waitingOn := t.waitingOn - {w}), s, pending))
            && (|left| != 0 ==> Mid(t.(waitingOn := t.waitingOn[w := Waiting(s.jobs[w].cmd, left)]), s, pending))
  {
    hide Schedule.Ordered, Indexed, Stored;
    assert Admissible(s, pending) && w !in s.started;
    StoredDrop(t, s, pending, p, w);
  }

  lemma StoredDrop<Cmd, State>(t: Tables<Cmd, State>, s: Schedule<Cmd, State>, pending: set<Edge>, p: Pid, w: Pid)
    requires Stored(t, s, pending + {(p, w)}) && (p, w) !in pending
    requires w in s.jobs && w !in s.done && w !in s.started && p in s.jobs[w].blockFor && p in s.done
    ensures w in t.waitingOn && p in t.waitingOn[w].conditions
         && t.waitingOn[w].cmd == s.jobs[w].cmd && t.waitingOn[w].conditions[p] == s.jobs[w].blockFor[p]
    ensures var left := t.waitingOn[w].conditions - {p};
            && (|left| == 0 ==> Stored(t.(toRun := t.toRun + {w}, waitingOn := t.waitingOn - {w}), s, pending))
            && (|left| != 0 ==> Stored(t.(waitingOn := t.waitingOn[w := Waiting(s.jobs[w].cmd, left)]), s, pending))
  {
    hide Left, Schedule.Running;
    LeftDrop(s, pending, p, w);
    assert StoredAt(t, s, pending + {(p, w)}, w);
    var left := t.waitingOn[w].conditions - {p};
    var u := if |left| == 0 then t.(toRun := t.toRun + {w}, waitingOn := t.waitingOn - {w})
             else t.(waitingOn := t.waitingOn[w := Waiting(s.jobs[w].cmd, left)]);
    forall x | x != w ensures StoredAt(u, s, pending, x) {
      StoredElsewhere(t, s, pending + {(p, w)}, u, pending, x);
    }
  }

  lemma StoredElsewhere<Cmd, State>(t: Tables<Cmd, State>, s: Schedule<Cmd, State>, all: set<Edge>,
                                    u: Tables<Cmd, State>, pending: set<Edge>, x: Pid)
    requires StoredAt(t, s, all, x)
    requires x in s.jobs ==> Left(s, all, x) == Left(s, pending, x)
    requires (x in u.toRun <==> x in t.toRun) && (x in u.waitingOn <==> x in t.waitingOn)
    requires x in u.waitingOn ==> u.waitingOn[x] == t.waitingOn[x]
    ensures StoredAt(u, s, pending, x)
  {
    hide Left;
  }

  lemma LeftDrop<Cmd, State>(s: Schedule<Cmd, State>, pending: set<Edge>, p: Pid, w: Pid)
    requires w in s.jobs && p in s.jobs[w].blockFor && p in s.done && (p, w) !in pending
    ensures p in Left(s, pending + {(p, w)}, w) && |Left(s, pending + {(p, w)}, w)| != 0
    ensures Left(s, pending + {(p, w)}, w)[p] == s.jobs[w].blockFor[p]
    ensures Left(s, pending + {(p, w)}, w) - {p} == Left(s, pending, w)
    ensures forall x :: x in s.jobs && x != w ==> Left(s, pending + {(p, w)}, x) == Left(s, pending, x)
  {
    assert p in Left(s, pending + {(p, w)}, w);
  }

  /** `w` finishes: all its listed waiters have to be told. */
  lemma MidFinish<Cmd, State>(t: Tables<Cmd, State>, s: Schedule<Cmd, State>, pending: set<Edge>, w: Pid,
                              status: ExitStatus)
    requires Mid(t, s, pending) && w in s.jobs && w !in s.done
    requires Cleared(s.jobs, s.done, w) || (Doomed(s.jobs, s.done, w) && status == Failure)
    ensures Mid(t.(finished := t.finished[w := status], toRun := t.toRun - {w}, running := t.running - {w},
                   waitingOn := t.waitingOn - {w}),
                s.Finish(w, status), pending + Edges(w, ListOf(t.checkOnCompleted, w)))
  {
    hide InOrder, Admissible, Stored, ListsWaiters, Cleared, Doomed;
    LegalFinish(s, pending, w, status, ListOf(t.checkOnCompleted, w));
    StoredFinish(t, s, pending, w, status);
    forall p | p in s.jobs && p !in s.Finish(w, status).done
      ensures ListsWaiters(ListOf(t.checkOnCompleted, p), s.Finish(w, status), p)
    {
      ListedFinish(ListOf(t.checkOnCompleted, p), s, p, w, status);
    }
  }

  lemma ListedFinish<Cmd, State>(list: seq<(Condition, Pid)>, s: Schedule<Cmd, State>, p: Pid, w: Pid,
                                 status: ExitStatus)
    requires ListsWaiters(list, s, p)
    ensures ListsWaiters(list, s.Finish(w, status), p)
  {
  }

  lemma LegalFinish<Cmd, State>(s: Schedule<Cmd, State>, pending: set<Edge>, w: Pid, status: ExitStatus,
                                list: seq<(Condition, Pid)>)
    requires Admissible(s, pending) && w in s.jobs && w !in s.done && ListsWaiters(list, s, w)
    requires Cleared(s.jobs, s.done, w) || (Doomed(s.jobs, s.done, w) && status == Failure)
    ensures Admissible(s.Finish(w, status), pending + Edges(w, list))
  {
    var u := s.Finish(w, status);
    forall p | p in s.jobs
      ensures Cleared(s.jobs, s.done, p) ==> Cleared(u.jobs, u.done, p)
      ensures Doomed(s.jobs, s.done, p) ==> Doomed(u.jobs, u.done, p)
    {
    }
    forall x | x in s.jobs && x !in u.done && w in s.jobs[x].blockFor ensures (w, x) in Edges(w, list) {
      assert (s.jobs[x].blockFor[w], x) in list;
    }
    forall e | e in list ensures e.1 !in s.started {
      assert w in s.jobs[e.1].blockFor;
    }
  }

  lemma StoredFinish<Cmd, State>(t: Tables<Cmd, State>, s: Schedule<Cmd, State>, pending: set<Edge>, w: Pid,
                                 status: ExitStatus)
    requires Stored(t, s, pending) && w in s.jobs && w !in s.done && ListsWaiters(ListOf(t.checkOnCompleted, w), s, w)
    ensures Stored(t.(finished := t.finished[w := status], toRun := t.toRun - {w}, running := t.running - {w},
                      waitingOn := t.waitingOn - {w}),
                   s.Finish(w, status), pending + Edges(w, ListOf(t.checkOnCompleted, w)))
  {
    hide Left, ListsWaiters, Edges, ListOf, StoredAt;
    var list := ListOf(t.checkOnCompleted, w);
    var u := t.(finished := t.finished[w := status], toRun := t.toRun - {w}, running := t.running - {w},
                waitingOn := t.waitingOn - {w});
    assert s.Finish(w, status).Running() == s.Running() - {w};
    forall x ensures StoredAt(u, s.Finish(w, status), pending + Edges(w, list), x) {
      StoredAtFinish(t, u, s, pending, w, status, list, x);
    }
  }

  lemma StoredAtFinish<Cmd, State>(t: Tables<Cmd, State>, u: Tables<Cmd, State>, s: Schedule<Cmd, State>,
                                   pending: set<Edge>, w: Pid, status: ExitStatus, list: seq<(Condition, Pid)>, x: Pid)
    requires StoredAt(t, s, pending, x) && w in s.jobs && w !in s.done && ListsWaiters(list, s, w)
    requires x in u.toRun <==> x in t.toRun && x != w
    requires x in u.waitingOn <==> x in t.waitingOn && x != w
    requires x in u.waitingOn ==> u.waitingOn[x] == t.waitingOn[x]
    ensures StoredAt(u, s.Finish(w, status), pending + Edges(w, list), x)
  {
    hide Left, ListsWaiters, Edges;
    if x in s.jobs && x !in s.done {
      LeftFinish(s, pending, w, status, list, x);
    }
  }

  lemma LeftFinish<Cmd, State>(s: Schedule<Cmd, State>, pending: set<Edge>, w: Pid, status: ExitStatus,
                               list: seq<(Condition, Pid)>, x: Pid)
    requires w !in s.done && x in s.jobs && x !in s.done && ListsWaiters(list, s, w)
    ensures Left(s.Finish(w, status), pending + Edges(w, list), x) == Left(s, pending, x)
  {
    if w in s.jobs[x].blockFor {
      assert (s.jobs[x].blockFor[w], x) in list;
      assert (w, x) in Edges(w, list);
    }
  }

  /** The tables after a job that still waits for `still` is added. */
  ghost function Enqueued<Cmd, State>(t: Tables<Cmd, State>, p: Pid, cmd: Cmd,
                                      still: map<Pid, Condition>): Tables<Cmd, State> {
    if |still| == 0 then t.(toRun := t.toRun + {p})
    else t.(waitingOn := t.waitingOn[p := Waiting(cmd, still)],
            checkOnCompleted := Pushed(t.checkOnCompleted, still, still.Keys, p))
  }

  /** A job that no finished dependency rejects is added. */
  lemma MidAdd<Cmd, State>(t: Tables<Cmd, State>, s: Schedule<Cmd, State>, p: Pid, job: Job<Cmd>)
    requires Mid(t, s, {}) && p !in s.jobs && job.blockFor.Keys <= s.jobs.Keys && !Mismatched(s.done, job.blockFor)
    ensures Mid(Enqueued(t, p, job.cmd, s.Add(p, job).Unfinished(p)), s.Add(p, job), {})
  {
    hide InOrder, Stored, Indexed, Pushed, Mismatched, Cleared, Doomed, Schedule.Unfinished;
    var still := s.Add(p, job).Unfinished(p);
    AddOrdered(s, p, job);
    AddLegal(s, p, job);
    AddStored(t, Enqueued(t, p, job.cmd, still), s, p, job);
    AddIndexed(t.checkOnCompleted, s, p, job);
    PushedNothing(t.checkOnCompleted, still, p);
  }

  /** A job that a finished dependency rejects is added as failed. */
  lemma MidReject<Cmd, State>(t: Tables<Cmd, State>, s: Schedule<Cmd, State>, p: Pid, job: Job<Cmd>)
    requires Mid(t, s, {}) && p !in s.jobs && job.blockFor.Keys <= s.jobs.Keys && Mismatched(s.done, job.blockFor)
    ensures Mid(t.(finished := t.finished[p := Failure]), s.Add(p, job).Finish(p, Failure), {})
  {
    hide InOrder, Stored, Indexed, Mismatched, Schedule.Unfinished;
    AddOrdered(s, p, job);
    RejectLegal(s, p, job);
    RejectStored(t, s, p, job);
    RejectIndexed(t.checkOnCompleted, s, p, job);
  }

  lemma DependencyKnown<Cmd, State>(s: Schedule<Cmd, State>, w: Pid, d: Pid)
    requires s.Ordered() && w in s.jobs && d in s.jobs[w].blockFor
    ensures d in s.jobs
  {
    DependenciesAreJobs(s.order, s.jobs, w, d);
  }

  lemma NewHasNoWaiters<Cmd, State>(s: Schedule<Cmd, State>, p: Pid)
    requires s.Ordered() && p !in s.jobs
    ensures forall w :: w in s.jobs ==> p !in s.jobs[w].blockFor
  {
    forall w | w in s.jobs ensures p !in s.jobs[w].blockFor {
      if p in s.jobs[w].blockFor { DependencyKnown(s, w, p); }
    }
  }

  lemma RejectLegal<Cmd, State>(s: Schedule<Cmd, State>, p: Pid, job: Job<Cmd>)
    requires Admissible(s, {}) && s.Ordered() && p !in s.jobs && Mismatched(s.done, job.blockFor)
    ensures Admissible(s.Add(p, job).Finish(p, Failure), {})
  {
    hide InOrder, Cleared, Doomed;
    var u := s.Add(p, job).Finish(p, Failure);
    NewHasNoWaiters(s, p);
    RejectDoomed(s, p, job);
    forall q ensures q in s.jobs && Cleared(s.jobs, s.done, q) ==> Cleared(u.jobs, u.done, q)
             ensures q in s.jobs && Doomed(s.jobs, s.done, q) ==> Doomed(u.jobs, u.done, q)
    {
      if q in s.jobs { RejectOther(s, p, job, q); }
    }
  }

  lemma RejectOther<Cmd, State>(s: Schedule<Cmd, State>, p: Pid, job: Job<Cmd>, q: Pid)
    requires p !in s.jobs && q in s.jobs && p !in s.jobs[q].blockFor
    ensures var u := s.Add(p, job).Finish(p, Failure);
            && (Cleared(s.jobs, s.done, q) ==> Cleared(u.jobs, u.done, q))
            && (Doomed(s.jobs, s.done, q) ==> Doomed(u.jobs, u.done, q))
  {
  }

  lemma RejectDoomed<Cmd, State>(s: Schedule<Cmd, State>, p: Pid, job: Job<Cmd>)
    requires p !in s.done && Mismatched(s.done, job.blockFor)
    ensures Doomed(s.jobs[p := job], s.done[p := Failure], p)
  {
  }

  lemma RejectStored<Cmd, State>(t: Tables<Cmd, State>, s: Schedule<Cmd, State>, p: Pid, job: Job<Cmd>)
    requires Stored(t, s, {}) && s.Ordered() && p !in s.jobs && p !in s.started
    ensures Stored(t.(finished := t.finished[p := Failure]), s.Add(p, job).Finish(p, Failure), {})
  {
    hide Left, InOrder;
    var u := s.Add(p, job).Finish(p, Failure);
    assert u.Running() == s.Running();
    var t' := t.(finished := t.finished[p := Failure]);
    forall x ensures StoredAt(t', u, {}, x) {
      assert StoredAt(t, s, {}, x);
      if x in s.jobs { LeftReject(s, p, job, x); }
    }
  }

  lemma LeftReject<Cmd, State>(s: Schedule<Cmd, State>, p: Pid, job: Job<Cmd>, x: Pid)
    requires s.Ordered() && p !in s.jobs && x in s.jobs
    ensures Left(s.Add(p, job).Finish(p, Failure), {}, x) == Left(s, {}, x)
    ensures Left(s.Add(p, job), {}, x) == Left(s, {}, x)
  {
    NewHasNoWaiters(s, p);
  }

  lemma RejectIndexed<Cmd, State>(index: map<Pid, seq<(Condition, Pid)>>, s: Schedule<Cmd, State>, p: Pid,
                                  job: Job<Cmd>)
    requires Indexed(index, s) && p !in s.jobs
    ensures Indexed(index, s.Add(p, job).Finish(p, Failure))
  {
    var u := s.Add(p, job).Finish(p, Failure);
    forall q | q in s.jobs && q !in s.done ensures ListsWaiters(ListOf(index, q), u, q) {
      assert ListsWaiters(ListOf(index, q), s, q);
    }
  }

  lemma AddLegal<Cmd, State>(s: Schedule<Cmd, State>, p: Pid, job: Job<Cmd>)
    requires Admissible(s, {}) && p !in s.jobs && !Mismatched(s.done, job.blockFor)
    ensures Admissible(s.Add(p, job), {})
  {
    var u := s.Add(p, job);
    forall q | q in s.jobs
      ensures Cleared(s.jobs, s.done, q) == Cleared(u.jobs, u.done, q)
      ensures Doomed(s.jobs, s.done, q) == Doomed(u.jobs, u.done, q)
    {
    }
  }

  lemma AddStored<Cmd, State>(t: Tables<Cmd, State>, u: Tables<Cmd, State>, s: Schedule<Cmd, State>, p: Pid,
                              job: Job<Cmd>)
    requires Stored(t, s, {}) && s.Ordered() && p !in s.jobs && p !in s.done && p !in s.started
    requires u == Enqueued(t, p, job.cmd, s.Add(p, job).Unfinished(p))
    ensures Stored(u, s.Add(p, job), {})
  {
    hide Left, InOrder, Pushed, Schedule.Unfinished;
    var v := s.Add(p, job);
    assert v.Running() == s.Running();
    LeftNew(v, p);
    assert StoredAt(t, s, {}, p);
    forall x | x != p ensures StoredAt(u, v, {}, x) {
      assert StoredAt(t, s, {}, x);
      if x in s.jobs { LeftReject(s, p, job, x); }
    }
  }

  lemma LeftNew<Cmd, State>(s: Schedule<Cmd, State>, p: Pid)
    requires p in s.jobs
    ensures Left(s, {}, p) == s.Unfinished(p)
  {
  }

  lemma AddIndexed<Cmd, State>(index: map<Pid, seq<(Condition, Pid)>>, s: Schedule<Cmd, State>, p: Pid, job: Job<Cmd>)
    requires Indexed(index, s) && s.Ordered() && p !in s.jobs && p !in s.done && job.blockFor.Keys <= s.jobs.Keys
    ensures var still := s.Add(p, job).Unfinished(p);
            Indexed(Pushed(index, still, still.Keys, p), s.Add(p, job))
  {
    var u := s.Add(p, job);
    var still := u.Unfinished(p);
    hide InOrder;
    forall q | q in u.jobs && q !in u.done
      ensures ListsWaiters(ListOf(Pushed(index, still, still.Keys, p), q), u, q)
    {
      AddListed(index, s, p, job, q);
    }
  }

  lemma AddListed<Cmd, State>(index: map<Pid, seq<(Condition, Pid)>>, s: Schedule<Cmd, State>, p: Pid, job: Job<Cmd>,
                              q: Pid)
    requires Indexed(index, s) && s.Ordered() && p !in s.jobs && p !in s.done && job.blockFor.Keys <= s.jobs.Keys
    requires (q == p || q in s.jobs) && q !in s.done
    ensures var still := s.Add(p, job).Unfinished(p);
            ListsWaiters(ListOf(Pushed(index, still, still.Keys, p), q), s.Add(p, job), q)
  {
    hide InOrder, ListsWaiters;
    var still := s.Add(p, job).Unfinished(p);
    NewHasNoWaiters(s, p);
    ListedNew(ListOf(index, q), s, p, job, q);
    assert ListOf(Pushed(index, still, still.Keys, p), q)
        == ListOf(index, q) + if q in job.blockFor then [(job.blockFor[q], p)] else [];
  }

  lemma ListedNew<Cmd, State>(list: seq<(Condition, Pid)>, s: Schedule<Cmd, State>, p: Pid, job: Job<Cmd>, q: Pid)
    requires if q in s.jobs then ListsWaiters(list, s, q)
             else list == [] && forall w :: w in s.jobs ==> q !in s.jobs[w].blockFor
    requires p !in s.jobs && p !in s.done
    ensures ListsWaiters(list + if q in job.blockFor then [(job.blockFor[q], p)] else [], s.Add(p, job), q)
  {
    assert forall e :: e in list ==> e.1 != p;
  }

  lemma MidFinished<Cmd, State>(t: Tables<Cmd, State>, s: Schedule<Cmd, State>, pending: set<Edge>)
    requires Mid(t, s, pending)
    ensures t.finished == s.done && t.toRun !! t.finished.Keys
    ensures forall e :: e in pending ==> e.0 in s.done
  {
    hide InOrder, Indexed, Left;
    assert forall w :: w in t.toRun ==> StoredAt(t, s, pending, w);
  }

  /** A process on its way to run, or running, is a job whose dependencies were satisfied. */
  lemma MidKnows<Cmd, State>(t: Tables<Cmd, State>, s: Schedule<Cmd, State>)
    requires Mid(t, s, {})
    ensures forall d :: d in s.jobs ==> d in t.finished || d in t.toRun || d in t.running || d in t.waitingOn
  {
    forall d | d in s.jobs ensures d in t.finished || d in t.toRun || d in t.running || d in t.waitingOn {
      assert StoredAt(t, s, {}, d);
    }
  }

  lemma MidReady<Cmd, State>(t: Tables<Cmd, State>, s: Schedule<Cmd, State>, p: Pid)
    requires Mid(t, s, {}) && (p in t.toRun || p in t.running)
    ensures p in s.jobs && p !in s.done && p !in t.waitingOn
    ensures Cleared(s.jobs, s.done, p) && Entries(ListOf(t.checkOnCompleted, p), s.jobs, p)
  {
    hide InOrder, Entries;
    assert StoredAt(t, s, {}, p);
    assert ListsWaiters(ListOf(t.checkOnCompleted, p), s, p);
    if p in t.toRun {
      EmptyLeft(s, p);
    } else {
      assert Left(s, {}, p) == map[];
    }
  }

  lemma EmptyLeft<Cmd, State>(s: Schedule<Cmd, State>, p: Pid)
    requires p in s.jobs && |Left(s, {}, p)| == 0
    ensures forall d :: d in s.jobs[p].blockFor ==> d in s.done
  {
    assert Left(s, {}, p).Keys == {};
    assert forall d :: d in s.jobs[p].blockFor ==> d in s.done || d in Left(s, {}, p).Keys;
  }

  lemma MidBegin<Cmd, State>(t: Tables<Cmd, State>, s: Schedule<Cmd, State>, p: Pid, state: State)
    requires Mid(t, s, {}) && p in t.toRun
    ensures Mid(t.(toRun := t.toRun - {p}, running := t.running[p := state]), s.Begin(p, state), {})
  {
    hide InOrder, Left, ListsWaiters, Entries, Cleared, Doomed;
    MidReady(t, s, p);
    var u, v := t.(toRun := t.toRun - {p}, running := t.running[p := state]), s.Begin(p, state);
    BeginRunning(s, p, state);
    forall w ensures StoredAt(u, v, {}, w) {
      assert StoredAt(t, s, {}, w);
      BeginLeft(s, p, state, w);
    }
    forall q | q in s.jobs && q !in s.done ensures ListsWaiters(ListOf(t.checkOnCompleted, q), v, q) {
      BeginListed(ListOf(t.checkOnCompleted, q), s, p, state, q);
    }
  }

  lemma BeginRunning<Cmd, State>(s: Schedule<Cmd, State>, p: Pid, state: State)
    requires p !in s.done
    ensures s.Begin(p, state).Running() == s.Running()[p := state]
  {
  }

  lemma BeginLeft<Cmd, State>(s: Schedule<Cmd, State>, p: Pid, state: State, w: Pid)
    ensures w in s.jobs ==> Left(s.Begin(p, state), {}, w) == Left(s, {}, w)
  {
  }

  lemma BeginListed<Cmd, State>(list: seq<(Condition, Pid)>, s: Schedule<Cmd, State>, p: Pid, state: State, q: Pid)
    requires ListsWaiters(list, s, q)
    ensures ListsWaiters(list, s.Begin(p, state), q)
  {
  }

  /** A waiter with news under way is waiting exactly if it has not failed. */
  lemma MidWaiting<Cmd, State>(t: Tables<Cmd, State>, s: Schedule<Cmd, State>, pending: set<Edge>, p: Pid, w: Pid)
    requires Mid(t, s, pending) && (p, w) in pending && w in s.jobs && p in s.jobs[w].blockFor
    ensures w in t.waitingOn <==> w !in s.done
    ensures w in t.waitingOn ==> w !in t.toRun && w !in t.running && t.waitingOn[w].cmd == s.jobs[w].cmd
    ensures p in s.done && (w !in s.done ==> p != w)
  {
    hide InOrder, Indexed;
    assert StoredAt(t, s, pending, w);
    assert p in Left(s, pending, w);
  }

  /** `t` is `s` after some more jobs have failed, each rejected by a finished dependency. */
  ghost predicate Continues<Cmd, State>(s: Schedule<Cmd, State>, t: Schedule<Cmd, State>) {
    && t == s.(done := t.done)
    && (forall w :: w in s.done ==> w in t.done && t.done[w] == s.done[w])
    && (forall w :: w in t.done && w !in s.done ==> t.done[w] == Failure && Doomed(s.jobs, t.done, w))
  }

  lemma ContinuesRefl<Cmd, State>(s: Schedule<Cmd, State>)
    ensures Continues(s, s)
  {
  }

  lemma ContinuesFacts<Cmd, State>(s: Schedule<Cmd, State>, t: Schedule<Cmd, State>)
    requires Continues(s, t)
    ensures t == s.(done := t.done)
    ensures forall w :: w in s.done ==> w in t.done && t.done[w] == s.done[w]
  {
  }

  lemma ContinuesTrans<Cmd, State>(s: Schedule<Cmd, State>, t: Schedule<Cmd, State>, u: Schedule<Cmd, State>)
    requires Continues(s, t) && Continues(t, u)
    ensures Continues(s, u)
  {
    forall w | w in t.done && w !in s.done ensures Doomed(s.jobs, u.done, w) {
      assert Doomed(s.jobs, t.done, w);
    }
  }

  lemma DoomedBy<Cmd, State>(s: Schedule<Cmd, State>, p: Pid, w: Pid)
    requires w in s.jobs && p in s.jobs[w].blockFor && p in s.done && !Met(s.jobs[w].blockFor[p], s.done[p])
    ensures Doomed(s.jobs, s.done, w)
  {
  }

  lemma ContinuesFailure<Cmd, State>(s: Schedule<Cmd, State>, p: Pid, w: Pid, t: Schedule<Cmd, State>)
    requires w in s.jobs && w !in s.done && Doomed(s.jobs, s.done, w) && Continues(s.Finish(w, Failure), t)
    ensures Continues(s, t) && w in t.done
  {
    assert Doomed(s.jobs, t.done, w);
  }

  /** With no news under way, the cascade has settled. */
  lemma MidSettles<Cmd, State>(t: Tables<Cmd, State>, s: Schedule<Cmd, State>, before: Schedule<Cmd, State>)
    requires Mid(t, s, {}) && Continues(before, s)
    ensures s.done == Settle(s.order, s.jobs, before.done)
  {
    hide Admissible, Stored, Indexed, Settle, Doomed, InOrder;
    LegalSettled(s);
    assert s.Ordered();
    SettlesIsSettle(s, before.done, s.done);
  }

  /** Who has failed in a cascade that has settled, and who has not. */
  lemma SettledExactly<Cmd, State>(t: Tables<Cmd, State>, s: Schedule<Cmd, State>, before: Schedule<Cmd, State>)
    requires Mid(t, s, {}) && Continues(before, s)
    ensures forall w :: w in s.done && w !in before.done ==>
              s.done[w] == Failure && w in s.jobs
              && exists d :: d in s.jobs[w].blockFor && d in s.done
                   && s.jobs[w].blockFor[d].Some? && s.jobs[w].blockFor[d].value != s.done[d]
    ensures forall w, d | w in s.jobs && w !in s.done && d in s.jobs[w].blockFor && d in s.done ::
              s.jobs[w].blockFor[d].None? || s.jobs[w].blockFor[d].value == s.done[d]
  {
    hide Admissible, Stored, Indexed, InOrder, Mismatched;
    LegalSettled(s);
    forall w | w in s.jobs
      ensures Mismatched(s.done, s.jobs[w].blockFor) <==>
                exists d :: d in s.jobs[w].blockFor && d in s.done
                  && s.jobs[w].blockFor[d].Some? && s.jobs[w].blockFor[d].value != s.done[d]
    {
      MismatchedExactly(s.done, s.jobs[w].blockFor);
    }
  }

  lemma LegalSettled<Cmd, State>(s: Schedule<Cmd, State>)
    requires Admissible(s, {})
    ensures s.done.Keys <= s.jobs.Keys
    ensures forall w :: w in s.jobs && w !in s.done ==> !Doomed(s.jobs, s.done, w)
  {
  }

  /** Going from one state of the run queue and the finished table to another, `tasks`
      starts exactly the processes that became ready and fails exactly those that
      failed, once each. */
  ghost predicate Reports<Cmd>(jobs: map<Pid, Job<Cmd>>, ready: set<Pid>, done: map<Pid, ExitStatus>,
                               ready': set<Pid>, done': map<Pid, ExitStatus>, tasks: seq<Task<Cmd>>)
  {
    && ready <= ready' && done.Keys <= done'.Keys && ready' !! done'.Keys
    && (forall i, j :: 0 <= i < j < |tasks| ==> tasks[i].pid != tasks[j].pid)
    && (forall k :: k in tasks ==>
          && k.pid in jobs && k.cmd == jobs[k.pid].cmd
          && (if k.Start? then k.pid in ready' - ready else k.pid in done'.Keys - done.Keys))
    && (forall w :: w in ready' - ready ==> exists k :: k in tasks && k.pid == w)
    && (forall w :: w in done'.Keys - done.Keys ==> exists k :: k in tasks && k.pid == w)
  }

  lemma ReportsTrans<Cmd>(jobs: map<Pid, Job<Cmd>>, r0: set<Pid>, d0: map<Pid, ExitStatus>,
                          r1: set<Pid>, d1: map<Pid, ExitStatus>, a: seq<Task<Cmd>>,
                          r2: set<Pid>, d2: map<Pid, ExitStatus>, b: seq<Task<Cmd>>)
    requires Reports(jobs, r0, d0, r1, d1, a) && Reports(jobs, r1, d1, r2, d2, b)
    ensures Reports(jobs, r0, d0, r2, d2, a + b)
  {
    var all := a + b;
    forall i, j | 0 <= i < j < |all| ensures all[i].pid != all[j].pid {
      if i < |a| <= j {
        assert all[i] in a && all[j] in b;
      }
    }
    forall w | w in r2 - r0 ensures exists k :: k in all && k.pid == w {
      assert w in r1 - r0 || w in r2 - r1;
      assert exists k :: (k in a || k in b) && k.pid == w;
    }
    forall w | w in d2.Keys - d0.Keys ensures exists k :: k in all && k.pid == w {
      assert w in d1.Keys - d0.Keys || w in d2.Keys - d1.Keys;
      assert exists k :: (k in a || k in b) && k.pid == w;
    }
  }

  lemma NextEdge(p: Pid, list: seq<(Condition, Pid)>, k: nat)
    requires OncePerWaiter(list) && k < |list|
    ensures Edges(p, list[k..]) == Edges(p, list[k + 1..]) + {(p, list[k].1)}
    ensures (p, list[k].1) !in Edges(p, list[k + 1..])
  {
    assert list[k..] == [list[k]] + list[k + 1..];
  }

  lemma NoEdges(p: Pid, list: seq<(Condition, Pid)>)
    requires list == []
    ensures Edges(p, list) == {}
  {
  }

  lemma ReportsNothing<Cmd>(jobs: map<Pid, Job<Cmd>>, ready: set<Pid>, done: map<Pid, ExitStatus>)
    requires ready !! done.Keys
    ensures Reports(jobs, ready, done, ready, done, [])
  {
  }

  lemma ReportsStart<Cmd>(jobs: map<Pid, Job<Cmd>>, ready: set<Pid>, done: map<Pid, ExitStatus>, w: Pid)
    requires (ready + {w}) !! done.Keys && w !in ready && w in jobs
    ensures Reports(jobs, ready, done, ready + {w}, done, [Task.Start(w, jobs[w].cmd)])
  {
    assert Task.Start(w, jobs[w].cmd) in [Task.Start(w, jobs[w].cmd)];
  }

  lemma ReportsFailure<Cmd>(jobs: map<Pid, Job<Cmd>>, ready: set<Pid>, done: map<Pid, ExitStatus>, w: Pid)
    requires ready !! done.Keys && w !in ready && w !in done && w in jobs
    ensures Reports(jobs, ready, done, ready, done[w := Failure], [ConditionFailed(w, jobs[w].cmd)])
  {
    assert ConditionFailed(w, jobs[w].cmd) in [ConditionFailed(w, jobs[w].cmd)];
  }

  /** A finished process needs no blocked list any more. */
  lemma MidForget<Cmd, State>(t: Tables<Cmd, State>, s: Schedule<Cmd, State>, pending: set<Edge>, p: Pid)
    requires Mid(t, s, pending) && p in s.done
    ensures Mid(t.(checkOnCompleted := t.checkOnCompleted - {p}), s, pending)
  {
    hide InOrder, Admissible, ListsWaiters, Left;
    var u := t.(checkOnCompleted := t.checkOnCompleted - {p});
    forall w ensures StoredAt(u, s, pending, w) {
      assert StoredAt(t, s, pending, w);
    }
    assert forall q :: q != p ==> ListOf(u.checkOnCompleted, q) == ListOf(t.checkOnCompleted, q);
  }

  lemma MidEntries<Cmd, State>(t: Tables<Cmd, State>, s: Schedule<Cmd, State>, pending: set<Edge>, w: Pid)
    requires Mid(t, s, pending) && w in s.jobs && w !in s.done
    ensures Entries(ListOf(t.checkOnCompleted, w), s.jobs, w)
  {
    hide InOrder, Admissible, Stored, Entries;
    assert ListsWaiters(ListOf(t.checkOnCompleted, w), s, w);
  }

  lemma AddUnfinished<Cmd, State>(s: Schedule<Cmd, State>, p: Pid, job: Job<Cmd>)
    ensures s.Add(p, job).Unfinished(p) == (map d | d in job.blockFor && d !in s.done :: job.blockFor[d])
  {
  }
}
