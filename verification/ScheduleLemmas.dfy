// How the recomputed tables change when a job is added, started or finished.

module ScheduleLemmas {
  import opened Protocol
  import opened Scheduling

  ghost predicate OncePerWaiter(ds: seq<(Condition, Pid)>) {
    forall i, j :: 0 <= i < j < |ds| ==> ds[i].1 != ds[j].1
  }

  /** Every entry of the reverse index is a real dependency, and no waiter is listed twice. */
  lemma {:induction false} DependentsSound<Cmd>(ws: seq<Pid>, jobs: map<Pid, Job<Cmd>>, p: Pid)
    requires InOrder(ws, jobs)
    ensures forall e :: e in Dependents(ws, jobs, p) ==>
              e.1 in ws && e.1 in jobs && p in jobs[e.1].blockFor && e.0 == jobs[e.1].blockFor[p]
    ensures OncePerWaiter(Dependents(ws, jobs, p))
  {
    if ws != [] {
      var rest := ws[..|ws| - 1];
      DependentsSound(rest, jobs, p);
      var ds := Dependents(rest, jobs, p);
      forall i | 0 <= i < |ds| ensures ds[i].1 != ws[|ws| - 1] {
        assert ds[i] in ds;
      }
    }
  }

  /** Every dependency is listed in the reverse index. */
  lemma {:induction false} DependentsComplete<Cmd>(ws: seq<Pid>, jobs: map<Pid, Job<Cmd>>, p: Pid, w: Pid)
    requires w in ws && w in jobs && p in jobs[w].blockFor
    ensures (jobs[w].blockFor[p], w) in Dependents(ws, jobs, p)
  {
    if w != ws[|ws| - 1] {
      DependentsComplete(ws[..|ws| - 1], jobs, p, w);
    }
  }

  /** A new job disturbs neither the order nor the dependents of the old ones. */
  lemma {:induction false} NewJobFrame<Cmd>(ws: seq<Pid>, jobs: map<Pid, Job<Cmd>>, q: Pid, job: Job<Cmd>, p: Pid)
    requires q !in ws
    ensures Dependents(ws, jobs[q := job], p) == Dependents(ws, jobs, p)
    ensures InOrder(ws, jobs) ==> InOrder(ws, jobs[q := job])
  {
    if ws != [] {
      NewJobFrame(ws[..|ws| - 1], jobs, q, job, p);
    }
  }

  lemma {:induction false} EarlierOnly<Cmd>(ws: seq<Pid>, jobs: map<Pid, Job<Cmd>>, q: Pid)
    requires InOrder(ws, jobs) && q !in ws
    ensures Dependents(ws, jobs, q) == []
  {
    if ws != [] {
      EarlierOnly(ws[..|ws| - 1], jobs, q);
    }
  }

  lemma {:induction false} OrderedAreJobs<Cmd>(ws: seq<Pid>, jobs: map<Pid, Job<Cmd>>)
    requires InOrder(ws, jobs)
    ensures forall w :: w in ws ==> w in jobs
  {
    if ws != [] {
      OrderedAreJobs(ws[..|ws| - 1], jobs);
    }
  }

  /** A job that only depends on known jobs can be added. */
  lemma AddWellFormed<Cmd, State>(s: Schedule<Cmd, State>, p: Pid, job: Job<Cmd>)
    requires s.WellFormed() && p !in s.jobs
    requires job.blockFor.Keys <= s.jobs.Keys
    requires forall d :: d in job.blockFor && d in s.done ==> Met(job.blockFor[d], s.done[d])
    ensures s.Add(p, job).WellFormed()
  {
    AddOrdered(s, p, job);
    var t := s.Add(p, job);
    forall q | q in t.jobs && q != p ensures t.Blocked(q) == s.Blocked(q) {}
  }

  lemma AddOrdered<Cmd, State>(s: Schedule<Cmd, State>, p: Pid, job: Job<Cmd>)
    requires s.Ordered() && p !in s.jobs
    requires job.blockFor.Keys <= s.jobs.Keys
    ensures s.Add(p, job).Ordered()
  {
    OrderedAreJobs(s.order, s.jobs);
    NewJobFrame(s.order, s.jobs, p, job, p);
    assert (s.order + [p])[..|s.order|] == s.order;
  }

  lemma AddTables<Cmd, State>(s: Schedule<Cmd, State>, p: Pid, job: Job<Cmd>)
    requires s.WellFormed() && p !in s.jobs
    ensures var t := s.Add(p, job);
            && t.Running() == s.Running()
            && t.Unfinished(p) == (map d | d in job.blockFor && d !in s.done :: job.blockFor[d])
            && t.WaitingTable() == if t.Blocked(p) then s.WaitingTable()[p := Waiting(job.cmd, t.Unfinished(p))]
                                   else s.WaitingTable()
  {
    hide Schedule.Ordered;
    var t := s.Add(p, job);
    assert p !in s.done && p !in s.started;
    assert t.Running() == s.Running();
    forall q | q in s.jobs ensures t.Unfinished(q) == s.Unfinished(q) && t.Blocked(q) == s.Blocked(q) {}
  }

  lemma AddRunnable<Cmd, State>(s: Schedule<Cmd, State>, p: Pid, job: Job<Cmd>)
    requires s.WellFormed() && p !in s.jobs
    ensures s.Add(p, job).Runnable() == s.Runnable() + (if s.Add(p, job).Blocked(p) then {} else {p})
  {
    hide Schedule.Ordered;
    var t := s.Add(p, job);
    forall q | q in s.jobs ensures t.Blocked(q) == s.Blocked(q) {}
  }

  /** `index` after `w` has been pushed under each pid of `pids`. */
  ghost function Pushed(index: map<Pid, seq<(Condition, Pid)>>, conds: map<Pid, Condition>, pids: set<Pid>, w: Pid)
    : map<Pid, seq<(Condition, Pid)>>
    requires pids <= conds.Keys
  {
    map d | d in index.Keys + pids ::
      if d !in pids then index[d] else (if d in index then index[d] else []) + [(conds[d], w)]
  }

  lemma AddIndex<Cmd, State>(s: Schedule<Cmd, State>, p: Pid, job: Job<Cmd>)
    requires s.WellFormed() && p !in s.jobs
    requires job.blockFor.Keys <= s.jobs.Keys
    ensures var t := s.Add(p, job);
            t.Index() == Pushed(s.Index(), t.Unfinished(p), t.Unfinished(p).Keys, p)
  {
    hide Schedule.WellFormed, Dependents;
    var t := s.Add(p, job);
    var u := Pushed(s.Index(), t.Unfinished(p), t.Unfinished(p).Keys, p);
    forall d ensures (d in t.Index() <==> d in u) && (d in u ==> t.Index()[d] == u[d]) {
      AddIndexAt(s, p, job, d);
    }
    assert t.Index().Keys == u.Keys;
  }

  lemma AddIndexAt<Cmd, State>(s: Schedule<Cmd, State>, p: Pid, job: Job<Cmd>, d: Pid)
    requires s.WellFormed() && p !in s.jobs
    requires job.blockFor.Keys <= s.jobs.Keys
    ensures var t := s.Add(p, job); var u := Pushed(s.Index(), t.Unfinished(p), t.Unfinished(p).Keys, p);
            && (d in t.Index() <==> d in u)
            && (d in u ==> t.Index()[d] == u[d])
  {
    hide Dependents, Schedule.Ordered;
    assert p !in s.done;
    AddDependents(s, p, job, d);
  }

  lemma AddDependents<Cmd, State>(s: Schedule<Cmd, State>, p: Pid, job: Job<Cmd>, d: Pid)
    requires s.Ordered() && p !in s.jobs
    ensures Dependents(s.order + [p], s.jobs[p := job], d)
         == Dependents(s.order, s.jobs, d) + if d in job.blockFor then [(job.blockFor[d], p)] else []
    ensures d == p ==> Dependents(s.order, s.jobs, d) == []
  {
    OrderedAreJobs(s.order, s.jobs);
    EarlierOnly(s.order, s.jobs, p);
    NewJobFrame(s.order, s.jobs, p, job, d);
    assert (s.order + [p])[..|s.order|] == s.order;
  }

  /** Finishing a job that nobody contradicts keeps the schedule lawful. */
  lemma FinishWellFormed<Cmd, State>(s: Schedule<Cmd, State>, p: Pid, status: ExitStatus)
    requires s.WellFormed() && p in s.jobs && p !in s.done && !s.Blocked(p)
    requires !s.Contradicts(p, status)
    ensures s.Finish(p, status).WellFormed()
  {
    var t := s.Finish(p, status);
    forall q | q in s.jobs && !s.Blocked(q) ensures !t.Blocked(q) {}
  }

  /** The waiting table halfway through `Machine.ResolveTasks`: the entries of
      `visited` have already dropped their condition on `p`. */
  ghost function MidTable<Cmd, State>(s: Schedule<Cmd, State>, p: Pid, visited: set<Pid>): map<Pid, Waiting<Cmd>> {
    map w | w in s.jobs && w !in s.done && s.Blocked(w) && !(w in visited && s.Unfinished(w).Keys == {p}) ::
      Waiting(s.jobs[w].cmd, if w in visited then s.Unfinished(w) - {p} else s.Unfinished(w))
  }

  ghost function Freed<Cmd, State>(s: Schedule<Cmd, State>, p: Pid, visited: set<Pid>): set<Pid> {
    set w | w in visited && w in s.jobs && s.Unfinished(w).Keys == {p}
  }

  ghost function Waiters(ds: seq<(Condition, Pid)>): set<Pid> {
    set e | e in ds :: e.1
  }

  /** Once every waiter has been visited, the tables are those of the finished schedule. */
  lemma FinishTables<Cmd, State>(s: Schedule<Cmd, State>, p: Pid, status: ExitStatus)
    requires s.WellFormed() && p in s.jobs && p !in s.done && !s.Blocked(p)
    ensures var t := s.Finish(p, status); var ws := Waiters(Dependents(s.order, s.jobs, p));
            && t.Running() == s.Running() - {p}
            && t.Index() == s.Index() - {p}
            && t.WaitingTable() == MidTable(s, p, ws)
            && t.Runnable() == s.Runnable() - {p} + Freed(s, p, ws)
  {
    FinishWaiting(s, p, status);
    FinishRunnable(s, p, status);
    FinishIndex(s, p, status);
  }

  lemma FinishIndex<Cmd, State>(s: Schedule<Cmd, State>, p: Pid, status: ExitStatus)
    ensures s.Finish(p, status).Running() == s.Running() - {p}
    ensures s.Finish(p, status).Index() == s.Index() - {p}
  {
  }

  lemma FinishWaiting<Cmd, State>(s: Schedule<Cmd, State>, p: Pid, status: ExitStatus)
    requires s.Ordered() && p in s.jobs && p !in s.done && !s.Blocked(p)
    ensures s.Finish(p, status).WaitingTable() == MidTable(s, p, Waiters(Dependents(s.order, s.jobs, p)))
  {
    hide Dependents, Waiters, Schedule.Ordered;
    var t := s.Finish(p, status);
    var m := MidTable(s, p, Waiters(Dependents(s.order, s.jobs, p)));
    forall w
      ensures w in t.WaitingTable() <==> w in m
      ensures w in m ==> t.WaitingTable()[w] == m[w]
    {
      if w in s.jobs { FinishAt(s, p, status, w); }
    }
  }

  lemma FinishRunnable<Cmd, State>(s: Schedule<Cmd, State>, p: Pid, status: ExitStatus)
    requires s.WellFormed() && p in s.jobs && p !in s.done && !s.Blocked(p)
    ensures s.Finish(p, status).Runnable()
         == s.Runnable() - {p} + Freed(s, p, Waiters(Dependents(s.order, s.jobs, p)))
  {
    var t := s.Finish(p, status);
    var r := s.Runnable() - {p} + Freed(s, p, Waiters(Dependents(s.order, s.jobs, p)));
    forall w ensures w in t.Runnable() <==> w in r {
      if w in s.jobs { FinishAt(s, p, status, w); }
    }
  }

  /** The reverse index of `p` names exactly the jobs that depend on it. */
  lemma WaitersExact<Cmd, State>(s: Schedule<Cmd, State>, p: Pid, w: Pid)
    requires s.Ordered() && w in s.jobs
    ensures w in Waiters(Dependents(s.order, s.jobs, p)) <==> p in s.jobs[w].blockFor
  {
    var ds := Dependents(s.order, s.jobs, p);
    DependentsSound(s.order, s.jobs, p);
    if p in s.jobs[w].blockFor {
      DependentsComplete(s.order, s.jobs, p, w);
      assert (s.jobs[w].blockFor[p], w) in ds;
    }
  }

  // What finishing `p` does to one job.
  lemma FinishAt<Cmd, State>(s: Schedule<Cmd, State>, p: Pid, status: ExitStatus, w: Pid)
    requires s.Ordered() && p !in s.done && w in s.jobs
    ensures var t := s.Finish(p, status); var ws := Waiters(Dependents(s.order, s.jobs, p));
            && t.Unfinished(w) == (if w in ws then s.Unfinished(w) - {p} else s.Unfinished(w))
            && (s.Unfinished(w).Keys == {p} <==> s.Blocked(w) && !t.Blocked(w))
            && (t.Blocked(w) ==> s.Blocked(w))
            && (s.Unfinished(w).Keys == {p} ==> w in ws)
  {
    hide Schedule.Ordered, Schedule.Blocked, Dependents, Waiters;
    var t := s.Finish(p, status);
    WaitersExact(s, p, w);
    BlockedIff(s, w);
    BlockedIff(t, w);
    var u := s.Unfinished(w);
    assert t.Unfinished(w) == u - {p};
    LastKey(u, p);
    if p !in s.jobs[w].blockFor {
      assert u - {p} == u;
    }
    assert u.Keys == {p} ==> p in u;
  }

  lemma LastKey<K, V>(m: map<K, V>, k: K)
    ensures m.Keys == {k} <==> m != map[] && m - {k} == map[]
  {
    assert (m - {k}).Keys == m.Keys - {k};
    assert m == map[] <==> m.Keys == {};
    assert m - {k} == map[] <==> (m - {k}).Keys == {};
    if m.Keys == {k} {
      assert k in m;
      assert (m - {k}).Keys == {};
    }
  }

  lemma PushedNothing(index: map<Pid, seq<(Condition, Pid)>>, conds: map<Pid, Condition>, w: Pid)
    ensures |conds| == 0 ==> Pushed(index, conds, conds.Keys, w) == index
  {
    if |conds| == 0 {
      assert conds == map[];
      assert Pushed(index, conds, conds.Keys, w).Keys == index.Keys;
    }
  }

  lemma BeginTables<Cmd, State>(s: Schedule<Cmd, State>, p: Pid, state: State)
    requires p in s.Runnable()
    ensures var t := s.Begin(p, state);
            && t.Running() == s.Running()[p := state]
            && t.Runnable() == s.Runnable() - {p}
            && t.WaitingTable() == s.WaitingTable()
            && t.Index() == s.Index()
  {
    SameDoneSameTables(s, s.Begin(p, state));
  }

  lemma BeginWellFormed<Cmd, State>(s: Schedule<Cmd, State>, p: Pid, state: State)
    requires s.WellFormed() && p in s.Runnable()
    ensures s.Begin(p, state).WellFormed()
  {
    SameDoneSameTables(s, s.Begin(p, state));
  }

  lemma SameDoneSameTables<Cmd, State>(s: Schedule<Cmd, State>, t: Schedule<Cmd, State>)
    requires s.order == t.order && s.jobs == t.jobs && s.done == t.done
    ensures t.WaitingTable() == s.WaitingTable() && t.Index() == s.Index()
    ensures forall q :: q in s.jobs ==> s.Blocked(q) == t.Blocked(q)
  {
    assert forall q :: q in s.jobs ==> s.Blocked(q) == t.Blocked(q) && s.Unfinished(q) == t.Unfinished(q);
  }

  /** The waiters of an unfinished job are distinct and still wait for it. */
  lemma BlockedOnce<Cmd, State>(s: Schedule<Cmd, State>, p: Pid)
    requires s.WellFormed() && p in s.jobs && p !in s.done
    ensures var ds := Dependents(s.order, s.jobs, p);
            && OncePerWaiter(ds)
            && (forall e :: e in ds ==> e.1 in s.jobs && p in s.jobs[e.1].blockFor && e.0 == s.jobs[e.1].blockFor[p])
            && (forall e :: e in ds ==> e.1 in s.WaitingTable() && e.1 !in s.Running())
            && (forall e :: e in ds ==> p in s.Unfinished(e.1) && s.Unfinished(e.1)[p] == e.0)
            && (forall w :: w in s.jobs && p in s.jobs[w].blockFor ==> (s.jobs[w].blockFor[p], w) in ds)
            && (if p in s.Index() then s.Index()[p] == ds else ds == [])
  {
    DependentsSound(s.order, s.jobs, p);
    forall w | w in s.jobs && p in s.jobs[w].blockFor
      ensures s.Blocked(w) && (s.jobs[w].blockFor[p], w) in Dependents(s.order, s.jobs, p)
    {
      DependentsComplete(s.order, s.jobs, p, w);
    }
  }

  lemma MidStart<Cmd, State>(s: Schedule<Cmd, State>, p: Pid)
    ensures MidTable(s, p, {}) == s.WaitingTable() && Freed(s, p, {}) == {}
  {
  }

  lemma NextWaiter(ds: seq<(Condition, Pid)>, k: nat)
    requires k < |ds| && OncePerWaiter(ds)
    ensures Waiters(ds[..k + 1]) == Waiters(ds[..k]) + {ds[k].1} && ds[k].1 !in Waiters(ds[..k])
    ensures ds[..k + 1] == ds[..k] + [ds[k]]
  {
    assert ds[..k + 1] == ds[..k] + [ds[k]];
  }

  /** The `k`-th waiter of `p` still waits for it and has not been visited. */
  lemma WaiterFacts<Cmd, State>(s: Schedule<Cmd, State>, p: Pid, ds: seq<(Condition, Pid)>, k: nat)
    requires s.WellFormed() && p in s.jobs && p !in s.done && !s.Blocked(p)
    requires ds == Dependents(s.order, s.jobs, p) && k < |ds|
    ensures var w := ds[k].1;
            && w in s.jobs && w in s.WaitingTable() && w !in s.Running()
            && p in s.Unfinished(w) && s.Unfinished(w)[p] == ds[k].0
            && w !in Waiters(ds[..k]) && Waiters(ds[..k + 1]) == Waiters(ds[..k]) + {w}
            && s.Starts(ds[..k + 1], p)
            == s.Starts(ds[..k], p) + if s.Unfinished(w).Keys == {p} then [Start(w, s.jobs[w].cmd)] else []
  {
    BlockedOnce(s, p);
    assert ds[k] in ds;
    NextWaiter(ds, k);
  }

  /** One turn of the loop in `Machine.ResolveTasks`. */
  lemma MidVisit<Cmd, State>(s: Schedule<Cmd, State>, p: Pid, before: set<Pid>, w: Pid)
    requires w in s.jobs && w in s.WaitingTable() && p in s.Unfinished(w) && w !in before
    ensures var left := s.Unfinished(w) - {p}; var m := MidTable(s, p, before);
            && w in m && m[w] == Waiting(s.jobs[w].cmd, s.Unfinished(w))
            && MidTable(s, p, before + {w}) == (if |left| == 0 then m - {w}
                                                else m[w := Waiting(s.jobs[w].cmd, left)])
  {
    OnlyDependency(s, p, w);
    MidElsewhere(s, p, before, w);
    var m, m' := MidTable(s, p, before), MidTable(s, p, before + {w});
    assert w in m' <==> |s.Unfinished(w) - {p}| != 0;
    SameElsewhere(m, m', w);
  }

  lemma SameElsewhere<K, V>(m: map<K, V>, m': map<K, V>, w: K)
    requires m - {w} == m' - {w}
    ensures w !in m' ==> m' == m - {w}
    ensures w in m' ==> m' == m[w := m'[w]]
  {
    forall k | k != w ensures (k in m <==> k in m') && (k in m ==> m[k] == m'[k]) {
      assert k in m <==> k in m - {w};
      assert k in m' <==> k in m' - {w};
    }
  }

  lemma FreedVisit<Cmd, State>(s: Schedule<Cmd, State>, p: Pid, before: set<Pid>, w: Pid)
    requires w in s.jobs && p in s.Unfinished(w)
    ensures Freed(s, p, before + {w}) == Freed(s, p, before) + (if |s.Unfinished(w) - {p}| == 0 then {w} else {})
  {
    OnlyDependency(s, p, w);
  }

  lemma MidElsewhere<Cmd, State>(s: Schedule<Cmd, State>, p: Pid, before: set<Pid>, w: Pid)
    ensures MidTable(s, p, before) - {w} == MidTable(s, p, before + {w}) - {w}
  {
    var m, m' := MidTable(s, p, before), MidTable(s, p, before + {w});
    assert (m - {w}).Keys == (m' - {w}).Keys;
  }

  lemma OnlyDependency<Cmd, State>(s: Schedule<Cmd, State>, p: Pid, w: Pid)
    requires w in s.jobs && p in s.Unfinished(w)
    ensures |s.Unfinished(w) - {p}| == 0 <==> s.Unfinished(w).Keys == {p}
  {
    var left := s.Unfinished(w) - {p};
    assert left.Keys == s.Unfinished(w).Keys - {p};
    assert |left| == |left.Keys|;
  }

  lemma BlockedIff<Cmd, State>(s: Schedule<Cmd, State>, w: Pid)
    requires w in s.jobs
    ensures s.Blocked(w) <==> s.Unfinished(w) != map[]
  {
    if s.Blocked(w) {
      var d :| d in s.jobs[w].blockFor && d !in s.done;
      assert d in s.Unfinished(w);
    }
    if s.Unfinished(w) != map[] {
      assert s.Unfinished(w).Keys != {};
      var d :| d in s.Unfinished(w);
    }
  }

  // The reverse index lists `w` under `d` with condition `c`.
  ghost predicate Listed<Cmd, State>(t: Tables<Cmd, State>, d: Pid, c: Condition, w: Pid) {
    d in t.checkOnCompleted && (c, w) in t.checkOnCompleted[d]
  }

  // The forward index says that `w` waits for `d` with condition `c`.
  ghost predicate WaitsFor<Cmd, State>(t: Tables<Cmd, State>, d: Pid, c: Condition, w: Pid) {
    w in t.waitingOn && d in t.waitingOn[w].conditions && t.waitingOn[w].conditions[d] == c
  }

  /** The two indices agree: `w` is listed under `d` with the condition `c`, and only once, exactly when
      `w` waits for `d` with that condition; nobody waits for nothing, and the groups are disjoint. */
  lemma IndexAgreement<Cmd, State>(t: Tables<Cmd, State>, s: Schedule<Cmd, State>)
    requires Represents(t, s)
    ensures forall d, c, w :: Listed(t, d, c, w) <==> WaitsFor(t, d, c, w)
    ensures forall d :: d in t.checkOnCompleted ==> OncePerWaiter(t.checkOnCompleted[d]) && t.checkOnCompleted[d] != []
    ensures forall w :: w in t.waitingOn ==> t.waitingOn[w].conditions != map[]
    ensures t.finished.Keys !! t.toRun !! t.running.Keys !! t.waitingOn.Keys
  {
    hide InOrder, Dependents, Schedule.WaitingTable, Schedule.Index, Schedule.WellFormed, Schedule.Runnable,
         Schedule.Running;
    forall d, c, w ensures Listed(t, d, c, w) <==> WaitsFor(t, d, c, w) {
      IndexAgreementAt(s, d, c, w);
    }
    forall d | d in t.checkOnCompleted ensures OncePerWaiter(t.checkOnCompleted[d]) && t.checkOnCompleted[d] != [] {
      IndexKeys(s, d);
      BlockedOnce(s, d);
    }
    GroupsApart(s);
  }

  lemma GroupsApart<Cmd, State>(s: Schedule<Cmd, State>)
    requires s.WellFormed()
    ensures forall w :: w in s.WaitingTable() ==> s.WaitingTable()[w].conditions != map[]
    ensures s.done.Keys !! s.Runnable() !! s.Running().Keys !! s.WaitingTable().Keys
  {
    forall w | w in s.WaitingTable() ensures s.Unfinished(w) != map[] { BlockedIff(s, w); }
  }

  lemma IndexAgreementAt<Cmd, State>(s: Schedule<Cmd, State>, d: Pid, c: Condition, w: Pid)
    requires s.WellFormed()
    ensures (d in s.Index() && (c, w) in s.Index()[d]) <==>
            (w in s.WaitingTable() && d in s.WaitingTable()[w].conditions && s.WaitingTable()[w].conditions[d] == c)
  {
    hide Dependents, Schedule.Index;
    IndexKeys(s, d);
    if d in s.jobs && d !in s.done { BlockedOnce(s, d); }
    if w in s.jobs && d in s.jobs[w].blockFor { DependenciesAreJobs(s.order, s.jobs, w, d); }
  }

  lemma IndexKeys<Cmd, State>(s: Schedule<Cmd, State>, d: Pid)
    ensures d in s.Index() ==> d in s.jobs && d !in s.done && s.Index()[d] != []
  {
  }

  lemma {:induction false} DependenciesAreJobs<Cmd>(ws: seq<Pid>, jobs: map<Pid, Job<Cmd>>, w: Pid, d: Pid)
    requires InOrder(ws, jobs) && w in ws && w in jobs && d in jobs[w].blockFor
    ensures d in jobs
  {
    if w == ws[|ws| - 1] {
      OrderedAreJobs(ws, jobs);
    } else {
      DependenciesAreJobs(ws[..|ws| - 1], jobs, w, d);
    }
  }

  /** No deadlock: when nothing is runnable and nothing is running, every job has finished. */
  lemma NoDeadlock<Cmd, State>(s: Schedule<Cmd, State>)
    requires s.WellFormed()
    requires s.Runnable() == {} && s.Running() == map[]
    ensures s.done.Keys == s.jobs.Keys && s.WaitingTable() == map[]
  {
    AllDone(s, |s.order|);
    assert s.order[..|s.order|] == s.order;
  }

  lemma {:induction false} OrderedPrefix<Cmd>(ws: seq<Pid>, jobs: map<Pid, Job<Cmd>>, n: nat)
    requires InOrder(ws, jobs) && n <= |ws|
    ensures InOrder(ws[..n], jobs)
    decreases |ws|
  {
    if n < |ws| {
      OrderedPrefix(ws[..|ws| - 1], jobs, n);
      assert ws[..|ws| - 1][..n] == ws[..n];
    } else {
      assert ws[..n] == ws;
    }
  }

  // The first unfinished job in enqueue order would be runnable or running.
  lemma {:induction false} AllDone<Cmd, State>(s: Schedule<Cmd, State>, n: nat)
    requires s.WellFormed() && n <= |s.order|
    requires s.Runnable() == {} && s.Running() == map[]
    ensures forall p :: p in s.order[..n] ==> p in s.done
  {
    if n > 0 {
      AllDone(s, n - 1);
      var p := s.order[n - 1];
      OrderedPrefix(s.order, s.jobs, n);
      assert p in s.done <==> p !in s.Running() && p !in s.Runnable();
      assert s.order[..n] == s.order[..n - 1] + [p];
    }
  }

  /** The machine's tables after a job is added. */
  lemma AddRepresents<Cmd, State>(t: Tables<Cmd, State>, s: Schedule<Cmd, State>, p: Pid, job: Job<Cmd>)
    requires Represents(t, s) && p !in s.jobs
    requires job.blockFor.Keys <= s.jobs.Keys && !Mismatched(s.done, job.blockFor)
    ensures var still := s.Add(p, job).Unfinished(p);
            && (s.Add(p, job).Blocked(p) <==> |still| != 0)
            && Represents(if |still| == 0 then t.(toRun := t.toRun + {p})
                          else t.(waitingOn := t.waitingOn[p := Waiting(job.cmd, still)],
                                  checkOnCompleted := Pushed(t.checkOnCompleted, still, still.Keys, p)),
                          s.Add(p, job))
  {
    hide Schedule.Runnable, Schedule.Running, Schedule.WaitingTable, Schedule.Index, Schedule.WellFormed;
    hide Schedule.Unfinished, Schedule.Blocked, Pushed;
    AddWellFormed(s, p, job);
    AddTables(s, p, job);
    AddRunnable(s, p, job);
    AddIndex(s, p, job);
    BlockedIff(s.Add(p, job), p);
    PushedNothing(s.Index(), s.Add(p, job).Unfinished(p), p);
  }

  lemma BeginRepresents<Cmd, State>(t: Tables<Cmd, State>, s: Schedule<Cmd, State>, p: Pid, state: State)
    requires Represents(t, s) && p in t.toRun
    ensures Represents(t.(toRun := t.toRun - {p}, running := t.running[p := state]), s.Begin(p, state))
  {
    hide Schedule.Runnable, Schedule.Running, Schedule.WaitingTable, Schedule.Index, Schedule.WellFormed;
    BeginTables(s, p, state);
    BeginWellFormed(s, p, state);
  }

  /** The tables while `Machine.ResolveTasks` tells the waiters of `p`, after those of `visited`. */
  ghost predicate Midway<Cmd, State>(t: Tables<Cmd, State>, s: Schedule<Cmd, State>,
                                     p: Pid, status: ExitStatus, visited: set<Pid>)
  {
    && t.finished == s.done[p := status]
    && t.toRun == s.Runnable() - {p} + Freed(s, p, visited)
    && t.running == s.Running() - {p}
    && t.waitingOn == MidTable(s, p, visited)
    && t.checkOnCompleted == s.Index() - {p}
  }

  /** Halfway through, the two indices agree about every process but `p`, whose list has been
      taken out; for `p` itself exactly the waiters that were not visited still wait. */
  lemma MidwayAgreement<Cmd, State>(t: Tables<Cmd, State>, s: Schedule<Cmd, State>,
                                    p: Pid, status: ExitStatus, visited: set<Pid>)
    requires s.WellFormed() && p in s.jobs && p !in s.done && Midway(t, s, p, status, visited)
    ensures forall d, c, w :: d != p ==> (Listed(t, d, c, w) <==> WaitsFor(t, d, c, w))
    ensures forall c, w :: !Listed(t, p, c, w)
    ensures forall c, w :: WaitsFor(t, p, c, w) <==> w !in visited && (c, w) in Dependents(s.order, s.jobs, p)
  {
    hide InOrder, Dependents, Schedule.WaitingTable, Schedule.Index, Schedule.WellFormed, Schedule.Runnable,
         Schedule.Running, MidTable, Freed;
    forall d, c, w | d != p ensures Listed(t, d, c, w) <==> WaitsFor(t, d, c, w) {
      IndexAgreementAt(s, d, c, w);
      MidTableElsewhere(s, p, visited, d, c, w);
    }
    forall c, w ensures WaitsFor(t, p, c, w) <==> w !in visited && (c, w) in Dependents(s.order, s.jobs, p) {
      IndexAgreementAt(s, p, c, w);
      BlockedOnce(s, p);
      MidTableHere(s, p, visited, c, w);
    }
  }

  // Visiting the waiters of `p` leaves what they wait for otherwise.
  lemma MidTableElsewhere<Cmd, State>(s: Schedule<Cmd, State>, p: Pid, visited: set<Pid>, d: Pid, c: Condition, w: Pid)
    requires d != p
    ensures (w in s.WaitingTable() && d in s.WaitingTable()[w].conditions && s.WaitingTable()[w].conditions[d] == c)
       <==> (w in MidTable(s, p, visited) && d in MidTable(s, p, visited)[w].conditions
             && MidTable(s, p, visited)[w].conditions[d] == c)
  {
    if w in s.WaitingTable() && w in visited && s.Unfinished(w).Keys == {p} { assert d !in s.Unfinished(w); }
  }

  lemma MidTableHere<Cmd, State>(s: Schedule<Cmd, State>, p: Pid, visited: set<Pid>, c: Condition, w: Pid)
    ensures (w in MidTable(s, p, visited) && p in MidTable(s, p, visited)[w].conditions
             && MidTable(s, p, visited)[w].conditions[p] == c)
       <==> (w !in visited && w in s.WaitingTable() && p in s.WaitingTable()[w].conditions
             && s.WaitingTable()[w].conditions[p] == c)
  {
  }

  lemma MidwayStart<Cmd, State>(t: Tables<Cmd, State>, s: Schedule<Cmd, State>, p: Pid, status: ExitStatus)
    requires Represents(t, s) && (p in t.toRun || p in t.running)
    ensures p in s.jobs && p !in s.done && !s.Blocked(p)
    ensures Midway(t.(finished := t.finished[p := status], toRun := t.toRun - {p}, running := t.running - {p},
                      checkOnCompleted := t.checkOnCompleted - {p}),
                   s, p, status, {})
    ensures Dependents(s.order, s.jobs, p) == if p in t.checkOnCompleted then t.checkOnCompleted[p] else []
  {
    MidStart(s, p);
  }

  lemma MidwayVisit<Cmd, State>(t: Tables<Cmd, State>, s: Schedule<Cmd, State>,
                                p: Pid, status: ExitStatus, visited: set<Pid>, w: Pid)
    requires Midway(t, s, p, status, visited)
    requires w in s.jobs && w in s.WaitingTable() && p in s.Unfinished(w) && w !in visited
    ensures var left := s.Unfinished(w) - {p};
            && w in t.waitingOn && t.waitingOn[w] == Waiting(s.jobs[w].cmd, s.Unfinished(w))
            && (|left| == 0 <==> s.Unfinished(w).Keys == {p})
            && (|left| == 0 ==> Midway(t.(toRun := t.toRun + {w}, waitingOn := t.waitingOn - {w}),
                                       s, p, status, visited + {w}))
            && (|left| != 0 ==> Midway(t.(waitingOn := t.waitingOn[w := Waiting(s.jobs[w].cmd, left)]),
                                       s, p, status, visited + {w}))
  {
    hide Freed, MidTable, Schedule.Runnable, Schedule.Running, Schedule.Index, Schedule.Unfinished,
         Schedule.WaitingTable;
    OnlyDependency(s, p, w);
    MidVisit(s, p, visited, w);
    FreedVisit(s, p, visited, w);
  }

  lemma MidwayEnd<Cmd, State>(t: Tables<Cmd, State>, s: Schedule<Cmd, State>, p: Pid, status: ExitStatus)
    requires s.WellFormed() && p in s.jobs && p !in s.done && !s.Blocked(p) && !s.Contradicts(p, status)
    requires Midway(t, s, p, status, Waiters(Dependents(s.order, s.jobs, p)))
    ensures Represents(t, s.Finish(p, status))
  {
    hide Freed, MidTable, Schedule.Runnable, Schedule.Running, Schedule.WaitingTable, Schedule.Index;
    hide Schedule.WellFormed, Waiters;
    FinishWellFormed(s, p, status);
    FinishTables(s, p, status);
  }

  lemma MidwayRunning<Cmd, State>(t: Tables<Cmd, State>, s: Schedule<Cmd, State>,
                                  p: Pid, status: ExitStatus, visited: set<Pid>)
    requires Midway(t, s, p, status, visited)
    ensures t.running.Keys <= s.Running().Keys
  {
  }

  lemma NoWaiters<Cmd, State>(s: Schedule<Cmd, State>, p: Pid, ds: seq<(Condition, Pid)>)
    ensures Waiters(ds[..0]) == {} && s.Starts(ds[..0], p) == []
  {
  }

  /** What it means to be refused: some finished dependency has another status than the one expected. */
  lemma MismatchedExactly(done: map<Pid, ExitStatus>, blockFor: map<Pid, Condition>)
    ensures Mismatched(done, blockFor) <==>
              exists d :: d in blockFor && d in done && blockFor[d].Some? && blockFor[d].value != done[d]
  {
  }

  /** What it means to contradict a waiter: it expects the other status. */
  lemma ContradictsExactly<Cmd, State>(s: Schedule<Cmd, State>, p: Pid, status: ExitStatus)
    ensures s.Contradicts(p, status) <==>
              exists w :: w in s.jobs && p in s.jobs[w].blockFor
                && s.jobs[w].blockFor[p].Some? && s.jobs[w].blockFor[p].value != status
  {
  }

  /** Nobody contradicts `status` exactly when every entry of the reverse index is met by it. */
  lemma MetByAll<Cmd, State>(s: Schedule<Cmd, State>, p: Pid, status: ExitStatus, ds: seq<(Condition, Pid)>)
    requires s.WellFormed() && p in s.jobs && p !in s.done && !s.Blocked(p)
    requires ds == Dependents(s.order, s.jobs, p)
    ensures s.Contradicts(p, status) <==> exists e :: e in ds && !Met(e.0, status)
  {
    BlockedOnce(s, p);
    if s.Contradicts(p, status) {
      var w :| w in s.jobs && p in s.jobs[w].blockFor && !Met(s.jobs[w].blockFor[p], status);
      assert (s.jobs[w].blockFor[p], w) in ds;
    }
  }
}
