// The two loops over hash maps in `Machine::enqueue` (backend/src/machine.rs), which visit
// their keys in any order.

module Enqueueing {
  import opened Protocol
  import opened Scheduling
  import opened ScheduleLemmas

  /** The part of `blockFor` that is unfinished, `None` if a finished dependency
      mismatches, or a panic on an unknown one, whichever is met first. */
  method StillBlocking(finished: map<Pid, ExitStatus>, unfinished: set<Pid>, blockFor: map<Pid, Condition>)
    returns (out: Outcome<Option<map<Pid, Condition>>>)
    ensures out.Panicked? ==> exists d :: d in blockFor && d !in finished && d !in unfinished
    ensures out == Returned(None) ==>
              && Mismatched(finished, blockFor)
              && exists d :: d in blockFor && d in finished && blockFor[d].Some? && blockFor[d].value != finished[d]
    ensures out.Returned? && out.value.Some? ==>
              && (forall d :: d in blockFor ==> d in finished || d in unfinished)
              && !Mismatched(finished, blockFor)
              && (forall d :: d in blockFor && d in finished && blockFor[d].Some? ==> blockFor[d].value == finished[d])
              && out.value.value == map d | d in blockFor && d !in finished :: blockFor[d]
  {
    var still: map<Pid, Condition> := map[];
    var todo := blockFor.Keys;
    while todo != {}
      invariant todo <= blockFor.Keys
      invariant still == map d | d in blockFor.Keys - todo && d !in finished :: blockFor[d]
      invariant forall d :: d in blockFor && d !in todo ==> d in finished || d in unfinished
      invariant forall d :: d in blockFor && d !in todo && d in finished ==> Met(blockFor[d], finished[d])
      decreases todo
    {
      var existing :| existing in todo;
      var cond := blockFor[existing];
      if existing in finished {
        if cond.Some? && cond.value != finished[existing] {
          return Returned(None);
        }
      } else {
        if existing !in unfinished {
          return Panicked;
        }
        still := still[existing := cond];
      }
      todo := todo - {existing};
    }
    out := Returned(Some(still));
  }

  /** Appends the new waiter to the list of each process that it waits for. */
  method Register(index: map<Pid, seq<(Condition, Pid)>>, newPid: Pid, still: map<Pid, Condition>)
    returns (checkOnCompleted: map<Pid, seq<(Condition, Pid)>>)
    ensures checkOnCompleted == Pushed(index, still, still.Keys, newPid)
  {
    checkOnCompleted := index;
    var todo := still.Keys;
    assert checkOnCompleted == Pushed(index, still, still.Keys - todo, newPid);
    while todo != {}
      invariant todo <= still.Keys
      invariant checkOnCompleted == Pushed(index, still, still.Keys - todo, newPid)
      decreases todo
    {
      var existing :| existing in todo;
      var entry := if existing in checkOnCompleted then checkOnCompleted[existing] else [];
      checkOnCompleted := checkOnCompleted[existing := entry + [(still[existing], newPid)]];
      todo := todo - {existing};
    }
  }
}
