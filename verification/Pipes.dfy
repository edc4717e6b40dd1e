// The backend's pipe rendezvous table (`open_handles` in backend/src/exec.rs).
// Whichever side asks for a pipe first allocates it and parks the other end.

module Pipes {
  import opened Protocol

  // An operating-system object has a number; a pipe has two ends of the same number.
  datatype InEnd = PipeReader(os: nat) | FileReader(os: nat, path: string)
  datatype OutEnd = PipeWriter(os: nat) | FileWriter(os: nat, path: string)

  datatype Pair = Pair(read: Option<InEnd>, write: Option<OutEnd>)

  datatype Table = Table(handles: map<PipeId, Pair>, nextOs: nat)

  datatype Op =
    | ReadEnd(id: PipeId)
    | WriteEnd(id: PipeId)
    | OpenOutput(id: PipeId, path: string)
    | OpenInput(id: PipeId, path: string)

  // What the caller is handed.
  datatype End = In(input: InEnd) | Out(output: OutEnd) | Nothing

  function EmptyTable(): Table {
    Table(map[], 0)
  }

  function TakeRead(t: Table, id: PipeId): Outcome<(InEnd, Table)> {
    if id in t.handles then
      match t.handles[id].read
      case Some(e) => Returned((e, t.(handles := t.handles[id := t.handles[id].(read := None)])))
      case None => Panicked // expect("read side taken")
    else
      Returned((PipeReader(t.nextOs), Table(t.handles[id := Pair(None, Some(PipeWriter(t.nextOs)))], t.nextOs + 1)))
  }

  function TakeWrite(t: Table, id: PipeId): Outcome<(OutEnd, Table)> {
    if id in t.handles then
      match t.handles[id].write
      case Some(e) => Returned((e, t.(handles := t.handles[id := t.handles[id].(write := None)])))
      case None => Panicked // expect("write side taken")
    else
      Returned((PipeWriter(t.nextOs), Table(t.handles[id := Pair(Some(PipeReader(t.nextOs)), None)], t.nextOs + 1)))
  }

  function Perform(t: Table, op: Op): Outcome<(End, Table)> {
    match op
    case ReadEnd(id) =>
      (match TakeRead(t, id)
       case Returned((e, u)) => Returned((In(e), u))
       case Panicked => Panicked)
    case WriteEnd(id) =>
      (match TakeWrite(t, id)
       case Returned((e, u)) => Returned((Out(e), u))
       case Panicked => Panicked)
    case OpenOutput(id, path) =>
      if id in t.handles then Panicked
      else Returned((Nothing, Table(t.handles[id := Pair(None, Some(FileWriter(t.nextOs, path)))], t.nextOs + 1)))
    case OpenInput(id, path) =>
      if id in t.handles then Panicked
      else Returned((Nothing, Table(t.handles[id := Pair(Some(FileReader(t.nextOs, path)), None)], t.nextOs + 1)))
  }

  /** A whole run on a fresh table: what each operation was handed, and the final table. */
  function PerformAll(ops: seq<Op>): Outcome<(seq<End>, Table)> {
    if ops == [] then Returned(([], EmptyTable()))
    else
      match PerformAll(ops[..|ops| - 1])
      case Panicked => Panicked
      case Returned((ends, t)) =>
        match Perform(t, ops[|ops| - 1])
        case Panicked => Panicked
        case Returned((e, u)) => Returned((ends + [e], u))
  }

  /** `later` cannot follow `earlier`: it wants the same end, or an end the file
      behind the pipe does not have, or opens a file on a pipe already in use. */
  predicate Clashes(earlier: Op, later: Op) {
    earlier.id == later.id &&
    (|| later.OpenOutput? || later.OpenInput?
     || (later.ReadEnd? && (earlier.ReadEnd? || earlier.OpenOutput?))
     || (later.WriteEnd? && (earlier.WriteEnd? || earlier.OpenInput?)))
  }

  ghost predicate ClashFree(ops: seq<Op>) {
    forall i, j :: 0 <= i < j < |ops| ==> !Clashes(ops[i], ops[j])
  }

  /** The pipes in the order in which they were first mentioned; their
      operating-system numbers are allocated in that order. */
  ghost function Owners(ops: seq<Op>): seq<PipeId> {
    if ops == [] then []
    else
      var before, id := Owners(ops[..|ops| - 1]), ops[|ops| - 1].id;
      if id in before then before else before + [id]
  }

  ghost function Os(e: End): nat {
    match e
    case In(PipeReader(os)) => os
    case In(FileReader(os, _)) => os
    case Out(PipeWriter(os)) => os
    case Out(FileWriter(os, _)) => os
    case Nothing => 0
  }

  /** `e` is an end of the object of pipe `id`: of its file if one was opened, else of its pipe. */
  ghost predicate Belongs(ops: seq<Op>, id: PipeId, e: End) {
    && e != Nothing && Os(e) < |Owners(ops)| && Owners(ops)[Os(e)] == id
    && (match e
        case In(PipeReader(_)) => !exists path :: OpenInput(id, path) in ops
        case In(FileReader(_, p)) => OpenInput(id, p) in ops
        case Out(PipeWriter(_)) => !exists path :: OpenOutput(id, path) in ops
        case Out(FileWriter(_, p)) => OpenOutput(id, p) in ops)
  }

  ghost predicate Blocks(ops: seq<Op>, op: Op) {
    exists k :: 0 <= k < |ops| && Clashes(ops[k], op)
  }

  /** The table keeps, for each pipe in use, exactly the ends that can still be asked for. */
  ghost predicate Keeps(t: Table, ops: seq<Op>, id: PipeId) {
    && (id in t.handles <==> id in Owners(ops))
    && (id in t.handles ==>
          var p := t.handles[id];
          && (p.read.None? <==> Blocks(ops, ReadEnd(id)))
          && (p.write.None? <==> Blocks(ops, WriteEnd(id)))
          && (p.read.Some? ==> Belongs(ops, id, In(p.read.value)))
          && (p.write.Some? ==> Belongs(ops, id, Out(p.write.value))))
  }

  ghost predicate EndFor(ops: seq<Op>, op: Op, e: End) {
    && (op.ReadEnd? ==> e.In? && Belongs(ops, op.id, e))
    && (op.WriteEnd? ==> e.Out? && Belongs(ops, op.id, e))
    && (op.OpenOutput? || op.OpenInput? ==> e == Nothing)
  }

  ghost predicate Describes(t: Table, ends: seq<End>, ops: seq<Op>) {
    && |ends| == |ops|
    && t.nextOs == |Owners(ops)|
    && (forall id :: Keeps(t, ops, id))
    && (forall k :: 0 <= k < |ops| ==> EndFor(ops, ops[k], ends[k]))
  }

  lemma {:induction false} OwnersOnce(ops: seq<Op>)
    ensures forall i, j :: 0 <= i < j < |Owners(ops)| ==> Owners(ops)[i] != Owners(ops)[j]
    ensures forall id :: id in Owners(ops) <==> exists k :: 0 <= k < |ops| && ops[k].id == id
  {
    if ops != [] {
      OwnersOnce(ops[..|ops| - 1]);
    }
  }

  /** An operation panics exactly when it clashes with an earlier one. */
  lemma PerformOne(t: Table, ends: seq<End>, ops: seq<Op>, op: Op)
    requires Describes(t, ends, ops)
    ensures Perform(t, op).Panicked? <==> Blocks(ops, op)
  {
    OwnersOnce(ops);
    assert Keeps(t, ops, op.id);
    if op.OpenOutput? || op.OpenInput? {
      assert op.id in Owners(ops) <==> Blocks(ops, op);
    }
    assert op.id !in Owners(ops) ==> !Blocks(ops, op);
  }

  lemma OwnersStep(ops: seq<Op>, op: Op)
    ensures Owners(ops + [op]) == if op.id in Owners(ops) then Owners(ops) else Owners(ops) + [op.id]
    ensures forall o :: o in ops + [op] <==> o in ops || o == op
    ensures forall o :: Blocks(ops + [op], o) <==> Blocks(ops, o) || Clashes(op, o)
  {
    assert (ops + [op])[..|ops|] == ops;
    forall o ensures Blocks(ops + [op], o) <==> Blocks(ops, o) || Clashes(op, o) {
      if Blocks(ops, o) {
        var k :| 0 <= k < |ops| && Clashes(ops[k], o);
        assert (ops + [op])[k] == ops[k];
      }
      if Clashes(op, o) {
        assert (ops + [op])[|ops|] == op;
      }
    }
  }

  /** What belonged to a pipe still does after an operation that does not open a file on it. */
  lemma BelongsStep(ops: seq<Op>, op: Op, id: PipeId, e: End)
    requires Belongs(ops, id, e)
    requires op.id == id ==> op.ReadEnd? || op.WriteEnd?
    ensures Belongs(ops + [op], id, e)
  {
    OwnersStep(ops, op);
  }

  lemma PerformStep(t: Table, ends: seq<End>, ops: seq<Op>, op: Op)
    requires Describes(t, ends, ops) && Perform(t, op).Returned?
    ensures var (e, u) := Perform(t, op).value; Describes(u, ends + [e], ops + [op])
  {
    var (e, u) := Perform(t, op).value;
    OwnersOnce(ops);
    OwnersStep(ops, op);
    PerformOne(t, ends, ops, op);
    assert Keeps(t, ops, op.id);
    forall id ensures Keeps(u, ops + [op], id) {
      if id == op.id { KeepsHere(t, ends, ops, op); } else { KeepsElsewhere(t, ops, op, u, id); }
    }
    forall k | 0 <= k < |ops| ensures EndFor(ops + [op], ops[k], ends[k]) {
      assert EndFor(ops, ops[k], ends[k]);
      assert !Clashes(ops[k], op);
      if ops[k].ReadEnd? || ops[k].WriteEnd? { BelongsStep(ops, op, ops[k].id, ends[k]); }
    }
    EndForHere(t, ends, ops, op);
    forall k | 0 <= k <= |ops| ensures EndFor(ops + [op], (ops + [op])[k], (ends + [e])[k]) {
      if k < |ops| { assert EndFor(ops + [op], ops[k], ends[k]); }
    }
  }

  lemma KeepsElsewhere(t: Table, ops: seq<Op>, op: Op, u: Table, id: PipeId)
    requires Keeps(t, ops, id) && id != op.id
    requires id in u.handles <==> id in t.handles
    requires id in u.handles ==> u.handles[id] == t.handles[id]
    ensures Keeps(u, ops + [op], id)
  {
    OwnersStep(ops, op);
    if id in t.handles {
      var p := t.handles[id];
      if p.read.Some? { BelongsStep(ops, op, id, In(p.read.value)); }
      if p.write.Some? { BelongsStep(ops, op, id, Out(p.write.value)); }
    }
  }

  lemma KeepsHere(t: Table, ends: seq<End>, ops: seq<Op>, op: Op)
    requires Describes(t, ends, ops) && Perform(t, op).Returned? && !Blocks(ops, op)
    ensures Keeps(Perform(t, op).value.1, ops + [op], op.id)
  {
    assert Keeps(t, ops, op.id);
    OwnersOnce(ops);
    OwnersStep(ops, op);
    if op.id !in t.handles {
      Fresh(ops, op);
    }
  }

  lemma EndForHere(t: Table, ends: seq<End>, ops: seq<Op>, op: Op)
    requires Describes(t, ends, ops) && Perform(t, op).Returned? && !Blocks(ops, op)
    ensures EndFor(ops + [op], op, Perform(t, op).value.0)
  {
    assert Keeps(t, ops, op.id);
    OwnersStep(ops, op);
    if op.id in t.handles {
      if op.ReadEnd? { BelongsStep(ops, op, op.id, In(t.handles[op.id].read.value)); }
      if op.WriteEnd? { BelongsStep(ops, op, op.id, Out(t.handles[op.id].write.value)); }
    } else {
      Fresh(ops, op);
    }
  }

  /** A pipe that was never mentioned before. */
  lemma Fresh(ops: seq<Op>, op: Op)
    requires op.id !in Owners(ops)
    ensures !Blocks(ops, ReadEnd(op.id)) && !Blocks(ops, WriteEnd(op.id))
    ensures forall path :: OpenInput(op.id, path) !in ops && OpenOutput(op.id, path) !in ops
  {
    OwnersOnce(ops);
  }

  lemma {:induction false} RunDescribed(ops: seq<Op>)
    ensures PerformAll(ops).Panicked? <==> !ClashFree(ops)
    ensures PerformAll(ops).Returned? ==> Describes(PerformAll(ops).value.1, PerformAll(ops).value.0, ops)
  {
    if ops != [] {
      var before, op := ops[..|ops| - 1], ops[|ops| - 1];
      assert ops == before + [op];
      RunDescribed(before);
      ClashFreeStep(before, op);
      if PerformAll(before).Returned? {
        var (ends, t) := PerformAll(before).value;
        PerformOne(t, ends, before, op);
        if Perform(t, op).Returned? {
          PerformStep(t, ends, before, op);
        }
      }
    }
  }

  lemma ClashFreeStep(ops: seq<Op>, op: Op)
    ensures ClashFree(ops + [op]) <==> ClashFree(ops) && !Blocks(ops, op)
  {
    var all := ops + [op];
    if ClashFree(all) {
      forall i, j | 0 <= i < j < |ops| ensures !Clashes(ops[i], ops[j]) {
        assert all[i] == ops[i] && all[j] == ops[j];
      }
      forall k | 0 <= k < |ops| ensures !Clashes(ops[k], op) {
        assert all[k] == ops[k] && all[|ops|] == op;
      }
    }
  }

  /** In every run that does not clash, the reader and the writer of a pipe hold the two
      ends of one object whichever came first, no end is handed out twice, and a
      pipe on which a file was opened delivers that file. */
  lemma Rendezvous(ops: seq<Op>)
    requires ClashFree(ops)
    ensures PerformAll(ops).Returned? && |PerformAll(ops).value.0| == |ops|
    ensures var ends := PerformAll(ops).value.0;
            && (forall i, j | 0 <= i < |ops| && 0 <= j < |ops| && ops[i].id == ops[j].id ::
                  ops[i].ReadEnd? && ops[j].WriteEnd? ==>
                  ends[i] == In(PipeReader(Os(ends[i]))) && ends[j] == Out(PipeWriter(Os(ends[i]))))
            && (forall i, j :: 0 <= i < j < |ops| && ends[i] != Nothing ==> ends[i] != ends[j])
            && (forall i, j | 0 <= i < j < |ops| && ops[i].id == ops[j].id ::
                  ops[i].OpenOutput? && ops[j].WriteEnd? ==>
                  ends[j] == Out(FileWriter(Os(ends[j]), ops[i].path)))
            && (forall i, j :: 0 <= i < j < |ops| && ops[i].OpenInput? && ops[j].ReadEnd? && ops[i].id == ops[j].id ==>
                  ends[j] == In(FileReader(Os(ends[j]), ops[i].path)))
  {
    RunDescribed(ops);
    OwnersOnce(ops);
    var (ends, t) := PerformAll(ops).value;
    forall k | 0 <= k < |ops| ensures EndFor(ops, ops[k], ends[k]) {}
    forall i, j | 0 <= i < |ops| && 0 <= j < |ops| && ops[i].id == ops[j].id && i != j
      ensures ops[i].OpenOutput? || ops[i].OpenInput? ==> ops[j].ReadEnd? || ops[j].WriteEnd?
      ensures !(ops[i].ReadEnd? && ops[j].ReadEnd?) && !(ops[i].WriteEnd? && ops[j].WriteEnd?)
      ensures !(ops[i].ReadEnd? && ops[j].OpenOutput?) && !(ops[i].WriteEnd? && ops[j].OpenInput?)
    {
      assert !Clashes(if i < j then ops[i] else ops[j], if i < j then ops[j] else ops[i]);
    }
  }
}
