// What the moves of the system keep about the pipes that the frontend reads.

module SystemStreams {
  import opened Protocol
  import opened Driver
  import opened ClientSide
  import opened Interpretation
  import opened Plans
  import opened Requests
  import opened System
  import Pipes

  // --- Traffic ---

  function Word(r: Response, id: PipeId): Traffic {
    match r
    case PipeData(pipe, data) => if pipe == id then [Some(data)] else []
    case PipeClosed(pipe) => if pipe == id then [None] else []
    case _ => []
  }

  function Report(e: Event, id: PipeId): Traffic {
    match e
    case PipeOutput(pipe, data) => if pipe == id then [Some(data)] else []
    case PipeEnd(pipe) => if pipe == id then [None] else []
    case _ => []
  }

  lemma {:induction false} ToldPush(outbox: seq<Response>, r: Response, id: PipeId)
    ensures Told(outbox + [r], id) == Told(outbox, id) + Word(r, id)
  {
    hide Word;
    ToldNext(outbox + [r], id);
    if outbox == [] {
      assert (outbox + [r])[1..] == [];
    } else {
      ToldNext(outbox, id);
      assert (outbox + [r])[1..] == outbox[1..] + [r];
      ToldPush(outbox[1..], r, id);
    }
  }

  lemma ToldNext(outbox: seq<Response>, id: PipeId)
    requires outbox != []
    ensures Told(outbox, id) == Word(outbox[0], id) + Told(outbox[1..], id)
  {
  }

  lemma {:induction false} HeardPush(local: seq<Event>, e: Event, id: PipeId)
    ensures Heard(local + [e], id) == Heard(local, id) + Report(e, id)
  {
    hide Report;
    HeardNext(local + [e], id);
    if local == [] {
      assert (local + [e])[1..] == [];
    } else {
      HeardNext(local, id);
      assert (local + [e])[1..] == local[1..] + [e];
      HeardPush(local[1..], e, id);
    }
  }

  lemma HeardNext(local: seq<Event>, id: PipeId)
    requires local != []
    ensures Heard(local, id) == Report(local[0], id) + Heard(local[1..], id)
  {
  }

  /** Passing a report on to the frontend changes nothing that is under way. */
  lemma PassedOn(outbox: seq<Response>, local: seq<Event>, r: Response, id: PipeId)
    requires local != [] && Word(r, id) == Report(local[0], id)
    ensures Under(outbox + [r], local[1..], id) == Under(outbox, local, id)
  {
    hide Told, Heard, Word, Report;
    ToldPush(outbox, r, id);
    HeardNext(local, id);
  }

  lemma Said(outbox: seq<Response>, local: seq<Event>, r: Response, id: PipeId)
    requires Word(r, id) == []
    ensures Under(outbox + [r], local, id) == Under(outbox, local, id)
  {
    hide Told, Heard, Word;
    ToldPush(outbox, r, id);
    assert Told(outbox, id) + [] == Told(outbox, id);
  }

  lemma Arrived(outbox: seq<Response>, local: seq<Event>, id: PipeId)
    requires outbox != []
    ensures Under(outbox, local, id) == Word(outbox[0], id) + Under(outbox[1..], local, id)
  {
    hide Told, Heard, Word;
    ToldNext(outbox, id);
  }

  lemma UnderPush(outbox: seq<Response>, local: seq<Event>, e: Event, id: PipeId)
    ensures Under(outbox, local + [e], id) == Under(outbox, local, id) + Report(e, id)
  {
    hide Told, Heard, Report;
    HeardPush(local, e, id);
  }

  lemma {:induction false} DataPush(t: Traffic, w: Option<Bytes>)
    ensures DataOf(t + [w]) == DataOf(t) + if w.Some? then w.value else []
  {
    DataNext(t + [w]);
    if t == [] {
      assert (t + [w])[1..] == [];
    } else {
      DataNext(t);
      assert (t + [w])[1..] == t[1..] + [w];
      DataPush(t[1..], w);
    }
  }

  lemma DataNext(t: Traffic)
    requires t != []
    ensures DataOf(t) == (if t[0].Some? then t[0].value else []) + DataOf(t[1..])
  {
  }

  // --- One stream ---

  // A frontend that treats streams like `c`.
  predicate SameStreams(c: Client, d: Client) {
    && c.sent <= d.sent && d.gathering == c.gathering && d.finished == c.finished
    && d.stdoutPipes == c.stdoutPipes && d.stderrPipes == c.stderrPipes
  }

  lemma StreamReads(c: Client, inbox: seq<Request>, reading: set<PipeId>, t: Traffic, produced: Bytes, sofar: Bytes,
                    id: PipeId, data: Bytes)
    requires StreamAt(c, inbox, reading, t, false, produced, sofar, id) && id in reading
    ensures StreamAt(c, inbox, reading, t + [Some(data)], false, produced + data, sofar, id)
  {
    DataPush(t, Some(data));
  }

  lemma StreamEnds(c: Client, inbox: seq<Request>, reading: set<PipeId>, t: Traffic, produced: Bytes, sofar: Bytes,
                   id: PipeId)
    requires StreamAt(c, inbox, reading, t, false, produced, sofar, id) && id in reading
    ensures StreamAt(c, inbox, reading, t + [None], true, produced, sofar, id)
  {
    DataPush(t, None);
    assert t + [None] != [];
  }

  lemma StreamTakes(c: Client, inbox: seq<Request>, reading: set<PipeId>, t: Traffic, ended: bool, produced: Bytes,
                    sofar: Bytes, id: PipeId)
    requires StreamAt(c, inbox, reading, t, ended, produced, sofar, id)
    requires inbox != [] && (forall r :: r in inbox ==> r in c.sent)
    ensures var now := reading + if inbox[0].StartRead? then {inbox[0].pipe} else {};
            StreamAt(c, inbox[1..], now, t, ended, produced, sofar, id)
  {
    assert forall r :: r in inbox <==> r == inbox[0] || r in inbox[1..];
  }

  lemma StreamAnswered(c: Client, d: Client, inbox: seq<Request>, more: seq<Request>, reading: set<PipeId>,
                       t: Traffic, ended: bool, produced: Bytes, sofar: Bytes, id: PipeId)
    requires StreamAt(c, inbox, reading, t, ended, produced, sofar, id) && SameStreams(c, d)
    requires StartRead(id) !in more
    ensures StreamAt(d, inbox + more, reading, t, ended, produced, sofar, id)
  {
  }

  /** Data that arrives is welcome. */
  lemma StreamWelcome(c: Client, inbox: seq<Request>, reading: set<PipeId>, t: Traffic, ended: bool, produced: Bytes,
                      sofar: Bytes,
                      id: PipeId, data: Bytes)
    requires StreamAt(c, inbox, reading, [Some(data)] + t, ended, produced, sofar, id)
    ensures id in reading && Collects(c, id)
  {
    assert ([Some(data)] + t)[0] == Some(data);
  }

  /** The gathered bytes stay in step with those produced. */
  lemma StreamData(c: Client, d: Client, inbox: seq<Request>, reading: set<PipeId>, t: Traffic, ended: bool,
                   produced: Bytes, sofar: Bytes,
                   id: PipeId, data: Bytes)
    requires StreamAt(c, inbox, reading, [Some(data)] + t, ended, produced, sofar, id)
    requires d == c.(gathering := d.gathering, printed := d.printed, complained := d.complained)
    requires d.gathering == (if id in c.gathering then c.gathering[id := c.gathering[id] + data] else c.gathering)
    ensures StreamAt(d, inbox, reading, t, ended, produced, sofar + data, id)
  {
    var all := [Some(data)] + t;
    assert all[1..] == t;
    DataNext(all);
    assert sofar + (data + DataOf(t)) == sofar + data + DataOf(t);
    assert forall k :: 0 <= k < |t| ==> t[k] == all[k + 1];
    assert all[0] == Some(data);
    assert ended ==> t != [] && t[|t| - 1] == all[|all| - 1];
  }

  /** The end of a stream arrives after all its data. */
  lemma StreamClosed(c: Client, d: Client, inbox: seq<Request>, reading: set<PipeId>, t: Traffic, ended: bool,
                     produced: Bytes, sofar: Bytes,
                     id: PipeId)
    requires StreamAt(c, inbox, reading, [None] + t, ended, produced, sofar, id)
    requires d == c.(waitingForEof := d.waitingForEof, gathering := d.gathering, finished := d.finished)
    requires d.gathering == c.gathering - {id}
    requires d.finished == if id in c.gathering then c.finished[id := c.gathering[id]] else c.finished
    ensures id in reading && t == [] && ended
    ensures StreamAt(d, inbox, reading, t, ended, produced, sofar, id)
  {
    var all := [None] + t;
    assert all[0] == None;
    assert all[1..] == t;
    DataNext(all);
  }

  lemma StreamElsewhere(c: Client, d: Client, inbox: seq<Request>, reading: set<PipeId>, t: Traffic, ended: bool,
                        produced: Bytes, sofar: Bytes, id: PipeId)
    requires StreamAt(c, inbox, reading, t, ended, produced, sofar, id)
    requires d.sent == c.sent && d.stdoutPipes == c.stdoutPipes && d.stderrPipes == c.stderrPipes
    requires id in d.gathering <==> id in c.gathering
    requires id in d.gathering ==> d.gathering[id] == c.gathering[id]
    requires id in d.finished <==> id in c.finished
    requires id in d.finished ==> d.finished[id] == c.finished[id]
    ensures StreamAt(d, inbox, reading, t, ended, produced, sofar, id)
  {
  }

  /** What `Issued` says of the stream `id`; `cwd` is the new stream of the working directory. */
  lemma StreamPrompt(c: Client, d: Client, inbox: seq<Request>, more: seq<Request>, reading: set<PipeId>,
                     t: Traffic, ended: bool, produced: Bytes, sofar: Bytes, id: PipeId, cwd: PipeId)
    requires StreamAt(c, inbox, reading, t, ended, produced, sofar, id)
    requires d.sent == c.sent + more && c.stdoutPipes <= d.stdoutPipes && c.stderrPipes <= d.stderrPipes
    requires c.gathering == map[] && d.gathering == map[cwd := []] && d.finished.Keys <= c.finished.Keys
    requires id in d.finished ==> d.finished[id] == c.finished[id]
    requires id == cwd ==> id !in reading && StartRead(id) in more
    requires StartRead(id) in more ==> Collects(d, id)
    ensures StreamAt(d, inbox + more, reading, t, ended, produced, sofar, id)
  {
  }

  lemma StreamsHere(c: Client, inbox: seq<Request>, f: Feed, id: PipeId)
    requires Streams(c, inbox, f)
    ensures StreamOf(c, inbox, f, id)
  {
  }

  lemma StreamAsked(c: Client, inbox: seq<Request>, f: Feed, id: PipeId)
    requires Streams(c, inbox, f) && id in f.reading
    ensures StartRead(id) in c.sent
  {
    assert StreamOf(c, inbox, f, id);
  }

  // --- All streams ---

  lemma StreamsQuiet(c: Client, inbox: seq<Request>, f: Feed, r: Response)
    requires Streams(c, inbox, f) && !r.PipeData? && !r.PipeClosed?
    ensures Streams(c, inbox, f.(outbox := f.outbox + [r]))
  {
    hide StreamAt, Under;
    forall id: nat ensures StreamOf(c, inbox, f.(outbox := f.outbox + [r]), id) {
      assert StreamOf(c, inbox, f, id);
      Said(f.outbox, f.local, r, id);
    }
  }

  /** The driver passes on what a thread reported. */
  lemma StreamsPass(c: Client, inbox: seq<Request>, f: Feed, r: Response)
    requires Streams(c, inbox, f) && f.local != []
    requires match f.local[0]
             case Completed(p, code) => r == CommandDone(p, code)
             case PipeOutput(id, data) => r == PipeData(id, data)
             case PipeEnd(id) => r == PipeClosed(id)
             case _ => false
    ensures Streams(c, inbox, f.(outbox := f.outbox + [r], local := f.local[1..]))
  {
    hide StreamAt, Under;
    forall id: nat ensures StreamOf(c, inbox, f.(outbox := f.outbox + [r], local := f.local[1..]), id) {
      assert StreamOf(c, inbox, f, id);
      PassedOn(f.outbox, f.local, r, id);
    }
  }

  lemma StreamsReported(c: Client, inbox: seq<Request>, f: Feed, e: Event)
    requires Streams(c, inbox, f) && e.Completed?
    ensures Streams(c, inbox, f.(local := f.local + [e]))
  {
    hide StreamAt, Under;
    forall id: nat ensures StreamOf(c, inbox, f.(local := f.local + [e]), id) {
      assert StreamOf(c, inbox, f, id);
      UnderPush(f.outbox, f.local, e, id);
      assert Under(f.outbox, f.local, id) + [] == Under(f.outbox, f.local, id);
    }
  }

  lemma StreamsReads(c: Client, inbox: seq<Request>, f: Feed, pipe: PipeId, data: Bytes)
    requires Streams(c, inbox, f) && pipe in f.reading && pipe !in f.ended
    ensures Streams(c, inbox, f.(local := f.local + [PipeOutput(pipe, data)],
                                 produced := f.produced[pipe := BytesOf(f.produced, pipe) + data]))
  {
    hide StreamAt, Under, Only;
    var e, after := PipeOutput(pipe, data), f.produced[pipe := BytesOf(f.produced, pipe) + data];
    forall id: nat ensures StreamOf(c, inbox, f.(local := f.local + [e], produced := after), id) {
      assert StreamOf(c, inbox, f, id);
      UnderPush(f.outbox, f.local, e, id);
      var t := Under(f.outbox, f.local, id);
      if id == pipe {
        StreamReads(c, inbox, f.reading, t, BytesOf(f.produced, id), Only(f.delivered, {id}), id, data);
      } else {
        assert t + [] == t;
      }
    }
  }

  lemma StreamsEnds(c: Client, inbox: seq<Request>, f: Feed, pipe: PipeId)
    requires Streams(c, inbox, f) && pipe in f.reading && pipe !in f.ended
    ensures Streams(c, inbox, f.(local := f.local + [PipeEnd(pipe)], ended := f.ended + {pipe}))
  {
    hide StreamAt, Under, Only;
    var e := PipeEnd(pipe);
    forall id: nat ensures StreamOf(c, inbox, f.(local := f.local + [e], ended := f.ended + {pipe}), id) {
      assert StreamOf(c, inbox, f, id);
      UnderPush(f.outbox, f.local, e, id);
      var t := Under(f.outbox, f.local, id);
      if id == pipe {
        StreamEnds(c, inbox, f.reading, t, BytesOf(f.produced, id), Only(f.delivered, {id}), id);
      } else {
        assert t + [] == t;
      }
    }
  }

  /** The backend handles a request; the read that it may start is remembered. */
  lemma StreamsTake(c: Client, inbox: seq<Request>, f: Feed)
    requires Streams(c, inbox, f) && inbox != [] && (forall r :: r in inbox ==> r in c.sent)
    ensures Streams(c, inbox[1..], f.(reading := f.reading + if inbox[0].StartRead? then {inbox[0].pipe} else {}))
  {
    hide StreamAt, Under, Only;
    var now := f.reading + if inbox[0].StartRead? then {inbox[0].pipe} else {};
    forall id: nat ensures StreamOf(c, inbox[1..], f.(reading := now), id) {
      assert StreamOf(c, inbox, f, id);
      StreamTakes(c, inbox, f.reading, Under(f.outbox, f.local, id), id in f.ended, BytesOf(f.produced, id),
                  Only(f.delivered, {id}), id);
    }
  }

  /** The frontend receives a response that is not about a pipe. */
  lemma StreamsArrive(c: Client, d: Client, inbox: seq<Request>, more: seq<Request>, f: Feed)
    requires Streams(c, inbox, f) && f.outbox != []
    requires !f.outbox[0].PipeData? && !f.outbox[0].PipeClosed? && SameStreams(c, d)
    requires forall r :: r in more ==> !r.StartRead?
    ensures Streams(d, inbox + more, f.(outbox := f.outbox[1..]))
  {
    hide StreamAt, Under, Only;
    forall id: nat ensures StreamOf(d, inbox + more, f.(outbox := f.outbox[1..]), id) {
      assert StreamOf(c, inbox, f, id);
      Arrived(f.outbox, f.local, id);
      assert [] + Under(f.outbox[1..], f.local, id) == Under(f.outbox[1..], f.local, id);
      StreamAnswered(c, d, inbox, more, f.reading, Under(f.outbox, f.local, id), id in f.ended, BytesOf(f.produced, id),
                     Only(f.delivered, {id}), id);
    }
  }

  lemma DataDelivered(c: Client, inbox: seq<Request>, f: Feed, ok: bool)
    requires Streams(c, inbox, f) && f.outbox != [] && f.outbox[0].PipeData?
    requires forall r :: r in c.sent && r.StartRead? ==> r.pipe in c.pipes
    ensures var (id, data) := (f.outbox[0].pipe, f.outbox[0].data);
            && StartRead(id) in c.sent && Collects(c, id)
            && Deliver(c, f.outbox[0], ok).Returned?
            && (var d := Deliver(c, f.outbox[0], ok).value;
                && d == c.(gathering := d.gathering, printed := d.printed, complained := d.complained)
                && d.gathering
                   == (if id in c.gathering then c.gathering[id := c.gathering[id] + data] else c.gathering))
  {
    hide Under, Only;
    var (id, data) := (f.outbox[0].pipe, f.outbox[0].data);
    assert StreamOf(c, inbox, f, id);
    Arrived(f.outbox, f.local, id);
    StreamWelcome(c, inbox, f.reading, Under(f.outbox[1..], f.local, id), id in f.ended, BytesOf(f.produced, id),
                  Only(f.delivered, {id}), id, data);
    StreamAsked(c, inbox, f, id);
  }

  /** Data arrives: the frontend has a place for it. */
  lemma StreamsData(c: Client, inbox: seq<Request>, f: Feed, ok: bool)
    requires Streams(c, inbox, f) && f.outbox != [] && f.outbox[0].PipeData?
    requires forall r :: r in c.sent && r.StartRead? ==> r.pipe in c.pipes
    ensures Deliver(c, f.outbox[0], ok).Returned?
    ensures Streams(Deliver(c, f.outbox[0], ok).value, inbox,
                    f.(outbox := f.outbox[1..], delivered := f.delivered + [(f.outbox[0].pipe, f.outbox[0].data)]))
  {
    hide StreamAt, Under, Deliver, Only;
    var (pipe, data) := (f.outbox[0].pipe, f.outbox[0].data);
    DataDelivered(c, inbox, f, ok);
    var d := Deliver(c, f.outbox[0], ok).value;
    forall id: nat
      ensures StreamOf(d, inbox, f.(outbox := f.outbox[1..], delivered := f.delivered + [(pipe, data)]), id)
    {
      assert StreamOf(c, inbox, f, id);
      StreamDataAt(c, d, inbox, f, id);
    }
  }

  lemma OnlyPush(delivered: seq<(PipeId, Bytes)>, id: PipeId, data: Bytes, pipes: set<PipeId>)
    ensures Only(delivered + [(id, data)], pipes) == Only(delivered, pipes) + if id in pipes then data else []
  {
    assert (delivered + [(id, data)])[..|delivered|] == delivered;
  }

  lemma StreamDataAt(c: Client, d: Client, inbox: seq<Request>, f: Feed, id: PipeId)
    requires StreamOf(c, inbox, f, id) && f.outbox != [] && f.outbox[0].PipeData?
    requires d == c.(gathering := d.gathering, printed := d.printed, complained := d.complained)
    requires var (pipe, data) := (f.outbox[0].pipe, f.outbox[0].data);
             d.gathering == (if pipe in c.gathering then c.gathering[pipe := c.gathering[pipe] + data] else c.gathering)
    ensures var more := [(f.outbox[0].pipe, f.outbox[0].data)];
            StreamOf(d, inbox, f.(outbox := f.outbox[1..], delivered := f.delivered + more), id)
  {
    hide StreamAt, Under, Only;
    var (pipe, data) := (f.outbox[0].pipe, f.outbox[0].data);
    Arrived(f.outbox, f.local, id);
    OnlyPush(f.delivered, pipe, data, {id});
    var t := Under(f.outbox[1..], f.local, id);
    if id == pipe {
      StreamData(c, d, inbox, f.reading, t, id in f.ended, BytesOf(f.produced, id), Only(f.delivered, {id}), id, data);
    } else {
      assert [] + t == t && Only(f.delivered, {id}) + [] == Only(f.delivered, {id});
      StreamElsewhere(c, d, inbox, f.reading, t, id in f.ended, BytesOf(f.produced, id), Only(f.delivered, {id}), id);
    }
  }

  lemma CloseDelivered(c: Client, inbox: seq<Request>, f: Feed, ok: bool)
    requires Streams(c, inbox, f) && f.outbox != [] && f.outbox[0].PipeClosed?
    requires forall r :: r in c.sent && r.StartRead? ==> r.pipe in c.pipes
    ensures Deliver(c, f.outbox[0], ok).Returned?
    ensures var d := Deliver(c, f.outbox[0], ok).value; var id := f.outbox[0].closed;
            && d == c.(waitingForEof := c.waitingForEof - {id}, gathering := d.gathering, finished := d.finished)
            && d.gathering == c.gathering - {id}
            && d.finished == if id in c.gathering then c.finished[id := c.gathering[id]] else c.finished
  {
    hide Under, Only;
    var id := f.outbox[0].closed;
    assert StreamOf(c, inbox, f, id);
    Arrived(f.outbox, f.local, id);
    assert Under(f.outbox, f.local, id)[0] == None;
    StreamAsked(c, inbox, f, id);
  }

  /** The end of a pipe arrives: what was gathered is complete. */
  lemma StreamsClosed(c: Client, inbox: seq<Request>, f: Feed, ok: bool)
    requires Streams(c, inbox, f) && f.outbox != [] && f.outbox[0].PipeClosed?
    requires forall r :: r in c.sent && r.StartRead? ==> r.pipe in c.pipes
    ensures Deliver(c, f.outbox[0], ok).Returned?
    ensures Streams(Deliver(c, f.outbox[0], ok).value, inbox, f.(outbox := f.outbox[1..]))
  {
    hide StreamAt, Under, Deliver, Only;
    CloseDelivered(c, inbox, f, ok);
    var d := Deliver(c, f.outbox[0], ok).value;
    forall id: nat ensures StreamOf(d, inbox, f.(outbox := f.outbox[1..]), id) {
      assert StreamOf(c, inbox, f, id);
      Arrived(f.outbox, f.local, id);
      var t := Under(f.outbox[1..], f.local, id);
      if id == f.outbox[0].closed {
        StreamClosed(c, d, inbox, f.reading, t, id in f.ended, BytesOf(f.produced, id), Only(f.delivered, {id}), id);
      } else {
        assert [] + t == t;
        StreamElsewhere(c, d, inbox, f.reading, t, id in f.ended, BytesOf(f.produced, id), Only(f.delivered, {id}), id);
      }
    }
  }

  lemma StreamsPrompt(c: Client, d: Client, inbox: seq<Request>, more: seq<Request>, f: Feed, cwd: PipeId)
    requires Streams(c, inbox, f)
    requires d.sent == c.sent + more && c.stdoutPipes <= d.stdoutPipes && c.stderrPipes <= d.stderrPipes
    requires c.gathering == map[] && d.gathering == map[cwd := []] && d.finished.Keys <= c.finished.Keys
    requires forall id :: id in d.finished ==> d.finished[id] == c.finished[id]
    requires StartRead(cwd) in more && StartRead(cwd) !in c.sent
    requires forall r :: r in more && r.StartRead? ==> Collects(d, r.pipe)
    ensures Streams(d, inbox + more, f)
  {
    hide StreamAt, Under, Collects, Only;
    forall id: nat ensures StreamOf(d, inbox + more, f, id) {
      assert StreamOf(c, inbox, f, id);
      if id == cwd && id in f.reading { StreamAsked(c, inbox, f, id); }
      StreamPrompt(c, d, inbox, more, f.reading, Under(f.outbox, f.local, id), id in f.ended, BytesOf(f.produced, id),
                   Only(f.delivered, {id}), id, cwd);
    }
  }

  lemma ReadsAreOld(c: Client, id: PipeId)
    requires Sane(c) && StartRead(id) in c.sent
    ensures id < c.nextId
  {
    hide Pipes.ClashFree;
    RequestInAll(c.sent, StartRead(id), Pipes.ReadEnd(id));
  }

  lemma {:induction false} RequestInAll(reqs: seq<Request>, r: Request, op: Pipes.Op)
    requires r in reqs && op in RequestOps(r)
    ensures op in AllOps(reqs)
  {
    hide RequestOps;
    if r != reqs[|reqs| - 1] {
      assert r in reqs[..|reqs| - 1];
      RequestInAll(reqs[..|reqs| - 1], r, op);
    }
  }

  // --- Shown output ---

  lemma {:induction false} OnlyOld(delivered: seq<(PipeId, Bytes)>, pipes: set<PipeId>, more: set<PipeId>, nextId: nat)
    requires forall k :: 0 <= k < |delivered| ==> delivered[k].0 < nextId
    requires forall id :: id in more ==> nextId <= id
    ensures Only(delivered, pipes + more) == Only(delivered, pipes)
  {
    if delivered != [] {
      var rest := delivered[..|delivered| - 1];
      assert forall k :: 0 <= k < |rest| ==> rest[k] == delivered[k];
      OnlyOld(rest, pipes, more, nextId);
    }
  }

  lemma OutputData(c: Client, delivered: seq<(PipeId, Bytes)>, id: PipeId, data: Bytes, ok: bool)
    requires Output(c, delivered) && Collects(c, id) && id in c.pipes
    ensures Output(Deliver(c, PipeData(id, data), ok).value, delivered + [(id, data)])
  {
    hide Only;
    OnlyPush(delivered, id, data, c.stdoutPipes);
    OnlyPush(delivered, id, data, c.stderrPipes);
    assert Only(delivered, c.stdoutPipes) + [] == Only(delivered, c.stdoutPipes);
    assert Only(delivered, c.stderrPipes) + [] == Only(delivered, c.stderrPipes);
  }

  lemma OutputSame(c: Client, d: Client, delivered: seq<(PipeId, Bytes)>)
    requires Output(c, delivered) && d.printed == c.printed && d.complained == c.complained && d.nextId == c.nextId
    requires d.stdoutPipes == c.stdoutPipes && d.stderrPipes == c.stderrPipes && d.gathering.Keys <= c.gathering.Keys
    ensures Output(d, delivered)
  {
    hide Only;
  }

  lemma OutputPrompt(c: Client, settled: Client, d: Client, steps: seq<Step>, delivered: seq<(PipeId, Bytes)>)
    requires Output(c, delivered) && c.gathering == map[]
    requires settled == c.(cwdFor := settled.cwdFor, finished := settled.finished, workingDir := settled.workingDir)
    requires Issued(settled, d, steps)
    ensures Output(d, delivered)
  {
    hide AllOps, Pids, Sane, Only, Wires, Queries;
    var b :| Submits(settled, d, steps, b);
    var (o, e) := ({b.ids[0]}, {b.query.cmd.pipes.stderr, b.ids[1]});
    assert b.ids[0] in b.ids && b.ids[1] in b.ids;
    OnlyOld(delivered, c.stdoutPipes, o, c.nextId);
    OnlyOld(delivered, c.stderrPipes, e, c.nextId);
  }
}
