/**
 * Recycling is invisible: the engine, with its reused ids and reused buffers, does step for step
 * what the ticket machine does. The witness of the simulation is the slot vector itself.
 */
module Simulation {
  import opened Basics
  import opened BufferRing
  import opened WorkPools
  import opened Engine
  import opened Routing
  import opened Buffers
  import opened Tickets
  import Receives

  predicate SameRequests(p: Pool, requests: seq<Request>) {
    && |p.objs| == |requests|
    && forall o: nat :: o < |requests| ==> requests[o] == Request(p.objs[o].kind, p.objs[o].stream, p.objs[o].fn)
  }

  /** Each id, looked up in the slots now, gives the ticket the abstract machine wrote down. */
  predicate SameEntries(p: Pool, q: seq<Sqe>, tq: seq<Entry>) {
    && |q| == |tq|
    && forall i :: 0 <= i < |q| ==> Lookup(p, q[i].id) == Some(tq[i].ticket) && q[i].op == tq[i].op
  }

  predicate SameCompletions(p: Pool, q: seq<Cqe>, tq: seq<Completion>) {
    && |q| == |tq|
    && forall j :: 0 <= j < |q| ==>
         Lookup(p, q[j].id) == Some(tq[j].ticket) && q[j].res == tq[j].res
  }

  /** The bytes a completion refers to are still in its buffer. */
  predicate SameBytes(mem: Memory, c: Cqe, tc: Completion)
    requires MemoryOk(mem)
  {
    match c.bid
    case None => tc.data == []
    case Some(b) => b < BUFFERS && 0 <= c.res <= BUFFER_SIZE && View(mem, b, c.res) == tc.data
  }

  predicate SameData(mem: Memory, q: seq<Cqe>, tq: seq<Completion>)
    requires MemoryOk(mem)
  {
    && |q| == |tq|
    && forall j :: 0 <= j < |q| ==> SameBytes(mem, q[j], tq[j])
  }

  function TicketsWaiting(b: Book): seq<Completion> {
    if b.phase.Settled? && b.cq != [] then b.cq[1..] else b.cq
  }

  function TicketsHolding(b: Book): seq<Completion> {
    if (b.phase.Returned? || b.phase.Settled?) && b.cq != [] then b.cq[1..] else b.cq
  }

  predicate Sim(s: State, b: Book) {
    && StateOk(s)
    && b.cap == s.cap && b.halt == s.halt && b.phase == s.phase && b.log == s.log
    && b.buffers == Exposed(s.ring)
    && |b.cq| == |s.cq|
    && SameRequests(s.pool, b.requests)
    && SameEntries(s.pool, s.sq, b.sq)
    && SameEntries(s.pool, s.kernel, b.kernel)
    && SameCompletions(s.pool, Waiting(s), TicketsWaiting(b))
    && SameData(s.mem, Holding(s), TicketsHolding(b))
  }

  // ---------------------------------------------------------------------------------------------
  // Submission

  lemma FlushSim(s: State, b: Book, f: FlushResult)
    requires Sim(s, b)
    ensures Sim(Flush(s, f), FlushBook(b, f))
  {
  }

  lemma RoomSim(s: State, b: Book, retry: FlushResult)
    requires Sim(s, b) && s.halt == No
    ensures Sim(GetSqe(s, retry), MakeRoom(b, retry))
  {
    FlushSim(s, b, retry);
  }

  lemma PrepareSim(s: State, b: Book, e: Sqe, te: Entry)
    requires Sim(s, b) && Lookup(s.pool, e.id) == Some(te.ticket) && e.op == te.op
    ensures Sim(Prepare(s, e), b.(sq := b.sq + [te]))
  {
  }

  lemma SubmitSim(s: State, b: Book, o: nat, fl: Flushes)
    requires Sim(s, b) && s.halt == No && PoolOk(s.pool)
    requires o < |s.pool.objs| && s.pool.objs[o].inUse && s.pool.objs[o].kind != Unknown && ItemOk(s.pool.objs[o])
    ensures Sim(Submit(s, o, fl), Queue(b, o, fl))
  {
    RoomSim(s, b, fl.retry);
    var s1, b1 := GetSqe(s, fl.retry), MakeRoom(b, fl.retry);
    var it := s.pool.objs[o];
    if s1.halt == No {
      assert HomeOk(s.pool, o);
      var e, te := Sqe(it.id, OpFor(it)), Entry(o, OpOf(b.requests[o]));
      PrepareSim(s1, b1, e, te);
      FlushSim(Prepare(s1, e), b1.(sq := b1.sq + [te]), fl.last);
    }
  }

  /** References survive a change of pool that leaves the slots of pending ids alone. */
  lemma RefsSurvive(s: State, b: Book, p': Pool)
    requires Sim(s, b)
    requires forall id: nat :: Lookup(s.pool, id).Some? ==> Lookup(p', id) == Lookup(s.pool, id)
    ensures SameEntries(p', s.sq, b.sq) && SameEntries(p', s.kernel, b.kernel)
    ensures SameCompletions(p', Waiting(s), TicketsWaiting(b))
  {
  }

  lemma AcquireSim(s: State, b: Book, stream: bool)
    requires Sim(s, b) && PoolOk(s.pool) && UserTurn(s)
    ensures Sim(s.(pool := Alloc(s.pool, stream)), AddRequest(b, Request(Unknown, stream, 0)))
  {
    var p' := Alloc(s.pool, stream);
    AllocOk(s.pool, stream);
    RefsSurvive(s, b, p');
    forall o: nat | o < |s.pool.objs|
      ensures p'.objs[o] == s.pool.objs[o]
    {
      assert p'.objs[o] == p'.objs[..|s.pool.objs|][o];
    }
  }

  lemma AssignSim(s: State, b: Book, o: nat, kind: Kind, fn: nat)
    requires Sim(s, b) && o < |s.pool.objs|
    ensures Sim(s.(pool := Assign(s.pool, o, kind, AltFor(kind), fn)),
                b.(requests := b.requests[o := Request(kind, b.requests[o].stream, fn)]))
  {
    RefsSurvive(s, b, Assign(s.pool, o, kind, AltFor(kind), fn));
  }

  /** An unsubmitted ticket becomes a request. */
  lemma FirstSubmitSim(s: State, b: Book, o: nat, kind: Kind, fn: nat, fl: Flushes)
    requires Sim(s, b) && s.halt == No && PoolOk(s.pool) && o < |s.pool.objs| && Fits(s.pool.objs[o], kind)
    ensures Sim(AssignAndSubmit(s, o, kind, fn, fl),
                Queue(b.(requests := b.requests[o := Request(kind, b.requests[o].stream, fn)]), o, fl))
  {
    var s1 := s.(pool := Assign(s.pool, o, kind, AltFor(kind), fn));
    AssignOk(s.pool, o, kind, AltFor(kind), fn);
    AssignSim(s, b, o, kind, fn);
    SubmitSim(s1, b.(requests := b.requests[o := Request(kind, b.requests[o].stream, fn)]), o, fl);
  }

  /** Adding a ticket and giving it its kind at once is adding the request. */
  lemma AddedAtOnce(b: Book, kind: Kind, stream: bool, fn: nat)
    ensures var b1 := AddRequest(b, Request(Unknown, stream, 0)); var o := |b.requests|;
      b1.(requests := b1.requests[o := Request(kind, b1.requests[o].stream, fn)])
      == AddRequest(b, Request(kind, stream, fn))
  {
    assert (b.requests + [Request(Unknown, stream, 0)])[|b.requests| := Request(kind, stream, fn)]
           == b.requests + [Request(kind, stream, fn)];
  }

  lemma AllocFits(p: Pool, stream: bool, kind: Kind)
    requires PoolOk(p) && kind != Unknown
    ensures var p' := Alloc(p, stream);
      PoolOk(p') && |p'.objs| == |p.objs| + 1 && Fits(p'.objs[|p.objs|], kind)
  {
    AllocOk(p, stream);
  }

  lemma StartSim(s: State, b: Book, kind: Kind, stream: bool, fn: nat, fl: Flushes)
    requires Sim(s, b) && s.halt == No && PoolOk(s.pool) && UserTurn(s) && kind in {Accept, Connect, Recv, Close}
    ensures Sim(Start(s, kind, stream, fn, fl),
                Queue(AddRequest(b, Request(kind, stream, fn)), |b.requests|, fl))
  {
    AllocFits(s.pool, stream, kind);
    AcquireSim(s, b, stream);
    AddedAtOnce(b, kind, stream, fn);
    FirstSubmitSim(s.(pool := Alloc(s.pool, stream)), AddRequest(b, Request(Unknown, stream, 0)),
                   |s.pool.objs|, kind, fn, fl);
  }

  // ---------------------------------------------------------------------------------------------
  // The kernel

  /** A fill of an exposed buffer disturbs no completion that waits to be read. */
  lemma FillSim(s: State, b: Book, bid: nat, data: seq<Byte>)
    requires Sim(s, b) && Partitioned(s) && bid < BUFFERS && |data| <= BUFFER_SIZE && bid in WindowSet(s)
    ensures SameData(Fill(s.mem, bid, data), Holding(s), TicketsHolding(b))
  {
    var q, tq := Holding(s), TicketsHolding(b);
    forall j | 0 <= j < |q|
      ensures SameBytes(Fill(s.mem, bid, data), q[j], tq[j])
    {
      assert SameBytes(s.mem, q[j], tq[j]);
      if q[j].bid.Some? {
        BidsContain(q, j);
        assert q[j].bid.value in Held(s);
        OwnedOnce(s, bid);
        FillThenView(s.mem, bid, data, q[j].bid.value, q[j].res);
      }
    }
  }

  lemma PostSim(s: State, b: Book, k: nat, res: int, more: bool, data: seq<Byte>)
    requires Sim(s, b) && Inv(s) && Partitioned(s) && s.halt == No
    requires k < |s.kernel| && MayPost(s.kernel[k].op, Exposed(s.ring), res, more, data)
    ensures Sim(Post(s, k, res, more, data), Complete(b, k, res, more, data))
  {
    var s' := Post(s, k, res, more, data);
    var b' := Complete(b, k, res, more, data);
    var c, tc := s'.cq[|s.cq|], b'.cq[|b.cq|];
    assert s'.cq == s.cq + [c] && b'.cq == b.cq + [tc];
    var withBuffer := IsRecvOp(s.kernel[k].op) && res >= 0;
    var bid := s.ring.entries[s.ring.head % BUFFERS];
    if withBuffer {
      ExposedBuffer(s, bid);
      FillThenView(s.mem, bid, data, bid, 0);
      FillSim(s, b, bid, data);
      ExposedSteps(s.ring);
    }
    assert SameBytes(s'.mem, c, tc);
    assert SameEntries(s.pool, s'.kernel, b'.kernel);
    AppendSim(s, b, s', b', c, tc);
  }

  lemma ExposedBuffer(s: State, bid: nat)
    requires Partitioned(s) && Exposed(s.ring) > 0 && bid == s.ring.entries[s.ring.head % BUFFERS]
    ensures bid in WindowSet(s) && bid < BUFFERS
  {
    assert Window(s.ring)[0] == bid;
    OwnedOnce(s, bid);
  }

  /** A completion appended on both sides. */
  lemma AppendSim(s: State, b: Book, s': State, b': Book, c: Cqe, tc: Completion)
    requires Sim(s, b) && PhaseOk(s) && StateOk(s')
    requires s'.cq == s.cq + [c] && b'.cq == b.cq + [tc]
    requires s' == s.(kernel := s'.kernel, cq := s'.cq, ring := s'.ring, mem := s'.mem, posted := s'.posted)
    requires b' == b.(kernel := b'.kernel, cq := b'.cq, buffers := b'.buffers)
    requires b'.buffers == Exposed(s'.ring) && SameEntries(s.pool, s'.kernel, b'.kernel)
    requires Lookup(s.pool, c.id) == Some(tc.ticket) && c.res == tc.res
    requires SameBytes(s'.mem, c, tc) && SameData(s'.mem, Holding(s), TicketsHolding(b))
    ensures Sim(s', b')
  {
    HoldingAppend(s, s', c);
    PhaseSurvivesPost(s, s', c);
    assert TicketsWaiting(b') == TicketsWaiting(b) + [tc] by {
      if b.cq != [] { assert (b.cq + [tc])[1..] == b.cq[1..] + [tc]; }
    }
    assert TicketsHolding(b') == TicketsHolding(b) + [tc] by {
      if b.cq != [] { assert (b.cq + [tc])[1..] == b.cq[1..] + [tc]; }
    }
    assert SameCompletions(s.pool, Waiting(s) + [c], TicketsWaiting(b) + [tc]);
    assert SameData(s'.mem, Holding(s) + [c], TicketsHolding(b) + [tc]);
  }

  // ---------------------------------------------------------------------------------------------
  // The poll

  /** The completion at the head and its abstract image speak of the same live item. */
  lemma HeadFacts(s: State, b: Book)
    requires Sim(s, b) && Inv(s) && s.phase == Idle && s.cq != []
    ensures var c, tc := s.cq[0], b.cq[0]; var o := tc.ticket;
      && Lookup(s.pool, c.id) == Some(o) && o < |s.pool.objs| && s.pool.objs[o].inUse
      && s.pool.objs[o].kind != Unknown && ItemOk(s.pool.objs[o])
      && c.res == tc.res && SameBytes(s.mem, c, tc)
      && (c.bid.Some? <==> s.pool.objs[o].kind == Recv && c.res >= 0)
  {
    assert s.cq[0] in Waiting(s) && CompletionOk(s.pool, s.cq[0]);
    assert Lookup(s.pool, Waiting(s)[0].id) == Some(TicketsWaiting(b)[0].ticket);
    assert SameBytes(s.mem, Holding(s)[0], TicketsHolding(b)[0]);
    assert SlotOk(s.pool, s.cq[0].id);
  }

  lemma DispatchSim(s: State, b: Book)
    requires Sim(s, b) && Inv(s) && Partitioned(s) && s.halt == No && s.phase == Idle && s.cq != []
    ensures b.cq[0].ticket < |b.requests| && b.requests[b.cq[0].ticket].kind != Unknown
    ensures Sim(Dispatch(s), Serve(b, b.cq[0]))
  {
    HeadFacts(s, b);
    OwnedOnce(s, 0);
    LookupSim(s, b);
  }

  lemma LookupSim(s: State, b: Book)
    requires Sim(s, b) && s.halt == No && s.phase == Idle && s.cq != [] && Exposed(s.ring) <= EXPOSED_AT_START
    requires var c, tc := s.cq[0], b.cq[0]; var o := tc.ticket;
      && Lookup(s.pool, c.id) == Some(o) && o < |s.pool.objs| && s.pool.objs[o].inUse
      && s.pool.objs[o].kind != Unknown && ItemOk(s.pool.objs[o])
      && c.res == tc.res && SameBytes(s.mem, c, tc)
      && (c.bid.Some? <==> s.pool.objs[o].kind == Recv && c.res >= 0)
    ensures Sim(Dispatch(s), Serve(b, b.cq[0]))
  {
    var c, tc := s.cq[0], b.cq[0];
    var s1 := s.(dispatched := s.dispatched + [c]);
    assert Sim(s1, b);
    if c.res == -ENOBUFS {
      TailSim(s1, b, Dispatch(s), b.(phase := Settled));
    } else {
      ServeSim(s1, b, tc.ticket, c, tc);
    }
  }

  /** With the head done for on both sides, the rest of the queues still agrees. */
  lemma TailSim(s: State, b: Book, s': State, b': Book)
    requires Sim(s, b) && s.cq != [] && !s.phase.Settled?
    requires s'.phase.Settled? || s'.phase.Returned?
    requires StateOk(s') && s'.mem == s.mem
    requires s' == s.(phase := s'.phase, ring := s'.ring, stranded := s'.stranded)
    requires b' == b.(phase := s'.phase, buffers := Exposed(s'.ring))
    ensures Sim(s', b')
  {
    var w, tw := Waiting(s), TicketsWaiting(b);
    assert SameCompletions(s.pool, w, tw) && SameCompletions(s.pool, w[1..], tw[1..]);
    var h, th := Holding(s), TicketsHolding(b);
    if h == s.cq {
      assert SameData(s.mem, h[1..], th[1..]);
    }
  }

  lemma ServeSim(s: State, b: Book, o: nat, c: Cqe, tc: Completion)
    requires Sim(s, b) && s.halt == No && s.phase == Idle && s.cq != [] && c == s.cq[0] && tc == b.cq[0]
    requires o < |s.pool.objs| && tc.ticket == o && s.pool.objs[o].kind != Unknown && ItemOk(s.pool.objs[o])
    requires c.res == tc.res && SameBytes(s.mem, c, tc) && c.res != -ENOBUFS
    requires c.bid.Some? <==> s.pool.objs[o].kind == Recv && c.res >= 0
    requires Exposed(s.ring) <= EXPOSED_AT_START
    ensures Sim(DispatchItem(s, o, c), Serve(b, tc))
  {
    var s', b' := DispatchItem(s, o, c), Serve(b, tc);
    assert b.requests[o] == Request(s.pool.objs[o].kind, s.pool.objs[o].stream, s.pool.objs[o].fn);
    Receives.JudgedByBytes(tc.data);
    ExposedSteps(Add(s.ring, BidOf(c), 0));
    if s'.phase.Returned? {
      TailSim(s, b, s', b');
    } else {
      assert s'.ring == s.ring && b'.buffers == b.buffers;
      assert s'.phase == b'.phase && s'.log == b'.log && s'.halt == b'.halt;
      assert Waiting(s') == Waiting(s) && Holding(s') == Holding(s);
      assert TicketsWaiting(b') == TicketsWaiting(b) && TicketsHolding(b') == TicketsHolding(b);
    }
  }

  lemma ReturnSim(s: State, b: Book, answer: Answer)
    requires Sim(s, b) && Inv(s) && Partitioned(s) && s.halt == No && s.phase.InCallback?
    ensures Sim(Return(s, s.phase.obj, answer), Finish(b, b.phase.obj, answer))
  {
    OwnedOnce(s, BidOf(s.cq[0]));
    ExposedSteps(Add(s.ring, BidOf(s.cq[0]), 0));
    TailSim(s, b, Return(s, s.phase.obj, answer), Finish(b, b.phase.obj, answer));
  }

  lemma FreeSim(s: State, b: Book, fl: Flushes)
    requires Sim(s, b) && Inv(s) && s.halt == No && s.phase.Returned? && s.phase.action == FreeItem
    requires Pending(s)[s.cq[0].id] == 1
    ensures Sim(Settle(s, s.phase.obj, FreeItem, fl), b.(phase := Settled))
  {
    var id := s.cq[0].id;
    FreeOk(s.pool, id);
    NotElsewhere(s, id);
    var p' := Free(s.pool, id);
    assert SameCompletions(s.pool, Waiting(s), TicketsWaiting(b));
    assert SameCompletions(p', s.cq[1..], b.cq[1..]) by {
      forall j | 0 <= j < |s.cq[1..]|
        ensures Lookup(p', s.cq[1..][j].id) == Some(b.cq[1..][j].ticket)
      {
        assert Waiting(s)[j + 1] == s.cq[1..][j] && TicketsWaiting(b)[j + 1] == b.cq[1..][j];
        assert s.cq[1..][j] in s.cq[1..];
      }
    }
    assert SameEntries(p', s.sq, b.sq);
    assert SameEntries(p', s.kernel, b.kernel);
    assert SameRequests(p', b.requests);
  }

  /** An id pending once, at the head, is the id of nothing else. */
  lemma NotElsewhere(s: State, id: nat)
    requires s.cq != [] && !s.phase.Settled? && s.cq[0].id == id && Pending(s)[id] == 1
    ensures forall e :: e in s.sq || e in s.kernel ==> e.id != id
    ensures forall c :: c in s.cq[1..] ==> c.id != id
  {
    CompletionIdsTail(s.cq);
    var rest := Traffic(s.pool, Entries(s), s.cq[1..], s.stranded);
    assert Pending(s) == PendingIn(rest) + multiset{id};
    forall e | e in s.sq || e in s.kernel
      ensures e.id != id
    {
      assert e in Entries(s);
      EntryPends(rest, e);
    }
    forall c | c in s.cq[1..]
      ensures c.id != id
    {
      CompletionPends(rest, c);
    }
  }

  lemma RearmSim(s: State, b: Book, fl: Flushes)
    requires Sim(s, b) && Inv(s) && s.halt == No && s.phase.Returned? && s.phase.action == Rearm
    ensures Sim(Settle(s, s.phase.obj, Rearm, fl), Conclude(b, b.phase.obj, Rearm, fl))
  {
    var o := s.phase.obj;
    assert SlotOk(s.pool, s.cq[0].id) && ItemOk(s.pool.objs[o]);
    SubmitSim(s, b, o, fl);
  }

  /** Between states that agree, the two machines allow the same events. */
  lemma EnabledIffPossible(s: State, b: Book, e: Event)
    requires Sim(s, b) && Inv(s)
    ensures Enabled(s, e) <==> Possible(b, e)
  {
    if e.PollBegins? && s.phase == Idle && s.cq != [] {
      HeadFacts(s, b);
    }
  }

  /** One step of the engine is one step of the ticket machine, and keeps the two alike. */
  lemma StepSim(s: State, b: Book, e: Event)
    requires Sim(s, b) && Inv(s) && Partitioned(s) && !StaleFree(s, e)
    ensures Enabled(s, e) <==> Possible(b, e)
    ensures Enabled(s, e) ==> Sim(Step(s, e), Next(b, e))
  {
    EnabledIffPossible(s, b, e);
    if Enabled(s, e) {
      match e
      case StartRequest(kind, stream, fn, fl) => StartSim(s, b, kind, stream, fn, fl);
      case AcquireSend(stream) => AcquireSim(s, b, stream);
      case SubmitSend(o, packet, fn, fl) =>
        assert ItemOk(s.pool.objs[o]);
        FirstSubmitSim(s, b, o, if packet then SendWorkPacket else SendStreamData, fn, fl);
      case KernelPosts(k, res, more, data) => PostSim(s, b, k, res, more, data);
      case PollFails =>
      case PollBegins => if s.cq != [] { DispatchSim(s, b); }
      case CallbackReturns(answer) => ReturnSim(s, b, answer);
      case PollSettles(fl) => SettleSim(s, b, fl);
      case PollAdvances =>
        assert Waiting(Step(s, e)) == Waiting(s) && Holding(Step(s, e)) == Holding(s);
    }
  }

  lemma SettleSim(s: State, b: Book, fl: Flushes)
    requires Sim(s, b) && Inv(s) && Enabled(s, PollSettles(fl)) && !StaleFree(s, PollSettles(fl))
    ensures Possible(b, PollSettles(fl)) && Sim(Step(s, PollSettles(fl)), Next(b, PollSettles(fl)))
  {
    if s.phase.action == FreeItem {
      CompletionPends(TrafficOf(s), s.cq[0]);
      FreeSim(s, b, fl);
    } else {
      RearmSim(s, b, fl);
    }
  }

  lemma InitSim(cap: nat, mem: Memory)
    requires MemoryOk(mem)
    ensures Sim(Init(cap, mem), Open(cap))
  {
    SetupWindow();
  }

  /** From any pair of states that agree, the machines have the same runs, and stay in step. */
  lemma {:induction false} RunSim(s: State, b: Book, es: seq<Event>)
    requires Sim(s, b) && Inv(s) && Carried(s) && Partitioned(s) && Disciplined(s, es)
    ensures Legal(s, es) <==> PossibleRun(b, es)
    ensures Legal(s, es) ==> Sim(Run(s, es), Play(b, es))
    decreases |es|
  {
    if es != [] {
      RunSim(s, b, Front(es));
      if Legal(s, Front(es)) {
        PartitionKept(s, Front(es));
        RunKeepsInv(s, Front(es));
        EnabledIffPossible(Run(s, Front(es)), Play(b, Front(es)), Last(es));
        if Legal(s, es) {
          StepSim(Run(s, Front(es)), Play(b, Front(es)), Last(es));
        }
      }
    }
  }

  /**
   * Slot and buffer recycling are unobservable. Take any interleaving of user calls, callbacks,
   * flush outcomes, kernel completions in any order and polls, without a stale free: it can happen
   * to the engine if and only if it can happen to the ticket machine, and then the engine makes the
   * very calls that machine makes: the same requests' callbacks, in the same order, with the same
   * results and the same bytes; and it stops exactly when that machine stops.
   */
  lemma RecyclingIsInvisible(cap: nat, mem: Memory, es: seq<Event>)
    requires MemoryOk(mem) && Disciplined(Init(cap, mem), es)
    ensures Legal(Init(cap, mem), es) <==> PossibleRun(Open(cap), es)
    ensures Legal(Init(cap, mem), es) ==>
              && Run(Init(cap, mem), es).log == Play(Open(cap), es).log
              && Run(Init(cap, mem), es).halt == Play(Open(cap), es).halt
  {
    InitInv(cap, mem);
    InitPartition(cap, mem);
    InitSim(cap, mem);
    RunSim(Init(cap, mem), Open(cap), es);
  }
}
