/**
 * What the whole history of a run adds up to, for every run, stale frees or not: the slot vector is
 * as long as the busiest moment, entries reach the kernel in order and completions are dispatched
 * in order, each once.
 */
module Histories {
  import opened Basics
  import opened WorkPools
  import opened Engine
  import opened BufferRing
  import opened Routing

  // ---------------------------------------------------------------------------------------------
  // The slot vector

  /** Every id ever written into an object is in range, for good. */
  predicate IdsInRange(p: Pool) {
    forall o: nat :: o < |p.objs| ==> p.objs[o].id < |p.slots|
  }

  lemma StepKeepsPool(s: State, e: Event)
    requires PoolOk(s.pool) && IdsInRange(s.pool) && Enabled(s, e)
    ensures var p, p' := s.pool, Step(s, e).pool;
      && PoolOk(p') && IdsInRange(p')
      && |p.slots| <= |p'.slots|
      && |p'.slots| == Max(|p.slots|, |LiveObjects(p')|)
  {
    PoolEventEffect(s, e);
    PoolStep(s, e);
    LiveCounts(PoolAfter(s, e));
  }

  lemma PoolStep(s: State, e: Event)
    requires PoolOk(s.pool) && IdsInRange(s.pool) && Enabled(s, e)
    ensures var p, p' := s.pool, PoolAfter(s, e);
      && PoolOk(p') && IdsInRange(p') && |p.slots| <= |p'.slots|
      && |p'.slots| == if Live(p') > |p.slots| then Live(p') else |p.slots|
  {
    var p := s.pool;
    LiveCounts(p);
    match e
    case StartRequest(kind, stream, fn, fl) =>
      AllocOk(p, stream);
      AllocRange(p, stream);
      AssignOk(Alloc(p, stream), |p.objs|, kind, AltFor(kind), fn);
    case AcquireSend(stream) =>
      AllocOk(p, stream);
      AllocRange(p, stream);
    case SubmitSend(o, packet, fn, fl) =>
      AssignOk(p, o, if packet then SendWorkPacket else SendStreamData, SendFn, fn);
    case PollSettles(fl) =>
      if s.phase.action == FreeItem && CanFree(p, s.cq[0].id) {
        FreeOk(p, s.cq[0].id);
      }
    case _ =>
  }

  lemma AllocRange(p: Pool, stream: bool)
    requires PoolOk(p) && IdsInRange(p)
    ensures IdsInRange(Alloc(p, stream))
  {
    var p' := Alloc(p, stream);
    AllocOk(p, stream);
    forall o: nat | o < |p'.objs|
      ensures p'.objs[o].id < |p'.slots|
    {
      if o < |p.objs| {
        assert p'.objs[o] == p'.objs[..|p.objs|][o];
      }
    }
  }

  /** The largest number of items live at the same time, over all moments of the run. */
  ghost function PeakLive(s: State, es: seq<Event>): nat
    requires Legal(s, es)
    decreases |es|
  {
    var now := |LiveObjects(Run(s, es).pool)|;
    if es == [] then now else Max(PeakLive(s, Front(es)), now)
  }

  /** The vector grows only when it must: its length is the peak, and it never shrinks. */
  lemma {:induction false} SlotsEqualPeak(cap: nat, mem: Memory, es: seq<Event>)
    requires MemoryOk(mem) && Legal(Init(cap, mem), es)
    ensures var p := Run(Init(cap, mem), es).pool;
      PoolOk(p) && IdsInRange(p) && |p.slots| == PeakLive(Init(cap, mem), es)
    ensures es != [] ==> |Run(Init(cap, mem), Front(es)).pool.slots| <= |Run(Init(cap, mem), es).pool.slots|
    decreases |es|
  {
    if es != [] {
      SlotsEqualPeak(cap, mem, Front(es));
      StepKeepsPool(Run(Init(cap, mem), Front(es)), Last(es));
    } else {
      LiveCounts(EMPTY_POOL);
    }
  }

  // ---------------------------------------------------------------------------------------------
  // Submissions

  predicate QueueOk(s: State) {
    s.taken + s.sq == s.prepared && |s.sq| <= s.cap
  }

  lemma FlushKeepsQueue(s: State, f: FlushResult)
    requires QueueOk(s)
    ensures QueueOk(Flush(s, f)) && Flush(s, f).cap == s.cap
  {
    SplitAfter(s.taken, s.sq, TakenCount(f, |s.sq|));
  }

  lemma SplitAfter(a: seq<Sqe>, b: seq<Sqe>, n: nat)
    requires n <= |b|
    ensures (a + b[..n]) + b[n..] == a + b
  {
  }

  lemma PrepareKeepsQueue(s: State, e: Sqe)
    requires QueueOk(s) && |s.sq| < s.cap
    ensures QueueOk(Prepare(s, e))
  {
    assert s.taken + (s.sq + [e]) == (s.taken + s.sq) + [e];
  }

  lemma SubmitKeepsQueue(s: State, o: nat, fl: Flushes)
    requires QueueOk(s) && s.halt == No && o < |s.pool.objs|
    ensures QueueOk(Submit(s, o, fl)) && Submit(s, o, fl).cap == s.cap
  {
    FlushKeepsQueue(s, fl.retry);
    var s1 := GetSqe(s, fl.retry);
    var it := s.pool.objs[o];
    if s1.halt == No && it.kind != Unknown {
      var e := Sqe(it.id, OpFor(it));
      PrepareKeepsQueue(s1, e);
      FlushKeepsQueue(Prepare(s1, e), fl.last);
    }
  }

  lemma StepKeepsQueue(s: State, e: Event)
    requires QueueOk(s) && Enabled(s, e)
    ensures QueueOk(Step(s, e)) && Step(s, e).cap == s.cap
  {
    match e
    case StartRequest(_, _, _, fl) => SubmitKeepsQueue(s.(pool := PoolAfter(s, e)), |s.pool.objs|, fl);
    case SubmitSend(o, _, _, fl) => SubmitKeepsQueue(s.(pool := PoolAfter(s, e)), o, fl);
    case PollSettles(fl) =>
      if s.phase.action == Rearm {
        SubmitKeepsQueue(s, s.phase.obj, fl);
      }
    case _ =>
  }

  /** Entries taken, then entries queued: all entries ever prepared, in order; never above capacity. */
  lemma {:induction false} SubmissionsConserved(cap: nat, mem: Memory, es: seq<Event>)
    requires MemoryOk(mem) && Legal(Init(cap, mem), es)
    ensures var s := Run(Init(cap, mem), es); s.taken + s.sq == s.prepared && |s.sq| <= cap && s.cap == cap
    decreases |es|
  {
    if es != [] {
      SubmissionsConserved(cap, mem, Front(es));
      StepKeepsQueue(Run(Init(cap, mem), Front(es)), Last(es));
    }
  }

  // ---------------------------------------------------------------------------------------------
  // Completions

  /** The completions not dispatched yet: during a poll the head of the queue already is. */
  function Undispatched(s: State): seq<Cqe> {
    if s.phase.Idle? || s.cq == [] then s.cq else s.cq[1..]
  }

  predicate OrderOk(s: State) {
    && (s.halt == No ==> s.dispatched + Undispatched(s) == s.posted)
    && (!s.phase.Idle? ==> s.cq != [])
    && s.dispatched <= s.posted
  }

  lemma StepKeepsOrder(s: State, e: Event)
    requires OrderOk(s) && Enabled(s, e)
    ensures OrderOk(Step(s, e))
  {
    var s' := Step(s, e);
    if TouchesPool(e) {
      PoolEventFrame(s, e);
    } else if e.KernelPosts? {
      PostKeepsOrder(s, s', s'.cq[|s.cq|]);
    } else if e.PollBegins? && s.cq != [] {
      DispatchKeepsOrder(s);
    }
  }

  lemma PostKeepsOrder(s: State, s': State, c: Cqe)
    requires OrderOk(s) && s.halt == No && s'.halt == No
    requires s'.cq == s.cq + [c] && s'.posted == s.posted + [c]
    requires s'.dispatched == s.dispatched && s'.phase == s.phase
    ensures OrderOk(s')
  {
    assert Undispatched(s') == Undispatched(s) + [c] by {
      if s.cq != [] { assert (s.cq + [c])[1..] == s.cq[1..] + [c]; }
    }
    assert s'.posted == s.dispatched + Undispatched(s');
  }

  /** The head of the second part, moved to the end of the first. */
  lemma HeadMoves(a: seq<Cqe>, b: seq<Cqe>)
    requires b != []
    ensures (a + [b[0]]) + b[1..] == a + b && a + [b[0]] <= a + b
  {
    assert b == [b[0]] + b[1..];
    assert a + ([b[0]] + b[1..]) == (a + [b[0]]) + b[1..];
  }

  lemma DispatchPhase(s: State)
    requires StateOk(s) && s.phase == Idle && s.cq != []
    ensures var s' := Dispatch(s);
      && s'.cq == s.cq && s'.posted == s.posted && s'.dispatched == s.dispatched + [s.cq[0]]
      && (s'.halt == No ==> !s'.phase.Idle?)
  {
    DispatchFrame(s);
  }

  lemma DispatchKeepsOrder(s: State)
    requires OrderOk(s) && StateOk(s) && s.halt == No && s.phase == Idle && s.cq != []
    ensures OrderOk(Dispatch(s))
  {
    DispatchPhase(s);
    HeadMoves(s.dispatched, s.cq);
  }

  /** From any state in order, every run stays in order. */
  lemma {:induction false} OrderKept(s: State, es: seq<Event>)
    requires OrderOk(s) && Legal(s, es)
    ensures OrderOk(Run(s, es))
    decreases |es|
  {
    if es != [] {
      OrderKept(s, Front(es));
      StepKeepsOrder(Run(s, Front(es)), Last(es));
    }
  }

  /**
   * Every completion the kernel posts is dispatched once, in order, although callbacks, submissions
   * and further completions come between looking at the queue's head and advancing past it.
   */
  lemma DispatchedOnceInOrder(cap: nat, mem: Memory, es: seq<Event>)
    requires MemoryOk(mem) && Legal(Init(cap, mem), es)
    ensures var s := Run(Init(cap, mem), es);
      && s.dispatched <= s.posted
      && (s.halt == No ==> s.dispatched + Undispatched(s) == s.posted)
      && (s.halt == No && s.phase.Idle? ==> s.dispatched + s.cq == s.posted)
  {
    OrderKept(Init(cap, mem), es);
  }
}
