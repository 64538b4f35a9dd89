/**
 * When the engine stops: over every legal run, stale frees or not, the exact cause of a halt, told
 * from the state before the event. No other assertion and no other `abort()` is ever reached.
 */
module Halts {
  import opened Basics
  import opened BufferRing
  import opened WorkPools
  import opened Engine
  import opened Routing
  import opened Histories
  import Receives

  // ---------------------------------------------------------------------------------------------
  // Causes

  /** The queue is full, and the flush before the retry takes nothing. */
  predicate NoRoom(s: State, fl: Flushes) {
    |s.sq| == s.cap && (s.cap == 0 || fl.retry == FlushFailed || fl.retry == Took(0))
  }

  /** A whole datagram whose sender has an address of unknown length. */
  predicate UnknownSender(bytes: seq<Byte>) {
    !Receives.SentBack(bytes) && !Receives.KnownSender(bytes)
  }

  /** A receive gives up: an error that is no interruption, or a datagram without buffer or sender. */
  predicate ReceiveFails(mem: Memory, stream: bool, c: Cqe)
    requires MemoryOk(mem)
  {
    if c.res < 0 then c.res !in {-105, -104}
    else !stream && (c.bid == None || UnknownSender(ViewOrEmpty(mem, BidOf(c), c.res)))
  }

  function ServeCause(s: State, it: Item, c: Cqe): Halt
    requires StateOk(s)
  {
    if it.kind == Unknown && c.res != -105 then AssertionFailed
    else if it.kind == Recv && ReceiveFails(s.mem, it.stream, c) then Aborted
    else No
  }

  /** The halt an event leads to, if any. */
  function HaltCause(s: State, e: Event): Halt
    requires StateOk(s)
  {
    match e
    case StartRequest(_, _, _, fl) => if NoRoom(s, fl) then Aborted else No
    case SubmitSend(o, packet, _, fl) =>
      if NoRoom(s, fl) then Aborted
      else if o < |s.pool.objs| && packet == s.pool.objs[o].stream then WrongSend
      else No
    case PollFails => Aborted
    case PollBegins =>
      if s.cq == [] then No
      else (match Lookup(s.pool, s.cq[0].id)
            case None => No
            case Some(o) => if o < |s.pool.objs| then ServeCause(s, s.pool.objs[o], s.cq[0]) else No)
    case PollSettles(fl) =>
      if s.phase.Returned? && s.phase.action == Rearm && NoRoom(s, fl) then Aborted else No
    case _ => No
  }

  // ---------------------------------------------------------------------------------------------
  // What every legal run keeps, stale frees or not

  predicate ItemsFit(p: Pool) {
    forall o: nat :: o < |p.objs| ==> p.objs[o].kind != Unknown ==> p.objs[o].alt == AltFor(p.objs[o].kind)
  }

  predicate EntriesInRange(q: seq<Sqe>, n: nat) {
    forall e :: e in q ==> e.id < n
  }

  predicate CompletionsInRange(q: seq<Cqe>, n: nat) {
    forall c :: c in q ==> c.id < n
  }

  /** The item whose completion is at hand is in the slot the completion names. */
  predicate PhaseFits(s: State) {
    match s.phase
    case Idle => true
    case Settled => true
    case InCallback(o) => AtHand(s, o)
    case Returned(o, action) => AtHand(s, o) && (action == Rearm ==> s.pool.objs[o].kind in {Accept, Recv})
  }

  predicate AtHand(s: State, o: nat) {
    && s.cq != [] && o < |s.pool.objs| && Lookup(s.pool, s.cq[0].id) == Some(o)
    && s.pool.objs[o].kind != Unknown
  }

  ghost predicate Steady(s: State) {
    && StateOk(s) && PoolOk(s.pool) && IdsInRange(s.pool) && ItemsFit(s.pool) && QueueOk(s)
    && EntriesInRange(Entries(s), |s.pool.slots|) && CompletionsInRange(s.cq, |s.pool.slots|)
    && PhaseFits(s)
  }

  lemma ItemsStayFit(s: State, e: Event)
    requires PoolOk(s.pool) && ItemsFit(s.pool) && Enabled(s, e)
    ensures ItemsFit(PoolAfter(s, e))
  {
    var p' := PoolAfter(s, e);
    if e.StartRequest? || e.AcquireSend? {
      var stream := e.stream;
      AllocOk(s.pool, stream);
      forall o: nat | o < |s.pool.objs|
        ensures p'.objs[o] == s.pool.objs[o]
      {
        assert Alloc(s.pool, stream).objs[o] == Alloc(s.pool, stream).objs[..|s.pool.objs|][o];
      }
    } else if e.PollSettles? && s.phase.action == FreeItem && CanFree(s.pool, s.cq[0].id) {
      FreeOk(s.pool, s.cq[0].id);
    }
  }

  /** What users do leaves the item at hand where it is, and what it is. */
  lemma HandStays(s: State, e: Event, o: nat)
    requires PoolOk(s.pool) && Enabled(s, e) && TouchesPool(e) && !e.PollSettles? && AtHand(s, o)
    ensures var p' := PoolAfter(s, e);
      && o < |p'.objs| && Lookup(p', s.cq[0].id) == Some(o) && p'.objs[o] == s.pool.objs[o]
  {
    if e.StartRequest? || e.AcquireSend? {
      AllocOk(s.pool, e.stream);
      assert Alloc(s.pool, e.stream).objs[o] == Alloc(s.pool, e.stream).objs[..|s.pool.objs|][o];
    }
  }

  lemma PhaseStaysFit(s: State, e: Event)
    requires PoolOk(s.pool) && PhaseFits(s) && Enabled(s, e) && TouchesPool(e) && Step(s, e).halt == No
    ensures PhaseFits(Step(s, e))
  {
    PoolEventFrame(s, e);
    PoolEventEffect(s, e);
    if !e.PollSettles? && (s.phase.InCallback? || s.phase.Returned?) {
      HandStays(s, e, s.phase.obj);
    }
  }

  /** A submission adds at most one entry, for an id in range. */
  lemma SubmitInRange(s: State, o: nat, fl: Flushes)
    requires s.halt == No && o < |s.pool.objs| && s.pool.objs[o].id < |s.pool.slots|
    requires EntriesInRange(Entries(s), |s.pool.slots|)
    ensures EntriesInRange(Entries(Submit(s, o, fl)), |s.pool.slots|)
  {
    SubmitEffect(s, o, fl);
  }

  lemma EntriesStayInRange(s: State, e: Event)
    requires PoolOk(s.pool) && IdsInRange(s.pool) && Enabled(s, e) && TouchesPool(e)
    requires EntriesInRange(Entries(s), |s.pool.slots|)
    ensures EntriesInRange(Entries(Step(s, e)), |Step(s, e).pool.slots|)
    ensures |s.pool.slots| <= |Step(s, e).pool.slots|
  {
    PoolEventEffect(s, e);
    PoolStep(s, e);
    match e
    case StartRequest(_, _, _, fl) => SubmitInRange(s.(pool := PoolAfter(s, e)), |s.pool.objs|, fl);
    case SubmitSend(o, _, _, fl) => SubmitInRange(s.(pool := PoolAfter(s, e)), o, fl);
    case PollSettles(fl) =>
      if s.phase.action == Rearm {
        SubmitInRange(s, s.phase.obj, fl);
      }
    case AcquireSend(_) =>
  }

  lemma PoolEventSteady(s: State, e: Event)
    requires Steady(s) && Enabled(s, e) && TouchesPool(e) && Step(s, e).halt == No
    ensures Steady(Step(s, e))
  {
    StepKeepsPool(s, e);
    StepKeepsQueue(s, e);
    PoolEventEffect(s, e);
    PoolEventFrame(s, e);
    ItemsStayFit(s, e);
    PhaseStaysFit(s, e);
    EntriesStayInRange(s, e);
  }

  lemma PostSteady(s: State, k: nat, res: int, more: bool, data: seq<Byte>)
    requires Steady(s) && k < |s.kernel| && MayPost(s.kernel[k].op, Exposed(s.ring), res, more, data)
    ensures Steady(Post(s, k, res, more, data))
  {
    var s' := Post(s, k, res, more, data);
    assert s.kernel[k] in Entries(s);
    assert s'.cq == s.cq + [s'.cq[|s.cq|]] && s'.cq[|s.cq|].id == s.kernel[k].id;
    assert forall e :: e in Entries(s') ==> e in Entries(s) by {
      RemoveAtMembers(s.kernel, k);
    }
  }

  /** The head of the queue is found, or its slot is empty; its id is always in range. */
  lemma HeadFound(s: State)
    requires Steady(s) && s.cq != []
    ensures s.cq[0].id < |s.pool.slots|
    ensures match Lookup(s.pool, s.cq[0].id)
            case None => true
            case Some(o) => o < |s.pool.objs| && s.pool.objs[o].inUse
  {
    assert s.cq[0] in s.cq;
    assert SlotOk(s.pool, s.cq[0].id);
  }

  lemma ServeHalts(s: State, o: nat, c: Cqe)
    requires StateOk(s) && s.halt == No && o < |s.pool.objs| && ItemsFit(s.pool) && c.res != -ENOBUFS
    ensures DispatchItem(s, o, c).halt == ServeCause(s, s.pool.objs[o], c)
  {
    Receives.JudgedByBytes(ViewOrEmpty(s.mem, BidOf(c), c.res));
  }

  lemma ServePhase(s: State, o: nat, c: Cqe)
    requires StateOk(s) && s.halt == No && s.phase == Idle && o < |s.pool.objs| && AtHandIfKnown(s, o)
    ensures var s' := DispatchItem(s, o, c); s'.halt == No ==> PhaseFits(s')
  {
  }

  predicate AtHandIfKnown(s: State, o: nat)
    requires o < |s.pool.objs|
  {
    s.pool.objs[o].kind != Unknown ==> AtHand(s, o)
  }

  lemma DispatchSteady(s: State)
    requires Steady(s) && s.halt == No && s.phase == Idle && s.cq != []
    ensures Dispatch(s).halt == HaltCause(s, PollBegins)
    ensures Dispatch(s).halt == No ==> Steady(Dispatch(s))
  {
    HeadFound(s);
    DispatchFrame(s);
    var c := s.cq[0];
    match Lookup(s.pool, c.id)
    case None =>
    case Some(o) =>
      if c.res != -ENOBUFS {
        ServeHalts(s.(dispatched := s.dispatched + [c]), o, c);
        ServePhase(s.(dispatched := s.dispatched + [c]), o, c);
      }
  }

  lemma StepKeepsSteady(s: State, e: Event)
    requires Steady(s) && Enabled(s, e) && Step(s, e).halt == No
    ensures Steady(Step(s, e))
  {
    if TouchesPool(e) {
      PoolEventSteady(s, e);
    } else if e.KernelPosts? {
      PostSteady(s, e.k, e.res, e.more, e.data);
    } else if e.PollBegins? && s.cq != [] {
      DispatchSteady(s);
    }
  }

  // ---------------------------------------------------------------------------------------------
  // Halts are what their causes say

  lemma SubmitHalts(s: State, o: nat, fl: Flushes)
    requires s.halt == No && QueueOk(s) && o < |s.pool.objs| && s.pool.objs[o].kind != Unknown
    ensures var it := s.pool.objs[o];
      Submit(s, o, fl).halt ==
        if NoRoom(s, fl) then Aborted
        else if (it.kind == SendStreamData && !it.stream) || (it.kind == SendWorkPacket && it.stream) then WrongSend
        else No
  {
  }

  lemma SettleHalts(s: State, fl: Flushes)
    requires Steady(s) && Enabled(s, PollSettles(fl))
    ensures Step(s, PollSettles(fl)).halt == HaltCause(s, PollSettles(fl))
  {
    HeadFound(s);
    if s.phase.action == Rearm {
      SubmitHalts(s, s.phase.obj, fl);
    }
  }

  lemma StepHalts(s: State, e: Event)
    requires Steady(s) && Enabled(s, e)
    ensures Step(s, e).halt == HaltCause(s, e)
  {
    match e
    case StartRequest(kind, stream, _, fl) => SubmitHalts(s.(pool := PoolAfter(s, e)), |s.pool.objs|, fl);
    case SubmitSend(o, _, _, fl) => SubmitHalts(s.(pool := PoolAfter(s, e)), o, fl);
    case PollBegins => if s.cq != [] { DispatchSteady(s); }
    case PollSettles(fl) => SettleHalts(s, fl);
    case _ =>
  }

  lemma {:induction false} RunKeepsSteady(cap: nat, mem: Memory, es: seq<Event>)
    requires MemoryOk(mem) && Legal(Init(cap, mem), es) && Run(Init(cap, mem), es).halt == No
    ensures Steady(Run(Init(cap, mem), es))
    decreases |es|
  {
    if es != [] {
      RunKeepsSteady(cap, mem, Front(es));
      StepKeepsSteady(Run(Init(cap, mem), Front(es)), Last(es));
    }
  }

  /**
   * Over every run from start-up the last event halts the engine exactly as its cause says: a
   * failed peek, a submission or re-submission with the queue full and a retry that takes nothing,
   * a send on the wrong kind of socket, a receive that fails, or a completion for a send item that
   * was never submitted. Ids are always in range, frees always of items in use, callbacks always of
   * the expected alternative.
   */
  lemma HaltsExactly(cap: nat, mem: Memory, es: seq<Event>)
    requires MemoryOk(mem) && Legal(Init(cap, mem), es) && es != []
    ensures StateOk(Run(Init(cap, mem), Front(es)))
    ensures Run(Init(cap, mem), es).halt == HaltCause(Run(Init(cap, mem), Front(es)), Last(es))
  {
    RunKeepsSteady(cap, mem, Front(es));
    StepHalts(Run(Init(cap, mem), Front(es)), Last(es));
  }

  /**
   * Without stale frees the last two causes of a poll go away: a poll halts the engine if and only
   * if the head completes a receive, with an error that is neither -ENOBUFS nor an interruption or
   * with a whole datagram of an unknown sender.
   */
  lemma DisciplinedPollHalts(cap: nat, mem: Memory, es: seq<Event>)
    requires MemoryOk(mem) && Legal(Init(cap, mem), es) && Disciplined(Init(cap, mem), es)
    requires es != [] && Last(es) == PollBegins && Run(Init(cap, mem), Front(es)).cq != []
    ensures var s := Run(Init(cap, mem), Front(es)); var c := s.cq[0];
      && Names(s.pool, c.id)
      && var it := ItemAt(s.pool, c.id);
         Run(Init(cap, mem), es).halt ==
           if it.kind != Recv then No
           else if c.res < 0 then (if c.res in {-105, -104} then No else Aborted)
           else if !it.stream && UnknownSender(ViewOrEmpty(s.mem, BidOf(c), c.res)) then Aborted
           else No
  {
    HaltsExactly(cap, mem, es);
    InitInv(cap, mem);
    RunKeepsInv(Init(cap, mem), Front(es));
    var s := Run(Init(cap, mem), Front(es));
    assert s.cq[0] in Waiting(s) && CompletionOk(s.pool, s.cq[0]);
  }
}
