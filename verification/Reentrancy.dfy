/**
 * What a running callback may rely on, stale frees before it or not: its completion, its slot and
 * its item always, and the bytes it is shown wherever every buffer is accounted for.
 */
module Reentrancy {
  import opened Basics
  import opened BufferRing
  import opened WorkPools
  import opened Engine
  import opened Routing
  import opened Buffers
  import Halts

  predicate InCall(s: State) {
    s.phase.InCallback? && s.phase.obj < |s.pool.objs| && s.cq != []
  }

  /** The completion at hand, its slot and its item are what they were. */
  predicate HandKept(s: State, s': State)
    requires InCall(s)
  {
    && s'.phase == s.phase && s'.cq != [] && s'.cq[0] == s.cq[0]
    && s.phase.obj < |s'.pool.objs| && s'.pool.objs[s.phase.obj] == s.pool.objs[s.phase.obj]
    && Lookup(s'.pool, s.cq[0].id) == Lookup(s.pool, s.cq[0].id) == Some(s.phase.obj)
  }

  /** So are all bytes of its buffer. */
  predicate BytesKept(s: State, s': State)
    requires s.cq != [] && StateOk(s) && StateOk(s')
  {
    s.cq[0].bid.Some? && s.cq[0].bid.value < BUFFERS ==>
      View(s'.mem, s.cq[0].bid.value, BUFFER_SIZE) == View(s.mem, s.cq[0].bid.value, BUFFER_SIZE)
  }

  predicate StillInside(es: seq<Event>) {
    forall e :: e in es ==> !e.CallbackReturns?
  }

  lemma HandStep(s: State, e: Event)
    requires Halts.Steady(s) && s.phase.InCallback? && Enabled(s, e) && !e.CallbackReturns?
    ensures HandKept(s, Step(s, e))
  {
    if TouchesPool(e) {
      PoolEventFrame(s, e);
      PoolEventEffect(s, e);
      Halts.HandStays(s, e, s.phase.obj);
    }
  }

  /** The poll stays where it is while the callback runs. */
  lemma HeadStays(s: State, e: Event)
    requires s.phase.InCallback? && s.cq != [] && Enabled(s, e) && !e.CallbackReturns?
    ensures var s' := Step(s, e); s'.phase == s.phase && s'.cq != [] && s'.cq[0] == s.cq[0]
  {
    if TouchesPool(e) {
      PoolEventFrame(s, e);
    }
  }

  /** The oldest exposed buffer is not the one being looked at. */
  lemma HeldNotExposed(s: State)
    requires Partitioned(s) && s.phase.InCallback? && s.cq != [] && s.cq[0].bid.Some? && Exposed(s.ring) > 0
    ensures s.ring.entries[s.ring.head % BUFFERS] < BUFFERS
    ensures s.ring.entries[s.ring.head % BUFFERS] != s.cq[0].bid.value
  {
    var bid := s.ring.entries[s.ring.head % BUFFERS];
    assert Window(s.ring)[0] == bid && bid in WindowSet(s);
    BidsContain(s.cq, 0);
    assert s.cq[0].bid.value in Held(s);
    OwnedOnce(s, bid);
  }

  /** The kernel fills only buffers it owns. */
  lemma PostKeepsHeldBytes(s: State, k: nat, res: int, more: bool, data: seq<Byte>)
    requires Partitioned(s) && s.phase.InCallback? && s.cq != [] && k < |s.kernel|
    requires MayPost(s.kernel[k].op, Exposed(s.ring), res, more, data) && StateOk(Post(s, k, res, more, data))
    ensures BytesKept(s, Post(s, k, res, more, data))
  {
    if IsRecvOp(s.kernel[k].op) && res >= 0 && s.cq[0].bid.Some? && s.cq[0].bid.value < BUFFERS {
      HeldNotExposed(s);
      FillThenView(s.mem, s.ring.entries[s.ring.head % BUFFERS], data, s.cq[0].bid.value, BUFFER_SIZE);
    }
  }

  lemma BytesStep(s: State, e: Event)
    requires Partitioned(s) && Carried(s) && s.phase.InCallback? && Enabled(s, e) && !e.CallbackReturns?
    ensures Partitioned(Step(s, e)) && Carried(Step(s, e)) && BytesKept(s, Step(s, e))
  {
    StepPartition(s, e);
    StepKeepsCarried(s, e);
    if TouchesPool(e) {
      PoolEventFrame(s, e);
    } else if e.KernelPosts? {
      PostKeepsHeldBytes(s, e.k, e.res, e.more, e.data);
    }
  }

  lemma InsideFront(es: seq<Event>)
    requires es != [] && StillInside(es)
    ensures StillInside(Front(es)) && !Last(es).CallbackReturns?
  {
    assert Last(es) in es && forall e :: e in Front(es) ==> e in es;
  }

  /**
   * Re-entrancy: whatever a callback starts, acquires or submits, and whatever the kernel posts
   * meanwhile, up to and including a halt, the completion at hand, its slot and its item stay as they
   * were when the callback was entered.
   */
  lemma {:induction false} CallbackUndisturbed(s: State, es: seq<Event>)
    requires Halts.Steady(s) && s.halt == No && s.phase.InCallback? && Legal(s, es) && StillInside(es)
    ensures HandKept(s, Run(s, es))
    ensures Run(s, es).halt == No ==> Halts.Steady(Run(s, es))
    decreases |es|
  {
    if es != [] {
      InsideFront(es);
      CallbackUndisturbed(s, Front(es));
      var s1 := Run(s, Front(es));
      HandStep(s1, Last(es));
      if Run(s, es).halt == No {
        Halts.StepKeepsSteady(s1, Last(es));
      }
    }
  }

  /** And where every buffer is accounted for, so do the bytes of its buffer. */
  lemma {:induction false} BytesUndisturbed(s: State, es: seq<Event>)
    requires Partitioned(s) && Carried(s) && s.phase.InCallback? && Legal(s, es) && StillInside(es)
    ensures var s' := Run(s, es);
      && Partitioned(s') && Carried(s') && BytesKept(s, s')
      && s'.phase == s.phase && s'.cq != [] && s'.cq[0] == s.cq[0]
    decreases |es|
  {
    if es != [] {
      InsideFront(es);
      BytesUndisturbed(s, Front(es));
      HeadStays(Run(s, Front(es)), Last(es));
      BytesStep(Run(s, Front(es)), Last(es));
    }
  }

  /**
   * Over every run from start-up that enters a callback, stale frees or not: nothing disturbs the
   * completion, the slot and the item while the callback runs; and if no completion with a buffer
   * has missed its item before, nothing disturbs the bytes either.
   */
  lemma CallbacksAreSafe(cap: nat, mem: Memory, before: seq<Event>, during: seq<Event>)
    requires MemoryOk(mem) && Legal(Init(cap, mem), before)
    requires var s := Run(Init(cap, mem), before);
      s.halt == No && s.phase.InCallback? && Legal(s, during) && StillInside(during)
    ensures var s := Run(Init(cap, mem), before); var s' := Run(s, during);
      && InCall(s) && HandKept(s, s') && StateOk(s) && StateOk(s')
      && (WellPlaced(Init(cap, mem), before) ==> BytesKept(s, s') && Partitioned(s'))
  {
    var s0, s := Init(cap, mem), Run(Init(cap, mem), before);
    InitPartition(cap, mem);
    Halts.RunKeepsSteady(cap, mem, before);
    CallbackUndisturbed(s, during);
    RunKeepsCarried(s0, before);
    RunKeepsCarried(s, during);
    if WellPlaced(s0, before) {
      PartitionIff(s0, before);
      BytesUndisturbed(s, during);
    }
  }
}
