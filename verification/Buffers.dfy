/**
 * Who owns a receive buffer: the kernel-visible window, a completion nobody has polled yet, or the
 * callback now running. The 512 buffers published at start-up are split among these three for good,
 * and the other 512 never appear anywhere.
 */
module Buffers {
  import opened Basics
  import opened BufferRing
  import opened WorkPools
  import opened Engine
  import opened Routing

  /** The completions whose buffer has not been given back. */
  function Holding(s: State): seq<Cqe> {
    if (s.phase.Returned? || s.phase.Settled?) && s.cq != [] then s.cq[1..] else s.cq
  }

  function Bids(q: seq<Cqe>): seq<nat> {
    if q == [] then []
    else Bids(q[..|q| - 1]) + (if q[|q| - 1].bid.Some? then [q[|q| - 1].bid.value] else [])
  }

  function Held(s: State): multiset<nat> {
    multiset(Bids(Holding(s)))
  }

  function WindowSet(s: State): multiset<nat>
    requires StateOk(s)
  {
    multiset(Window(s.ring))
  }

  /** Nothing lost, nothing doubled, nothing smuggled in. */
  predicate Partitioned(s: State) {
    StateOk(s) && WindowSet(s) + Held(s) == multiset(Iota(EXPOSED_AT_START))
  }

  lemma BidsAppend(q: seq<Cqe>, c: Cqe)
    ensures Bids(q + [c]) == Bids(q) + (if c.bid.Some? then [c.bid.value] else [])
  {
    assert (q + [c])[..|q|] == q;
  }

  lemma {:induction false} BidsHead(q: seq<Cqe>)
    requires q != []
    ensures Bids(q) == (if q[0].bid.Some? then [q[0].bid.value] else []) + Bids(q[1..])
  {
    if |q| > 1 {
      var front := q[..|q| - 1];
      BidsHead(front);
      BidsAppend(front[1..], q[|q| - 1]);
      assert q[1..] == front[1..] + [q[|q| - 1]];
    }
  }

  /** A held buffer number occurs in `Bids`. */
  lemma {:induction false} BidsContain(q: seq<Cqe>, j: nat)
    requires j < |q| && q[j].bid.Some?
    ensures q[j].bid.value in Bids(q)
  {
    if j < |q| - 1 {
      BidsContain(q[..|q| - 1], j);
    }
  }

  /** What the partition says of one buffer number. */
  lemma OwnedOnce(s: State, b: nat)
    requires Partitioned(s)
    ensures WindowSet(s)[b] + Held(s)[b] == if b < EXPOSED_AT_START then 1 else 0
    ensures Exposed(s.ring) + |Held(s)| == EXPOSED_AT_START
  {
    IotaMultiplicity(EXPOSED_AT_START, b);
    assert (WindowSet(s) + Held(s))[b] == WindowSet(s)[b] + Held(s)[b];
    assert |multiset(Iota(EXPOSED_AT_START))| == EXPOSED_AT_START;
    assert |WindowSet(s)| == |Window(s.ring)|;
  }

  // ---------------------------------------------------------------------------------------------
  // What every legal run keeps, stale frees or not

  /** Completions in error carry no buffer, and a poll under way has its completion at the head. */
  predicate Carried(s: State) {
    && StateOk(s)
    && (!s.phase.Idle? ==> s.cq != [])
    && forall c :: c in s.cq ==> c.bid.Some? ==> c.res >= 0
  }

  lemma StepKeepsCarried(s: State, e: Event)
    requires Carried(s) && Enabled(s, e)
    ensures Carried(Step(s, e))
  {
    if TouchesPool(e) {
      PoolEventFrame(s, e);
    } else if e.KernelPosts? {
      PostKeepsCarried(s, e.k, e.res, e.more, e.data);
    } else if e.PollBegins? && s.cq != [] {
      DispatchFrame(s);
    }
  }

  lemma PostKeepsCarried(s: State, k: nat, res: int, more: bool, data: seq<Byte>)
    requires Carried(s) && k < |s.kernel| && MayPost(s.kernel[k].op, Exposed(s.ring), res, more, data)
    ensures Carried(Post(s, k, res, more, data))
  {
    var s' := Post(s, k, res, more, data);
    assert s'.cq == s.cq + [s'.cq[|s.cq|]];
  }

  // ---------------------------------------------------------------------------------------------
  // The window and the holders

  lemma HoldingAppend(s: State, s': State, c: Cqe)
    requires (!s.phase.Idle? ==> s.cq != []) && s'.cq == s.cq + [c] && s'.phase == s.phase
    ensures Holding(s') == Holding(s) + [c]
  {
    if s.cq != [] {
      assert (s.cq + [c])[1..] == s.cq[1..] + [c];
    }
  }

  lemma ConsumeMultiset(r: BufRing)
    requires RingOk(r) && Exposed(r) > 0
    ensures RingOk(Consume(r))
    ensures multiset(Window(r)) == multiset(Window(Consume(r))) + multiset{r.entries[r.head % BUFFERS]}
  {
    ConsumeTakesHead(r);
    assert Window(r) == [r.entries[r.head % BUFFERS]] + Window(r)[1..];
  }

  /** A completion with a buffer moves the oldest exposed buffer from the window to the holders. */
  lemma TakeBuffer(s: State, s': State, c: Cqe)
    requires Partitioned(s) && (!s.phase.Idle? ==> s.cq != []) && StateOk(s')
    requires s'.cq == s.cq + [c] && s'.phase == s.phase
    requires match c.bid
             case None => s'.ring == s.ring
             case Some(b) => Exposed(s.ring) > 0 && s'.ring == Consume(s.ring)
                             && b == s.ring.entries[s.ring.head % BUFFERS]
    ensures Partitioned(s')
  {
    HoldingAppend(s, s', c);
    BidsAppend(Holding(s), c);
    match c.bid
    case None =>
    case Some(b) =>
      ConsumeMultiset(s.ring);
      assert Held(s') == Held(s) + multiset{b};
      assert WindowSet(s) == WindowSet(s') + multiset{b};
  }

  lemma PostKeepsPartition(s: State, k: nat, res: int, more: bool, data: seq<Byte>)
    requires Partitioned(s) && Carried(s) && k < |s.kernel|
    requires MayPost(s.kernel[k].op, Exposed(s.ring), res, more, data)
    ensures Partitioned(Post(s, k, res, more, data))
  {
    var s' := Post(s, k, res, more, data);
    TakeBuffer(s, s', s'.cq[|s.cq|]);
  }

  /** Giving the head's buffer back moves it from the holders to the window. */
  lemma GiveBack(s: State, s': State)
    requires Partitioned(s) && s.cq != [] && Holding(s) == s.cq && s.cq[0].bid.Some?
    requires s' == s.(ring := Recycle(s.ring, s.cq[0].bid.value), phase := s'.phase) && s'.phase.Returned?
    ensures Partitioned(s')
  {
    OwnedOnce(s, 0);
    RecycleAppends(s.ring, s.cq[0].bid.value);
    BidsHead(s.cq);
  }

  /** A head without a buffer may stop or start being counted as a holder. */
  lemma HeadWithoutBuffer(s: State, s': State)
    requires Partitioned(s) && s.cq != [] && s.cq[0].bid == None
    requires s'.ring == s.ring && s'.cq == s.cq && StateOk(s')
    ensures Partitioned(s')
  {
    BidsHead(s.cq);
  }

  /** A head with a buffer that stops being counted, and is not given back, is lost. */
  lemma HeadLost(s: State, s': State)
    requires Partitioned(s) && s.cq != [] && s.cq[0].bid.Some? && Holding(s) == s.cq
    requires StateOk(s') && s'.ring == s.ring && Holding(s') == s.cq[1..]
    ensures !Partitioned(s')
  {
    BidsHead(s.cq);
    assert Held(s) == Held(s') + multiset{s.cq[0].bid.value};
    OneMore(Held(s'), WindowSet(s), s.cq[0].bid.value);
  }

  /** Giving back a buffer the head does not carry makes one too many. */
  lemma OneTooMany(s: State, s': State)
    requires Partitioned(s) && s.cq != [] && s.cq[0].bid == None && Holding(s) == s.cq
    requires StateOk(s') && s'.ring == Recycle(s.ring, 0) && Holding(s') == s.cq[1..]
    ensures !Partitioned(s')
  {
    OwnedOnce(s, 0);
    BidsHead(s.cq);
    assert Held(s') == Held(s);
    assert WindowSet(s') == WindowSet(s) + multiset{0} by { RecycleAppends(s.ring, 0); }
    OneMore(WindowSet(s), Held(s), 0);
  }

  lemma OneMore(a: multiset<nat>, b: multiset<nat>, x: nat)
    ensures (a + multiset{x}) + b != a + b && b + (a + multiset{x}) != b + a
  {
    assert ((a + multiset{x}) + b)[x] == (a + b)[x] + 1;
    assert (b + (a + multiset{x}))[x] == (b + a)[x] + 1;
  }

  /** The two ways a buffer-carrying completion and an item can miss each other. */
  predicate Misplaced(s: State, e: Event) {
    match e
    case PollBegins =>
      s.cq != [] && s.cq[0].bid.Some? && s.cq[0].id < |s.pool.slots| && s.pool.slots[s.cq[0].id] == None
    case CallbackReturns(_) =>
      && s.phase.InCallback? && s.phase.obj < |s.pool.objs| && s.cq != []
      && !(s.cq[0].bid.Some? <==> s.pool.objs[s.phase.obj].kind == Recv)
    case _ => false
  }

  lemma ItemKeepsPartition(s: State, o: nat, c: Cqe)
    requires Partitioned(s) && Carried(s) && s.phase == Idle && s.cq != [] && c == s.cq[0] && o < |s.pool.objs|
    ensures Partitioned(DispatchItem(s, o, c))
  {
    var s' := DispatchItem(s, o, c);
    assert c in s.cq;
    if c.bid == None {
      HeadWithoutBuffer(s, s');
    } else if s'.phase.Returned? {
      GiveBack(s, s');
    } else {
      assert s'.ring == s.ring && Holding(s') == Holding(s);
    }
  }

  /** The head has been dealt with by the look-up alone: lost if it had a buffer. */
  lemma SettledPartition(s: State, s': State)
    requires Partitioned(s) && s.phase == Idle && s.cq != []
    requires s'.phase == Settled && s'.cq == s.cq && s'.ring == s.ring && s'.mem == s.mem
    ensures Partitioned(s') <==> s.cq[0].bid == None
  {
    if s.cq[0].bid.Some? {
      HeadLost(s, s');
    } else {
      HeadWithoutBuffer(s, s');
    }
  }

  /** A dispatch loses a buffer exactly when it finds the slot empty. */
  lemma DispatchPartition(s: State)
    requires Partitioned(s) && Carried(s) && s.phase == Idle && s.cq != []
    ensures Partitioned(Dispatch(s)) <==> !Misplaced(s, PollBegins)
  {
    var s', c := Dispatch(s), s.cq[0];
    assert c in s.cq;
    if c.id >= |s.pool.slots| {
      assert Holding(s') == Holding(s);
    } else if s.pool.slots[c.id] == None || (c.res == -ENOBUFS && s'.phase.Settled?) {
      SettledPartition(s, s');
    } else {
      var o := s.pool.slots[c.id].value;
      if o < |s.pool.objs| && s.pool.objs[o].inUse {
        var s1 := s.(dispatched := s.dispatched + [c]);
        assert Partitioned(s1) && Carried(s1);
        ItemKeepsPartition(s1, o, c);
      } else {
        assert Holding(s') == Holding(s);
      }
    }
  }

  /** A receive gives a buffer back: the head's, or one it does not have. */
  lemma GivenBack(s: State, s': State)
    requires Partitioned(s) && s.cq != [] && Holding(s) == s.cq
    requires s' == s.(ring := Recycle(s.ring, BidOf(s.cq[0])), phase := s'.phase) && s'.phase.Returned?
    ensures Partitioned(s') <==> s.cq[0].bid.Some?
  {
    OwnedOnce(s, 0);
    RecycleAppends(s.ring, BidOf(s.cq[0]));
    if s.cq[0].bid.Some? {
      GiveBack(s, s');
    } else {
      OneTooMany(s, s');
    }
  }

  /** Anybody else gives none back. */
  lemma NotGivenBack(s: State, s': State)
    requires Partitioned(s) && s.cq != [] && Holding(s) == s.cq
    requires s' == s.(phase := s'.phase) && s'.phase.Returned?
    ensures Partitioned(s') <==> s.cq[0].bid == None
  {
    if s.cq[0].bid.Some? {
      HeadLost(s, s');
    } else {
      HeadWithoutBuffer(s, s');
    }
  }

  /** The return of a callback keeps the partition exactly when a receive had a buffer, and nobody else. */
  lemma ReturnPartition(s: State, answer: Answer)
    requires Partitioned(s) && s.phase.InCallback? && s.phase.obj < |s.pool.objs| && s.cq != []
    ensures Partitioned(Return(s, s.phase.obj, answer)) <==> !Misplaced(s, CallbackReturns(answer))
  {
    var s' := Return(s, s.phase.obj, answer);
    assert s'.phase.Returned? && Holding(s) == s.cq;
    if s.pool.objs[s.phase.obj].kind == Recv {
      assert s' == s.(ring := Recycle(s.ring, BidOf(s.cq[0])), phase := s'.phase);
      GivenBack(s, s');
    } else {
      assert s' == s.(phase := s'.phase);
      NotGivenBack(s, s');
    }
  }

  /** Any step keeps the partition if and only if it is not misplaced. */
  lemma StepPartition(s: State, e: Event)
    requires Partitioned(s) && Carried(s) && Enabled(s, e)
    ensures Partitioned(Step(s, e)) <==> !Misplaced(s, e)
  {
    var s' := Step(s, e);
    if TouchesPool(e) {
      PoolEventFrame(s, e);
      assert Holding(s') == Holding(s);
    } else if e.KernelPosts? {
      PostKeepsPartition(s, e.k, e.res, e.more, e.data);
    } else if e.PollBegins? && s.cq != [] {
      DispatchPartition(s);
    } else if e.CallbackReturns? {
      ReturnPartition(s, e.answer);
    } else {
      assert Holding(s') == Holding(s);
    }
  }

  /** Where routing holds, nothing is misplaced. */
  lemma RoutedNotMisplaced(s: State, e: Event)
    requires Inv(s)
    ensures Enabled(s, e) ==> !Misplaced(s, e)
  {
    if s.cq != [] && !s.phase.Settled? {
      assert s.cq[0] in Waiting(s) && CompletionOk(s.pool, s.cq[0]);
    }
  }

  lemma InitPartition(cap: nat, mem: Memory)
    requires MemoryOk(mem)
    ensures Partitioned(Init(cap, mem))
  {
    SetupWindow();
    assert Held(Init(cap, mem)) == multiset{};
  }

  /** No prefix of the run ends in a misplaced event. */
  predicate WellPlaced(s: State, es: seq<Event>)
    requires Legal(s, es)
    decreases |es|
  {
    es == [] || (WellPlaced(s, Front(es)) && !Misplaced(Run(s, Front(es)), Last(es)))
  }

  predicate AlwaysPartitioned(s: State, es: seq<Event>)
    requires Legal(s, es)
    decreases |es|
  {
    Partitioned(Run(s, es)) && (es == [] || AlwaysPartitioned(s, Front(es)))
  }

  lemma {:induction false} RunKeepsCarried(s: State, es: seq<Event>)
    requires Carried(s) && Legal(s, es)
    ensures Carried(Run(s, es))
    decreases |es|
  {
    if es != [] {
      RunKeepsCarried(s, Front(es));
      StepKeepsCarried(Run(s, Front(es)), Last(es));
    }
  }

  /** From any partitioned state, a run keeps the partition throughout if and only if it is well placed. */
  lemma {:induction false} PartitionIff(s: State, es: seq<Event>)
    requires Carried(s) && Partitioned(s) && Legal(s, es)
    ensures AlwaysPartitioned(s, es) <==> WellPlaced(s, es)
    decreases |es|
  {
    if es != [] {
      PartitionIff(s, Front(es));
      if WellPlaced(s, Front(es)) {
        RunKeepsCarried(s, Front(es));
        StepPartition(Run(s, Front(es)), Last(es));
      }
    }
  }

  /**
   * Over every legal run from start-up, stale frees or not: each buffer has exactly one owner in
   * every state, through any number of wrap-arounds of the ring, if and only if no completion with
   * a buffer finds its slot empty, and no callback of the wrong kind returns from one.
   */
  lemma PartitionOverRuns(cap: nat, mem: Memory, es: seq<Event>)
    requires MemoryOk(mem) && Legal(Init(cap, mem), es)
    ensures AlwaysPartitioned(Init(cap, mem), es) <==> WellPlaced(Init(cap, mem), es)
  {
    InitPartition(cap, mem);
    PartitionIff(Init(cap, mem), es);
  }

  /** What the partition means: numbers below 512 have one owner each, the reserved ones none. */
  lemma OwnersOfPartition(s: State)
    requires Partitioned(s)
    ensures Exposed(s.ring) + |Held(s)| == 512
    ensures forall b: nat :: WindowSet(s)[b] + Held(s)[b] == if b < 512 then 1 else 0
  {
    forall b: nat
      ensures WindowSet(s)[b] + Held(s)[b] == if b < 512 then 1 else 0
    {
      OwnedOnce(s, b);
    }
    OwnedOnce(s, 0);
  }

  /** Runs without stale frees are well placed. */
  lemma {:induction false} DisciplinedIsWellPlaced(s: State, es: seq<Event>)
    requires Inv(s) && Legal(s, es) && Disciplined(s, es)
    ensures WellPlaced(s, es)
    decreases |es|
  {
    if es != [] {
      DisciplinedIsWellPlaced(s, Front(es));
      RunKeepsInv(s, Front(es));
      RoutedNotMisplaced(Run(s, Front(es)), Last(es));
    }
  }

  /** From any good state, every run without stale frees keeps the partition. */
  lemma PartitionKept(s: State, es: seq<Event>)
    requires Inv(s) && Carried(s) && Partitioned(s) && Legal(s, es) && Disciplined(s, es)
    ensures Partitioned(Run(s, es)) && Carried(Run(s, es))
  {
    RunKeepsCarried(s, es);
    DisciplinedIsWellPlaced(s, es);
    PartitionIff(s, es);
  }
}
