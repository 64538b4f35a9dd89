/**
 * Why the condition on datagram receives is needed: runs that answer NONE while the kernel keeps
 * the multishot receive armed. In one the freed id goes to a connect request, whose callback then
 * runs for a datagram although the connection is still pending. In the other the id stays free, and
 * the late datagram's buffer is lost.
 */
module StaleExample {
  import opened Basics
  import opened BufferRing
  import opened WorkPools
  import opened Engine
  import opened Routing
  import opened Buffers

  const TAKE_ALL := Flushes(FlushFailed, Took(1))

  const DATAGRAM_ITEM := Item(0, true, Recv, false, RecvFn, 1)
  const CONNECT_ITEM := Item(0, true, Connect, true, ConnectFn, 2)

  /** Any datagram that fits its buffer and passes the checks of the handler. */
  predicate Deliverable(data: seq<Byte>) {
    |data| <= BUFFER_SIZE && Judge(data) == Deliver
  }

  /** The 32-bit word `n`, least significant byte first. */
  function Word(n: nat): seq<Byte>
    requires n < 0x1_0000
  {
    [n % 0x100, n / 0x100, 0, 0]
  }

  /**
   * What the kernel writes for a payload from an IPv4 sender is one: the lengths of name, control data
   * and payload, the flags, the name and the payload.
   */
  lemma RealDatagramsDeliver(name: seq<Byte>, payload: seq<Byte>)
    requires |name| == NAME_ROOM && HEADER_SIZE + NAME_ROOM + |payload| <= BUFFER_SIZE
    ensures var data := Word(16) + Word(0) + Word(|payload|) + Word(0) + name + payload;
      Deliverable(data) && Payload(data) == payload
  {
  }

  function Arrives(data: seq<Byte>): Event {
    KernelPosts(0, |data|, true, data)
  }

  /** The completion of a datagram for slot 0, with the datagram in its buffer. */
  predicate Carries(mem: Memory, c: Cqe, data: seq<Byte>)
    requires MemoryOk(mem)
  {
    && c.id == 0 && c.res == |data| && c.bid.Some? && c.bid.value < BUFFERS
    && ViewOrEmpty(mem, c.bid.value, c.res) == data
  }

  /** What matters of a state with nothing queued and at most one completion. */
  datatype Look = Look(pool: Pool, kernel: seq<Sqe>, completions: nat, phase: Phase, log: seq<Call>)

  predicate Looks(s: State, l: Look, data: seq<Byte>) {
    && StateOk(s) && s.halt == No && s.cap > 0 && s.sq == []
    && s.pool == l.pool && s.kernel == l.kernel && s.phase == l.phase && s.log == l.log
    && |s.cq| == l.completions <= 1
    && (s.cq != [] ==> Carries(s.mem, s.cq[0], data))
  }

  /** Every buffer is accounted for. */
  predicate Sane(s: State) {
    Partitioned(s) && Carried(s)
  }

  /** The run reaches a sane state that looks like `l`. */
  predicate Reaches(s0: State, es: seq<Event>, l: Look, data: seq<Byte>) {
    Legal(s0, es) && Sane(Run(s0, es)) && Looks(Run(s0, es), l, data)
  }

  /** One more event at the end of such a run. */
  lemma Extend(s0: State, es: seq<Event>, e: Event, l: Look, data: seq<Byte>)
    requires Legal(s0, es) && Sane(Run(s0, es)) && Enabled(Run(s0, es), e) && !Misplaced(Run(s0, es), e)
    requires Looks(Step(Run(s0, es), e), l, data)
    ensures Reaches(s0, es + [e], l, data)
  {
    assert Front(es + [e]) == es;
    StepPartition(Run(s0, es), e);
    StepKeepsCarried(Run(s0, es), e);
  }

  lemma StartStep(s: State, l: Look, data: seq<Byte>, kind: Kind, stream: bool, fn: nat)
    requires Looks(s, l, data) && l.completions == 0 && l.phase == Idle && kind in {Recv, Connect}
    requires l.pool == EMPTY_POOL || (l.pool.slots == [None] && l.pool.freeIds == [0])
    ensures var e := StartRequest(kind, stream, fn, TAKE_ALL);
            var it := Item(0, true, kind, stream, AltFor(kind), fn);
            var pool := Pool([Some(|l.pool.objs|)], [], l.pool.objs + [it]);
      && Enabled(s, e) && !Misplaced(s, e)
      && Looks(Step(s, e), l.(pool := pool, kernel := l.kernel + [Sqe(0, OpFor(it))]), data)
  {
    var e := StartRequest(kind, stream, fn, TAKE_ALL);
    var it := Item(0, true, kind, stream, AltFor(kind), fn);
    PoolEventEffect(s, e);
    assert PoolAfter(s, e).objs == l.pool.objs + [it];
    assert PoolAfter(s, e).slots == [Some(|l.pool.objs|)];
  }

  lemma RunStart(s0: State, es: seq<Event>, l: Look, data: seq<Byte>, kind: Kind, stream: bool, fn: nat, l': Look)
    requires Reaches(s0, es, l, data) && l.completions == 0 && l.phase == Idle && kind in {Recv, Connect}
    requires l.pool == EMPTY_POOL || (l.pool.slots == [None] && l.pool.freeIds == [0])
    requires var it := Item(0, true, kind, stream, AltFor(kind), fn);
      l' == l.(pool := Pool([Some(|l.pool.objs|)], [], l.pool.objs + [it]), kernel := l.kernel + [Sqe(0, OpFor(it))])
    ensures Reaches(s0, es + [StartRequest(kind, stream, fn, TAKE_ALL)], l', data)
  {
    StartStep(Run(s0, es), l, data, kind, stream, fn);
    Extend(s0, es, StartRequest(kind, stream, fn, TAKE_ALL), l', data);
  }

  /** With nothing held, the oldest exposed buffer exists and is one of the 1024. */
  lemma BufferAtHand(s: State)
    requires Sane(s) && s.cq == []
    ensures Exposed(s.ring) > 0 && s.ring.entries[s.ring.head % BUFFERS] < BUFFERS
  {
    assert Held(s) == multiset{};
    OwnedOnce(s, 0);
    var bid := s.ring.entries[s.ring.head % BUFFERS];
    assert Window(s.ring)[0] == bid && bid in WindowSet(s);
    OwnedOnce(s, bid);
  }

  lemma ArriveStep(s: State, l: Look, data: seq<Byte>)
    requires Looks(s, l, data) && l.completions == 0 && Deliverable(data) && Sane(s)
    requires l.kernel != [] && l.kernel[0] == Sqe(0, OpRecvMsgMultishot)
    ensures Enabled(s, Arrives(data)) && !Misplaced(s, Arrives(data))
    ensures Looks(Step(s, Arrives(data)), l.(completions := 1), data)
  {
    BufferAtHand(s);
    FillThenView(s.mem, s.ring.entries[s.ring.head % BUFFERS], data, 0, 0);
  }

  /** A datagram arrives for the armed operation, which stays armed. */
  lemma RunArrive(s0: State, es: seq<Event>, l: Look, data: seq<Byte>)
    requires Reaches(s0, es, l, data) && l.completions == 0 && Deliverable(data)
    requires l.kernel != [] && l.kernel[0] == Sqe(0, OpRecvMsgMultishot)
    ensures Reaches(s0, es + [Arrives(data)], l.(completions := 1), data)
  {
    ArriveStep(Run(s0, es), l, data);
    Extend(s0, es, Arrives(data), l.(completions := 1), data);
  }

  /** The look of things once the head completion has called object `o`. */
  function Called(l: Look, o: nat, data: seq<Byte>): Look
    requires o < |l.pool.objs|
  {
    var it := l.pool.objs[o];
    var bytes := if it.kind == Recv then Payload(data) else [];
    l.(phase := InCallback(o), log := l.log + [Call(o, it.alt, it.fn, |data|, bytes)])
  }

  lemma PollStep(s: State, l: Look, data: seq<Byte>, o: nat)
    requires Looks(s, l, data) && l.completions == 1 && l.phase == Idle
    requires l.pool.slots == [Some(o)] && o < |l.pool.objs| && l.pool.objs[o] in {DATAGRAM_ITEM, CONNECT_ITEM}
    requires Deliverable(data)
    ensures Enabled(s, PollBegins) && !Misplaced(s, PollBegins)
    ensures Looks(Step(s, PollBegins), Called(l, o, data), data)
  {
    DispatchFrame(s);
  }

  /** The poll finds an item in slot 0 and calls it. */
  lemma RunPoll(s0: State, es: seq<Event>, l: Look, data: seq<Byte>, o: nat)
    requires Reaches(s0, es, l, data) && l.completions == 1 && l.phase == Idle
    requires l.pool.slots == [Some(o)] && o < |l.pool.objs| && l.pool.objs[o] in {DATAGRAM_ITEM, CONNECT_ITEM}
    requires Deliverable(data)
    ensures Reaches(s0, es + [PollBegins], Called(l, o, data), data)
  {
    PollStep(Run(s0, es), l, data, o);
    Extend(s0, es, PollBegins, Called(l, o, data), data);
  }

  /** The poll finds slot 0 empty: it advances, and the buffer belongs to nobody. */
  lemma LostStep(s: State, l: Look, data: seq<Byte>)
    requires Looks(s, l, data) && l.completions == 1 && l.phase == Idle && l.pool.slots == [None] && Sane(s)
    ensures Enabled(s, PollBegins) && Misplaced(s, PollBegins) && !Partitioned(Step(s, PollBegins))
    ensures Step(s, PollBegins).log == s.log && Step(s, PollBegins).halt == No
  {
    StepPartition(s, PollBegins);
  }

  /** The callback answers NONE and gives its buffer back. */
  lemma ReturnStep(s: State, l: Look, data: seq<Byte>)
    requires Looks(s, l, data) && l.completions == 1 && l.phase == InCallback(0) && l.pool == FIRST_POOL
    ensures var e := CallbackReturns(AnswerNone);
      Enabled(s, e) && !Misplaced(s, e) && Looks(Step(s, e), l.(phase := Returned(0, FreeItem)), data)
  {
  }

  /** Slot 0 is freed. */
  lemma FreeStep(s: State, l: Look, data: seq<Byte>)
    requires Looks(s, l, data) && l.completions == 1 && l.phase == Returned(0, FreeItem) && l.pool == FIRST_POOL
    ensures var e := PollSettles(TAKE_ALL);
      Enabled(s, e) && !Misplaced(s, e) && Looks(Step(s, e), l.(phase := Settled, pool := FREED_POOL), data)
  {
    assert Free(l.pool, 0) == FREED_POOL;
  }

  lemma AdvanceStep(s: State, l: Look, data: seq<Byte>)
    requires Looks(s, l, data) && l.completions == 1 && l.phase == Settled
    ensures Enabled(s, PollAdvances) && !Misplaced(s, PollAdvances)
    ensures Looks(Step(s, PollAdvances), l.(phase := Idle, completions := 0), data)
  {
  }

  /** The answer NONE and the free of slot 0, as one piece of a run. */
  lemma RunFree(s0: State, es: seq<Event>, l: Look, data: seq<Byte>) returns (es': seq<Event>)
    requires Reaches(s0, es, l, data)
    requires l.completions == 1 && l.phase == InCallback(0) && l.pool == FIRST_POOL
    ensures es' == es + [CallbackReturns(AnswerNone), PollSettles(TAKE_ALL)]
    ensures Reaches(s0, es', l.(phase := Settled, pool := FREED_POOL), data)
  {
    var l1 := l.(phase := Returned(0, FreeItem));
    ReturnStep(Run(s0, es), l, data);
    Extend(s0, es, CallbackReturns(AnswerNone), l1, data);
    es' := es + [CallbackReturns(AnswerNone)];
    FreeStep(Run(s0, es'), l1, data);
    Extend(s0, es', PollSettles(TAKE_ALL), l1.(phase := Settled, pool := FREED_POOL), data);
    es' := es' + [PollSettles(TAKE_ALL)];
  }

  /** And the advance. */
  lemma RunEnd(s0: State, es: seq<Event>, l: Look, data: seq<Byte>) returns (es': seq<Event>)
    requires Reaches(s0, es, l, data)
    requires l.completions == 1 && l.phase == InCallback(0) && l.pool == FIRST_POOL
    ensures es' == es + [CallbackReturns(AnswerNone), PollSettles(TAKE_ALL), PollAdvances]
    ensures Reaches(s0, es', Look(FREED_POOL, l.kernel, 0, Idle, l.log), data)
  {
    es' := RunFree(s0, es, l, data);
    var l1 := l.(phase := Settled, pool := FREED_POOL);
    AdvanceStep(Run(s0, es'), l1, data);
    Extend(s0, es', PollAdvances, l1.(phase := Idle, completions := 0), data);
    es' := es' + [PollAdvances];
  }

  const ARMED := [Sqe(0, OpRecvMsgMultishot)]
  const FIRST_POOL := Pool([Some(0)], [], [DATAGRAM_ITEM])
  const FREED_POOL := Pool([None], [0], [DATAGRAM_ITEM.(inUse := false)])

  const FRESH_LOOK := Look(EMPTY_POOL, [], 0, Idle, [])
  const ARMED_LOOK := Look(FIRST_POOL, ARMED, 0, Idle, [])

  function FreedLook(data: seq<Byte>): Look {
    Look(FREED_POOL, ARMED, 0, Idle, [Call(0, RecvFn, 1, |data|, Payload(data))])
  }

  /** The first three events: a datagram arrives and its callback is entered. */
  lemma CallbackEntered(s0: State, data: seq<Byte>) returns (es: seq<Event>)
    requires Reaches(s0, [], FRESH_LOOK, data) && Deliverable(data)
    ensures es == [StartRequest(Recv, false, 1, TAKE_ALL), Arrives(data), PollBegins]
    ensures Reaches(s0, es, Called(ARMED_LOOK.(completions := 1), 0, data), data)
  {
    assert EMPTY_POOL.objs + [DATAGRAM_ITEM] == [DATAGRAM_ITEM] && [] + ARMED == ARMED;
    RunStart(s0, [], FRESH_LOOK, data, Recv, false, 1, ARMED_LOOK);
    es := [] + [StartRequest(Recv, false, 1, TAKE_ALL)];
    RunArrive(s0, es, ARMED_LOOK, data);
    es := es + [Arrives(data)];
    RunPoll(s0, es, ARMED_LOOK.(completions := 1), data, 0);
    es := es + [PollBegins];
  }

  /** The next three: the callback answers NONE, and the item is freed while its operation is armed. */
  lemma FreedWhileArmed(s0: State, data: seq<Byte>) returns (es: seq<Event>)
    requires Reaches(s0, [], FRESH_LOOK, data) && Deliverable(data)
    ensures es == [StartRequest(Recv, false, 1, TAKE_ALL), Arrives(data), PollBegins]
                  + [CallbackReturns(AnswerNone), PollSettles(TAKE_ALL), PollAdvances]
    ensures Reaches(s0, es, FreedLook(data), data)
  {
    es := CallbackEntered(s0, data);
    es := RunEnd(s0, es, Called(ARMED_LOOK.(completions := 1), 0, data), data);
    assert [] + FreedLook(data).log == FreedLook(data).log;
  }

  lemma StartsLike(cap: nat, mem: Memory, data: seq<Byte>)
    requires MemoryOk(mem) && cap > 0
    ensures Reaches(Init(cap, mem), [], FRESH_LOOK, data)
  {
    InitPartition(cap, mem);
  }

  // ---------------------------------------------------------------------------------------------
  // A buffer lost

  /**
   * Two more events, a second datagram and its poll: the poll finds the slot empty, and a buffer is
   * lost, with every buffer accounted for up to there.
   */
  lemma LateDatagramLosesBuffer(cap: nat, mem: Memory, data: seq<Byte>) returns (es: seq<Event>)
    requires MemoryOk(mem) && cap > 0 && Deliverable(data)
    ensures |es| == 8 && Legal(Init(cap, mem), es) && Run(Init(cap, mem), es).halt == No
    ensures Partitioned(Run(Init(cap, mem), Front(es))) && !Partitioned(Run(Init(cap, mem), es))
    ensures Run(Init(cap, mem), es).log == [Call(0, RecvFn, 1, |data|, Payload(data))]
  {
    var s0 := Init(cap, mem);
    StartsLike(cap, mem, data);
    var before := FreedWhileArmed(s0, data);
    RunArrive(s0, before, FreedLook(data), data);
    before := before + [Arrives(data)];
    LostStep(Run(s0, before), FreedLook(data).(completions := 1), data);
    es := before + [PollBegins];
    assert Front(es) == before;
  }

  // ---------------------------------------------------------------------------------------------
  // A callback run for somebody else's completion

  const REUSED_POOL := Pool([Some(1)], [], [DATAGRAM_ITEM.(inUse := false), CONNECT_ITEM])
  const BOTH_ARMED := [Sqe(0, OpRecvMsgMultishot), Sqe(0, OpConnect)]

  function ReusedLook(data: seq<Byte>): Look {
    FreedLook(data).(pool := REUSED_POOL, kernel := BOTH_ARMED)
  }

  /** Slot 0 is given to a connect request. */
  lemma SlotReused(s0: State, before: seq<Event>, data: seq<Byte>) returns (es: seq<Event>)
    requires Reaches(s0, before, FreedLook(data), data)
    ensures es == before + [StartRequest(Connect, true, 2, TAKE_ALL)]
    ensures Reaches(s0, es, ReusedLook(data), data)
  {
    assert FREED_POOL.objs + [CONNECT_ITEM] == REUSED_POOL.objs;
    assert ARMED + [Sqe(0, OpConnect)] == BOTH_ARMED;
    RunStart(s0, before, FreedLook(data), data, Connect, true, 2, ReusedLook(data));
    es := before + [StartRequest(Connect, true, 2, TAKE_ALL)];
  }

  /** A second datagram reaches it. */
  lemma NewOccupantCalled(s0: State, before: seq<Event>, data: seq<Byte>) returns (es: seq<Event>)
    requires Reaches(s0, before, ReusedLook(data), data) && Deliverable(data)
    ensures es == before + [Arrives(data), PollBegins]
    ensures Reaches(s0, es, Called(ReusedLook(data).(completions := 1), 1, data), data)
  {
    es := before;
    RunArrive(s0, es, ReusedLook(data), data);
    es := es + [Arrives(data)];
    RunPoll(s0, es, ReusedLook(data).(completions := 1), data, 1);
    es := es + [PollBegins];
  }

  /**
   * From start-up, whatever the datagrams: object 1, a connect request, has its callback
   * run with a datagram's length for a result while its own operation is still in the kernel. The
   * run has a stale free in it.
   */
  lemma StaleCompletionReachesNewOccupant(cap: nat, mem: Memory, data: seq<Byte>) returns (es: seq<Event>)
    requires MemoryOk(mem) && cap > 0 && Deliverable(data)
    ensures |es| == 9 && Legal(Init(cap, mem), es) && !Disciplined(Init(cap, mem), es)
    ensures var s := Run(Init(cap, mem), es);
      && s.log == [Call(0, RecvFn, 1, |data|, Payload(data)), Call(1, ConnectFn, 2, |data|, [])]
      && |s.pool.objs| == 2 && s.pool.objs[1] == CONNECT_ITEM
      && Sqe(0, OpConnect) in s.kernel
  {
    var s0 := Init(cap, mem);
    StartsLike(cap, mem, data);
    es := FreedWhileArmed(s0, data);
    es := SlotReused(s0, es, data);
    es := NewOccupantCalled(s0, es, data);
    assert BOTH_ARMED[0] in BOTH_ARMED && BOTH_ARMED[1] in BOTH_ARMED;
    if Disciplined(s0, es) {
      InitInv(cap, mem);
      RunKeepsInv(s0, es);
      OneOperationPerSlot(Run(s0, es), BOTH_ARMED[0], BOTH_ARMED[1]);
      assert false;
    }
  }

  /** In a routed state, entries for the same id are entries for the same operation. */
  lemma OneOperationPerSlot(s: State, e: Sqe, e': Sqe)
    requires Inv(s) && e in s.kernel && e' in s.kernel && e.id == e'.id
    ensures e.op == e'.op
  {
    assert e in Entries(s) && e' in Entries(s);
    assert EntryOk(s.pool, e) && EntryOk(s.pool, e');
  }
}
