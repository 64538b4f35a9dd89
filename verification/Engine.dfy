/**
 * The request lifecycle engine of src/IOUring.cpp as a state machine.
 *
 * One step is one thing the program or the kernel does between two points where the other side may
 * act: a user call, a flush inside it, one completion posted by the kernel, and the four stages of
 * `poll_completion_queues` (enter the callback, leave it, free or re-submit, advance the queue).
 * The kernel never sees anything of a request but the slot id in its user data.
 */
module Engine {
  import opened Basics
  import opened BufferRing
  import opened WorkPools

  // Linux and glibc values of the constants the source names.
  const ENOBUFS: int := 105
  const EAI_INTR: int := -104

  /** The operation a submission entry was prepared for. */
  datatype Op = OpAccept | OpConnect | OpClose | OpRecv | OpRecvMsgMultishot | OpSend | OpSendMsg

  datatype Sqe = Sqe(id: nat, op: Op)

  /** `bid` is the buffer number in the upper half of the flags, `more` is `IORING_CQE_F_MORE`. */
  datatype Cqe = Cqe(id: nat, res: int, bid: Option<nat>, more: bool)

  datatype Answer = AnswerNone | AnswerResubmit
  datatype PostAction = FreeItem | Rearm

  /** The outcome of one `io_uring_submit`: an error, or a number of entries taken. */
  datatype FlushResult = FlushFailed | Took(n: nat)

  /** The outcomes of the two flushes one `submit` may do: for a full queue, and at its end. */
  datatype Flushes = Flushes(retry: FlushResult, last: FlushResult)

  /** One invocation of a user callback: of which object, which stored function, with what. */
  datatype Call = Call(obj: nat, alt: Alternative, fn: nat, res: int, bytes: seq<Byte>)

  /** Where `poll_completion_queues` stands; the completion at hand is the head of the queue. */
  datatype Phase = Idle | InCallback(obj: nat) | Returned(obj: nat, action: PostAction) | Settled

  /** Why the engine stopped: `abort()`, an assertion on its own state, or the one on a send's socket. */
  datatype Halt = No | Aborted | AssertionFailed | WrongSend

  datatype State = State(
    cap: nat,
    pool: Pool,
    sq: seq<Sqe>,
    kernel: seq<Sqe>,
    cq: seq<Cqe>,
    ring: BufRing,
    mem: Memory,
    phase: Phase,
    halt: Halt,
    log: seq<Call>,
    // History: entries ever prepared, entries taken by the kernel, completions ever posted,
    // completions ever dispatched, objects whose completion was -ENOBUFS.
    prepared: seq<Sqe>,
    taken: seq<Sqe>,
    posted: seq<Cqe>,
    dispatched: seq<Cqe>,
    stranded: set<nat>)

  predicate StateOk(s: State) {
    RingOk(s.ring) && MemoryOk(s.mem)
  }

  function Init(cap: nat, mem: Memory): State {
    State(cap, EMPTY_POOL, [], [], [], SetupRing(), mem, Idle, No, [], [], [], [], [], {})
  }

  // ---------------------------------------------------------------------------------------------
  // Submission

  function TakenCount(f: FlushResult, queued: nat): (n: nat)
    ensures n <= queued
  {
    match f
    case FlushFailed => 0
    case Took(n) => Min(n, queued)
  }

  /** `submit_all_requests`: the kernel takes a prefix, possibly empty; the rest stays queued. */
  function Flush(s: State, f: FlushResult): State {
    var n := TakenCount(f, |s.sq|);
    s.(sq := s.sq[n..], kernel := s.kernel + s.sq[..n], taken := s.taken + s.sq[..n])
  }

  /** `get_sqe`: flush once when the queue is full, abort when it still is. */
  function GetSqe(s: State, retry: FlushResult): State {
    if |s.sq| < s.cap then s
    else
      var s1 := Flush(s, retry);
      if |s1.sq| < s.cap then s1 else s1.(halt := Aborted)
  }

  function OpFor(it: Item): Op
    requires it.kind != Unknown
  {
    match it.kind
    case Accept => OpAccept
    case Connect => OpConnect
    case Close => OpClose
    case Recv => if it.stream then OpRecv else OpRecvMsgMultishot
    case SendStreamData => OpSend
    case SendWorkPacket => OpSendMsg
  }

  function Prepare(s: State, e: Sqe): State {
    s.(sq := s.sq + [e], prepared := s.prepared + [e])
  }

  /** `IOUring::submit` for object `o`. */
  function Submit(s: State, o: nat, fl: Flushes): State
    requires o < |s.pool.objs|
  {
    var s1 := GetSqe(s, fl.retry);
    var it := s.pool.objs[o];
    if s1.halt != No then s1
    else if it.kind == Unknown then s1.(halt := Aborted)
    else if (it.kind == SendStreamData && !it.stream) || (it.kind == SendWorkPacket && it.stream) then
      s1.(halt := WrongSend)
    else Flush(Prepare(s1, Sqe(it.id, OpFor(it))), fl.last)
  }

  function AltFor(kind: Kind): Alternative {
    match kind
    case Accept => AcceptFn
    case Recv => RecvFn
    case Close => CloseFn
    case SendStreamData | SendWorkPacket => SendFn
    case Connect | Unknown => ConnectFn
  }

  /** A `WorkItem::submit` overload: callback and type together, then into the ring. */
  function AssignAndSubmit(s: State, o: nat, kind: Kind, fn: nat, fl: Flushes): State
    requires o < |s.pool.objs|
  {
    Submit(s.(pool := Assign(s.pool, o, kind, AltFor(kind), fn)), o, fl)
  }

  /** `submit_accept`, `submit_connect`, `submit_recv`, `submit_close`: allocate, then submit. */
  function Start(s: State, kind: Kind, stream: bool, fn: nat, fl: Flushes): State {
    AssignAndSubmit(s.(pool := Alloc(s.pool, stream)), |s.pool.objs|, kind, fn, fl)
  }

  // ---------------------------------------------------------------------------------------------
  // Completion

  /** `WorkItem::call_*_callback`: the variant must hold the expected alternative. */
  function Enter(s: State, o: nat, alt: Alternative, res: int, bytes: seq<Byte>): State
    requires o < |s.pool.objs|
  {
    var it := s.pool.objs[o];
    if it.alt != alt then s.(halt := AssertionFailed)
    else s.(phase := InCallback(o), log := s.log + [Call(o, alt, it.fn, res, bytes)])
  }

  // A received datagram starts with a header of four words, the room for the sender's name, and then
  // the payload: `io_uring_recvmsg_out` with no control data.
  const HEADER_SIZE: nat := 16
  const NAME_ROOM: nat := 128
  const MSG_TRUNC: nat := 0x20

  /** The 32-bit word at `i`, as a little-endian host reads it. */
  function HeaderWord(data: seq<Byte>, i: nat): nat
    requires i + 4 <= |data|
  {
    data[i] + data[i + 1] as nat * 0x100 + data[i + 2] as nat * 0x1_0000 + data[i + 3] as nat * 0x100_0000
  }

  datatype Verdict = Deliver | Resubmit | Reject

  /** The checks of `call_recv_handler_datagram`, read from the received bytes themselves. */
  function Judge(data: seq<Byte>): Verdict {
    if |data| < HEADER_SIZE + NAME_ROOM then Resubmit
    else
      var nameLen, flags := HeaderWord(data, 0), HeaderWord(data, 12);
      if nameLen > NAME_ROOM || flags / MSG_TRUNC % 2 == 1 then Resubmit
      else if nameLen == 0 || nameLen == 16 || nameLen == 28 then Deliver
      else Reject
  }

  /** What a datagram callback is shown. */
  function Payload(data: seq<Byte>): seq<Byte> {
    if |data| < HEADER_SIZE + NAME_ROOM then [] else data[HEADER_SIZE + NAME_ROOM..]
  }

  /** `flags >> 16`, taken unchecked: 0 when the completion carries no buffer. */
  function BidOf(c: Cqe): nat {
    if c.bid.Some? then c.bid.value else 0
  }

  function ViewOrEmpty(mem: Memory, bid: nat, len: int): seq<Byte>
    requires MemoryOk(mem)
  {
    if bid < BUFFERS && 0 <= len <= BUFFER_SIZE then View(mem, bid, len) else []
  }

  /** `call_recv_callback`, up to the entry of the user callback or to its own return. */
  function DispatchRecv(s: State, o: nat, c: Cqe): State
    requires StateOk(s) && o < |s.pool.objs|
  {
    if c.res < 0 then
      if c.res == EAI_INTR then s.(phase := Returned(o, Rearm)) else s.(halt := Aborted)
    else
      var bytes := ViewOrEmpty(s.mem, BidOf(c), c.res);
      if s.pool.objs[o].stream then Enter(s, o, RecvFn, c.res, bytes)
      else if c.bid == None then s.(halt := Aborted)
      else match Judge(bytes)
        case Deliver => Enter(s, o, RecvFn, c.res, Payload(bytes))
        case Resubmit => s.(ring := Recycle(s.ring, BidOf(c)), phase := Returned(o, Rearm))
        case Reject => s.(halt := Aborted)
  }

  /** The switch of `call_callback_and_free_work_item_id`, up to the entry of a user callback. */
  function DispatchItem(s: State, o: nat, c: Cqe): State
    requires StateOk(s) && o < |s.pool.objs|
  {
    match s.pool.objs[o].kind
    case Accept => if c.res < 0 then s.(phase := Returned(o, Rearm)) else Enter(s, o, AcceptFn, c.res, [])
    case Close => Enter(s, o, CloseFn, c.res, [])
    case Recv => DispatchRecv(s, o, c)
    case Connect => if c.res < 0 then s.(phase := Returned(o, FreeItem)) else Enter(s, o, ConnectFn, c.res, [])
    case SendStreamData | SendWorkPacket =>
      if c.res < 0 then s.(phase := Returned(o, FreeItem)) else Enter(s, o, SendFn, c.res, [])
    case Unknown => s.(halt := AssertionFailed)
  }

  /** `call_callback_and_free_work_item_id`, from the look-up of the slot. */
  function Dispatch(s: State): State
    requires StateOk(s) && s.cq != []
  {
    var c := s.cq[0];
    var s1 := s.(dispatched := s.dispatched + [c]);
    if c.id >= |s.pool.slots| then s1.(halt := AssertionFailed)
    else match s.pool.slots[c.id]
      case None => s1.(phase := Settled)
      case Some(o) =>
        if o >= |s.pool.objs| || !s.pool.objs[o].inUse then s1.(halt := AssertionFailed)
        else if c.res == -ENOBUFS then s1.(phase := Settled, stranded := s.stranded + {o})
        else DispatchItem(s1, o, c)
  }

  /** The user callback returns; a receive gives its buffer back and obeys the answer. */
  function Return(s: State, o: nat, answer: Answer): State
    requires StateOk(s) && o < |s.pool.objs| && s.cq != []
  {
    match s.pool.objs[o].kind
    case Accept => s.(phase := Returned(o, Rearm))
    case Recv =>
      s.(ring := Recycle(s.ring, BidOf(s.cq[0])),
         phase := Returned(o, if answer == AnswerNone then FreeItem else Rearm))
    case _ => s.(phase := Returned(o, FreeItem))
  }

  /** Free the completed item's id, or submit the item again. */
  function Settle(s: State, o: nat, action: PostAction, fl: Flushes): State
    requires o < |s.pool.objs| && s.cq != []
  {
    match action
    case FreeItem =>
      if CanFree(s.pool, s.cq[0].id) then s.(pool := Free(s.pool, s.cq[0].id), phase := Settled)
      else s.(halt := AssertionFailed)
    case Rearm =>
      var s1 := Submit(s, o, fl);
      if s1.halt != No then s1 else s1.(phase := Settled)
  }

  /** `io_uring_cq_advance`. */
  function AdvanceQueue(s: State): State
    requires s.cq != []
  {
    s.(cq := s.cq[1..], phase := Idle)
  }

  // ---------------------------------------------------------------------------------------------
  // The kernel

  predicate IsRecvOp(op: Op) {
    op == OpRecv || op == OpRecvMsgMultishot
  }

  /**
   * What the kernel may post for an operation. A one-shot operation ends with its completion. A
   * receive that succeeds carries the oldest exposed buffer, which it has filled with `res` bytes;
   * no other completion carries a buffer.
   */
  predicate MayPost(op: Op, buffers: nat, res: int, more: bool, data: seq<Byte>) {
    && (more ==> op == OpRecvMsgMultishot && res >= 0)
    && (if IsRecvOp(op) && res >= 0 then buffers > 0 && |data| == res && res <= BUFFER_SIZE else data == [])
  }

  /** The kernel completes operation `k` once, keeping it armed when `more`. */
  function Post(s: State, k: nat, res: int, more: bool, data: seq<Byte>): State
    requires StateOk(s) && k < |s.kernel| && MayPost(s.kernel[k].op, Exposed(s.ring), res, more, data)
  {
    var e := s.kernel[k];
    var kernel := if more then s.kernel else RemoveAt(s.kernel, k);
    if IsRecvOp(e.op) && res >= 0 then
      var bid := s.ring.entries[s.ring.head % BUFFERS];
      var c := Cqe(e.id, res, Some(bid), more);
      s.(kernel := kernel, cq := s.cq + [c], posted := s.posted + [c], ring := Consume(s.ring),
         mem := if bid < BUFFERS then Fill(s.mem, bid, data) else s.mem)
    else
      var c := Cqe(e.id, res, None, more);
      s.(kernel := kernel, cq := s.cq + [c], posted := s.posted + [c])
  }

  // ---------------------------------------------------------------------------------------------
  // Steps and runs

  datatype Event =
    | StartRequest(kind: Kind, stream: bool, fn: nat, fl: Flushes)
    | AcquireSend(stream: bool)
    | SubmitSend(obj: nat, packet: bool, fn: nat, fl: Flushes)
    | KernelPosts(k: nat, res: int, more: bool, data: seq<Byte>)
    | PollFails
    | PollBegins
    | CallbackReturns(answer: Answer)
    | PollSettles(fl: Flushes)
    | PollAdvances

  /** The user may call in between polls, and from inside a callback. */
  predicate UserTurn(s: State) {
    s.phase.Idle? || s.phase.InCallback?
  }

  /**
   * The usage contract of the interface, and the kernel's. A send item is submitted once; callbacks
   * do not poll.
   */
  predicate Enabled(s: State, e: Event) {
    && StateOk(s)
    && s.halt == No
    && match e
       case StartRequest(kind, _, _, _) =>
         UserTurn(s) && kind in {Accept, Connect, Recv, Close}
       case AcquireSend(_) => UserTurn(s)
       case SubmitSend(o, _, _, _) =>
         UserTurn(s) && o < |s.pool.objs| && s.pool.objs[o].kind == Unknown
       case KernelPosts(k, res, more, data) =>
         k < |s.kernel| && MayPost(s.kernel[k].op, Exposed(s.ring), res, more, data)
       case PollFails => s.phase.Idle?
       case PollBegins => s.phase.Idle?
       case CallbackReturns(_) => s.phase.InCallback? && s.phase.obj < |s.pool.objs| && s.cq != []
       case PollSettles(_) => s.phase.Returned? && s.phase.obj < |s.pool.objs| && s.cq != []
       case PollAdvances => s.phase.Settled? && s.cq != []
  }

  function Step(s: State, e: Event): State
    requires Enabled(s, e)
  {
    match e
    case StartRequest(kind, stream, fn, fl) => Start(s, kind, stream, fn, fl)
    case AcquireSend(stream) => s.(pool := Alloc(s.pool, stream))
    case SubmitSend(o, packet, fn, fl) =>
      AssignAndSubmit(s, o, if packet then SendWorkPacket else SendStreamData, fn, fl)
    case KernelPosts(k, res, more, data) => Post(s, k, res, more, data)
    case PollFails => s.(halt := Aborted)
    case PollBegins => if s.cq == [] then s else Dispatch(s)
    case CallbackReturns(answer) => Return(s, s.phase.obj, answer)
    case PollSettles(fl) => Settle(s, s.phase.obj, s.phase.action, fl)
    case PollAdvances => AdvanceQueue(s)
  }

  /** Every event of the run is allowed where it happens. */
  predicate Legal(s: State, es: seq<Event>)
    decreases |es|, 0
  {
    es == [] || (Legal(s, Front(es)) && Enabled(Run(s, Front(es)), Last(es)))
  }

  function Run(s: State, es: seq<Event>): State
    requires Legal(s, es)
    decreases |es|, 1
  {
    if es == [] then s else Step(Run(s, Front(es)), Last(es))
  }

  function Front(es: seq<Event>): seq<Event>
    requires es != []
  {
    es[..|es| - 1]
  }

  function Last(es: seq<Event>): Event
    requires es != []
  {
    es[|es| - 1]
  }
}
