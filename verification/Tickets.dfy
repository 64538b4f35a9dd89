/**
 * The abstract machine: what a user of the library may believe.
 *
 * Requests are tickets, numbered once and never again. There are no slots, no free stack and no
 * shared memory: a completion carries its ticket and its bytes, the checks on a datagram read those
 * bytes, and of the buffers only their number is left. Freeing a request is nothing at all.
 */
module Tickets {
  import opened Basics
  import opened BufferRing
  import opened WorkPools
  import opened Engine
  import opened Receives

  datatype Request = Request(kind: Kind, stream: bool, fn: nat)
  datatype Entry = Entry(ticket: nat, op: Op)
  datatype Completion = Completion(ticket: nat, res: int, data: seq<Byte>)

  datatype Book = Book(
    cap: nat,
    requests: seq<Request>,
    sq: seq<Entry>,
    kernel: seq<Entry>,
    cq: seq<Completion>,
    buffers: nat,
    phase: Phase,
    halt: Halt,
    log: seq<Call>)

  function Open(cap: nat): Book {
    Book(cap, [], [], [], [], EXPOSED_AT_START, Idle, No, [])
  }

  function FlushBook(b: Book, f: FlushResult): Book {
    match f
    case FlushFailed => b
    case Took(n) =>
      if n >= |b.sq| then b.(sq := [], kernel := b.kernel + b.sq)
      else b.(sq := b.sq[n..], kernel := b.kernel + b.sq[..n])
  }

  function MakeRoom(b: Book, retry: FlushResult): Book {
    if |b.sq| < b.cap then b
    else
      var b1 := FlushBook(b, retry);
      if |b1.sq| < b.cap then b1 else b1.(halt := Aborted)
  }

  function OpOf(r: Request): Op
    requires r.kind != Unknown
  {
    match r.kind
    case Accept => OpAccept
    case Connect => OpConnect
    case Close => OpClose
    case Recv => if r.stream then OpRecv else OpRecvMsgMultishot
    case SendStreamData => OpSend
    case SendWorkPacket => OpSendMsg
  }

  function Queue(b: Book, ticket: nat, fl: Flushes): Book
    requires ticket < |b.requests| && b.requests[ticket].kind != Unknown
  {
    var b1 := MakeRoom(b, fl.retry);
    var r := b.requests[ticket];
    if b1.halt != No then b1
    else if (r.kind == SendStreamData && !r.stream) || (r.kind == SendWorkPacket && r.stream) then
      b1.(halt := WrongSend)
    else FlushBook(b1.(sq := b1.sq + [Entry(ticket, OpOf(r))]), fl.last)
  }

  /** The function a ticket's owner is told by. */
  function Told(kind: Kind): Alternative {
    match kind
    case Accept => AcceptFn
    case Connect => ConnectFn
    case Close => CloseFn
    case Recv => RecvFn
    case SendStreamData => SendFn
    case SendWorkPacket => SendFn
    case Unknown => ConnectFn
  }

  function Invoke(b: Book, ticket: nat, res: int, bytes: seq<Byte>): Book
    requires ticket < |b.requests|
  {
    var r := b.requests[ticket];
    b.(phase := InCallback(ticket), log := b.log + [Call(ticket, Told(r.kind), r.fn, res, bytes)])
  }

  function Receive(b: Book, c: Completion): Book
    requires c.ticket < |b.requests|
  {
    if c.res < 0 then
      if c.res == -104 then b.(phase := Returned(c.ticket, Rearm)) else b.(halt := Aborted)
    else if b.requests[c.ticket].stream then Invoke(b, c.ticket, c.res, c.data)
    else if SentBack(c.data) then b.(buffers := b.buffers + 1, phase := Returned(c.ticket, Rearm))
    else if KnownSender(c.data) then Invoke(b, c.ticket, c.res, c.data[144..])
    else b.(halt := Aborted)
  }

  function Serve(b: Book, c: Completion): Book
    requires c.ticket < |b.requests| && b.requests[c.ticket].kind != Unknown
  {
    if c.res == -105 then b.(phase := Settled)
    else match b.requests[c.ticket].kind
      case Accept => if c.res < 0 then b.(phase := Returned(c.ticket, Rearm)) else Invoke(b, c.ticket, c.res, [])
      case Close => Invoke(b, c.ticket, c.res, [])
      case Recv => Receive(b, c)
      case Connect | SendStreamData | SendWorkPacket =>
        if c.res < 0 then b.(phase := Returned(c.ticket, FreeItem)) else Invoke(b, c.ticket, c.res, [])
  }

  function Finish(b: Book, ticket: nat, answer: Answer): Book
    requires ticket < |b.requests|
  {
    match b.requests[ticket].kind
    case Accept => b.(phase := Returned(ticket, Rearm))
    case Recv =>
      b.(buffers := b.buffers + 1, phase := Returned(ticket, if answer == AnswerNone then FreeItem else Rearm))
    case _ => b.(phase := Returned(ticket, FreeItem))
  }

  function Conclude(b: Book, ticket: nat, action: PostAction, fl: Flushes): Book
    requires ticket < |b.requests| && b.requests[ticket].kind != Unknown
  {
    match action
    case FreeItem => b.(phase := Settled)
    case Rearm =>
      var b1 := Queue(b, ticket, fl);
      if b1.halt != No then b1 else b1.(phase := Settled)
  }

  function Complete(b: Book, k: nat, res: int, more: bool, data: seq<Byte>): Book
    requires k < |b.kernel| && MayPost(b.kernel[k].op, b.buffers, res, more, data)
  {
    var e := b.kernel[k];
    b.(kernel := if more then b.kernel else RemoveAt(b.kernel, k),
       cq := b.cq + [Completion(e.ticket, res, data)],
       buffers := if IsRecvOp(e.op) && res >= 0 then b.buffers - 1 else b.buffers)
  }

  function AddRequest(b: Book, r: Request): Book {
    b.(requests := b.requests + [r])
  }

  predicate Possible(b: Book, e: Event) {
    && b.halt == No
    && match e
       case StartRequest(kind, _, _, _) =>
         (b.phase.Idle? || b.phase.InCallback?) && kind in {Accept, Connect, Recv, Close}
       case AcquireSend(_) => b.phase.Idle? || b.phase.InCallback?
       case SubmitSend(ticket, _, _, _) =>
         && (b.phase.Idle? || b.phase.InCallback?)
         && ticket < |b.requests| && b.requests[ticket].kind == Unknown
       case KernelPosts(k, res, more, data) =>
         k < |b.kernel| && MayPost(b.kernel[k].op, b.buffers, res, more, data)
       case PollFails => b.phase.Idle?
       case PollBegins =>
         && b.phase.Idle?
         && (b.cq != [] ==> b.cq[0].ticket < |b.requests| && b.requests[b.cq[0].ticket].kind != Unknown)
       case CallbackReturns(_) => b.phase.InCallback? && b.phase.obj < |b.requests|
       case PollSettles(_) =>
         b.phase.Returned? && b.phase.obj < |b.requests| && b.requests[b.phase.obj].kind != Unknown
       case PollAdvances => b.phase.Settled? && b.cq != []
  }

  function Next(b: Book, e: Event): Book
    requires Possible(b, e)
  {
    match e
    case StartRequest(kind, stream, fn, fl) =>
      Queue(AddRequest(b, Request(kind, stream, fn)), |b.requests|, fl)
    case AcquireSend(stream) => AddRequest(b, Request(Unknown, stream, 0))
    case SubmitSend(ticket, packet, fn, fl) =>
      var kind := if packet then SendWorkPacket else SendStreamData;
      Queue(b.(requests := b.requests[ticket := Request(kind, b.requests[ticket].stream, fn)]), ticket, fl)
    case KernelPosts(k, res, more, data) => Complete(b, k, res, more, data)
    case PollFails => b.(halt := Aborted)
    case PollBegins => if b.cq == [] then b else Serve(b, b.cq[0])
    case CallbackReturns(answer) => Finish(b, b.phase.obj, answer)
    case PollSettles(fl) => Conclude(b, b.phase.obj, b.phase.action, fl)
    case PollAdvances => b.(cq := b.cq[1..], phase := Idle)
  }

  predicate PossibleRun(b: Book, es: seq<Event>)
    decreases |es|, 0
  {
    es == [] || (PossibleRun(b, Front(es)) && Possible(Play(b, Front(es)), Last(es)))
  }

  function Play(b: Book, es: seq<Event>): Book
    requires PossibleRun(b, es)
    decreases |es|, 1
  {
    if es == [] then b else Next(Play(b, Front(es)), Last(es))
  }
}
