/**
 * The engine as the source has it: objects, queues and a buffer ring updated in place. Every method
 * is proved to do what the step of the state machine of the same name does, so that everything
 * proved about runs of the machine holds of this class.
 */
module IOUrings {
  import opened Basics
  import opened BufferRing
  import opened WorkPools
  import opened Engine
  import opened Polls

  class IOUring {
    const queueSize: nat
    const pool: WorkPool
    const buffers: BufferPool

    // Shared with the kernel: the submission queue, what the kernel has accepted of it, the
    // completion queue, and the mapping that holds the buffers.
    var sq: seq<Sqe>
    var kernel: seq<Sqe>
    var cq: seq<Cqe>
    var mem: Memory

    var halt: Halt

    /** Where `poll_completion_queues` stands. */
    var phase: Phase

    // History.
    ghost var log: seq<Call>
    ghost var prepared: seq<Sqe>
    ghost var taken: seq<Sqe>
    ghost var posted: seq<Cqe>
    ghost var dispatched: seq<Cqe>
    ghost var stranded: set<nat>

    /** The objects hang together; nothing yet about the pool's own invariant. */
    ghost predicate Linked()
      reads this, pool, buffers, buffers.entries
    {
      pool.Graph() && buffers.Valid() && MemoryOk(mem)
    }

    ghost predicate Valid()
      reads this, pool, pool.all, buffers, buffers.entries
    {
      Linked() && PoolOk(pool.Value())
    }

    ghost function Value(): (s: State)
      reads this, pool, pool.all, buffers, buffers.entries
    {
      State(queueSize, pool.Value(), sq, kernel, cq, buffers.Value(), mem, phase, halt, log,
            prepared, taken, posted, dispatched, stranded)
    }

    /** `item` is one of the pool's objects. */
    ghost predicate Owns(item: WorkItem)
      reads pool
    {
      item.serial < |pool.all| && pool.all[item.serial] == item
    }

    constructor (queueSize: nat, mem: Memory)
      requires MemoryOk(mem)
      ensures Valid() && Value() == Init(queueSize, mem)
      ensures fresh(pool) && fresh(buffers) && fresh(buffers.entries) && pool.all == []
    {
      this.queueSize := queueSize;
      pool := new WorkPool();
      buffers := new BufferPool();
      sq, kernel, cq := [], [], [];
      this.mem := mem;
      halt := No;
      phase, log, prepared, taken, posted, dispatched, stranded := Idle, [], [], [], [], [], {};
    }

    // -------------------------------------------------------------------------------------------
    // Submission

    /** Nothing moves when the flush fails, and otherwise the first entries do, as many as it took. */
    static ghost predicate Moved(f: FlushResult, queue: seq<Sqe>, queue': seq<Sqe>, to: seq<Sqe>, to': seq<Sqe>) {
      match f
      case FlushFailed => queue' == queue && to' == to
      case Took(n) =>
        if n <= |queue| then queue' == queue[n..] && to' == to + queue[..n] else queue' == [] && to' == to + queue
    }

    /** `submit_all_requests`: a failure is logged and otherwise ignored. */
    method SubmitAllRequests(f: FlushResult)
      modifies this`sq, this`kernel, this`taken
      ensures Moved(f, old(sq), sq, old(kernel), kernel) && Moved(f, old(sq), sq, old(taken), taken)
      ensures Value() == Flush(old(Value()), f)
    {
      var n := TakenCount(f, |sq|);
      kernel := kernel + sq[..n];
      taken := taken + sq[..n];
      sq := sq[n..];
    }

    /** `get_sqe`: false when the queue is full even after a flush, and the engine has given up. */
    method GetSubmissionEntry(retry: FlushResult) returns (ok: bool)
      requires halt == No
      modifies this`sq, this`kernel, this`taken, this`halt
      ensures Value() == GetSqe(old(Value()), retry)
      ensures ok == (halt == No)
    {
      ok := |sq| < queueSize;
      if ok {
        return;
      }
      ghost var flushed := Flush(Value(), retry);
      SubmitAllRequests(retry);
      assert Value() == flushed;
      ok := |sq| < queueSize;
      if !ok {
        halt := Aborted;
      }
    }

    /** The entry is prepared, and the queue flushed. */
    method QueueEntry(e: Sqe, last: FlushResult)
      modifies this`sq, this`kernel, this`taken, this`prepared
      ensures Value() == Flush(Prepare(old(Value()), e), last)
    {
      ghost var prepared1 := Prepare(Value(), e);
      sq := sq + [e];
      prepared := prepared + [e];
      assert Value() == prepared1;
      SubmitAllRequests(last);
    }

    /** `IOUring::submit`. */
    method SubmitWorkItem(item: WorkItem, fl: Flushes)
      requires Linked() && Owns(item) && halt == No
      modifies this`sq, this`kernel, this`taken, this`prepared, this`halt
      ensures Linked() && Value() == Submit(old(Value()), item.serial, fl)
    {
      var ok := GetSubmissionEntry(fl.retry);
      if ok {
        if item.kind == Unknown {
          halt := Aborted;
        } else if (item.kind == SendStreamData && !item.stream) || (item.kind == SendWorkPacket && item.stream) {
          halt := WrongSend;
        } else {
          var op := match item.kind
            case Accept => OpAccept
            case Connect => OpConnect
            case Close => OpClose
            case Recv => if item.stream then OpRecv else OpRecvMsgMultishot
            case SendStreamData => OpSend
            case SendWorkPacket => OpSendMsg;
          QueueEntry(Sqe(item.id, op), fl.last);
        }
      }
    }

    /** A `WorkItem::submit` overload on an object of the pool. */
    method PrepareAndSubmit(item: WorkItem, kind: Kind, fn: nat, fl: Flushes)
      requires Valid() && Owns(item) && halt == No
      modifies this, item
      ensures Valid() && pool.all == old(pool.all)
      ensures Value() == AssignAndSubmit(old(Value()), item.serial, kind, fn, fl)
    {
      ghost var was := Value();
      item.Prepare(kind, AltFor(kind), fn);
      AssignOk(was.pool, item.serial, kind, AltFor(kind), fn);
      ghost var next := Assign(was.pool, item.serial, kind, AltFor(kind), fn);
      assert pool.Value().objs == next.objs;
      assert pool.Value() == next;
      SubmitWorkItem(item, fl);
    }

    /** `submit_accept`, `submit_connect`, `submit_recv` and `submit_close`, by kind. */
    method SubmitNew(kind: Kind, stream: bool, fn: nat, fl: Flushes)
      requires Valid() && halt == No
      modifies this, pool
      ensures Valid() && |pool.all| == |old(pool.all)| + 1 && pool.all[..|old(pool.all)|] == old(pool.all)
      ensures fresh(pool.all[|old(pool.all)|])
      ensures Value() == Start(old(Value()), kind, stream, fn, fl)
    {
      var item := pool.InternalAlloc(stream);
      PrepareAndSubmit(item, kind, fn, fl);
    }

    /** `ackuire_send_workitem`. */
    method AcquireSendItem(stream: bool) returns (item: WorkItem)
      requires Valid() && halt == No
      modifies pool
      ensures Valid() && fresh(item) && pool.all == old(pool.all) + [item] && item.serial == |old(pool.all)|
      ensures Value() == old(Value()).(pool := Alloc(old(pool.Value()), stream))
    {
      item := pool.InternalAlloc(stream);
    }

    // -------------------------------------------------------------------------------------------
    // Completion

    /** The common part of `WorkItem::call_*_callback`, up to the user's code. */
    method EnterCallback(item: WorkItem, alt: Alternative, res: int, ghost bytes: seq<Byte>)
      requires Linked() && Owns(item)
      modifies this`halt, this`phase, this`log
      ensures Linked() && Value() == Enter(old(Value()), item.serial, alt, res, bytes)
    {
      if item.alt != alt {
        halt := AssertionFailed;
      } else {
        phase := InCallback(item.serial);
        log := log + [Call(item.serial, alt, item.fn, res, bytes)];
      }
    }

    /** `call_recv_callback` and its two handlers, up to the user's code. */
    method BeginReceive(item: WorkItem, c: Cqe)
      requires Linked() && Owns(item)
      modifies this`halt, this`phase, this`log, buffers, buffers.entries
      ensures Linked() && Value() == DispatchRecv(old(Value()), item.serial, c)
    {
      if c.res < 0 {
        if c.res == EAI_INTR {
          phase := Returned(item.serial, Rearm);
        } else {
          halt := Aborted;
        }
        return;
      }
      var idx := BidOf(c);
      var bytes := ViewOrEmpty(mem, idx, c.res);
      if item.stream {
        EnterCallback(item, RecvFn, c.res, bytes);
      } else if c.bid == None {
        halt := Aborted;
      } else {
        match Judge(bytes)
        case Deliver => EnterCallback(item, RecvFn, c.res, Payload(bytes));
        case Resubmit =>
          buffers.RecycleBuffer(idx);
          phase := Returned(item.serial, Rearm);
        case Reject => halt := Aborted;
      }
    }

    /** `call_accept_callback`, `call_connect_callback`, `call_send_callback`: errors reach no user code. */
    method CallUnlessFailed(item: WorkItem, alt: Alternative, c: Cqe, otherwise: PostAction)
      requires Linked() && Owns(item)
      modifies this`halt, this`phase, this`log
      ensures Linked()
      ensures Value() == if c.res < 0 then old(Value()).(phase := Returned(item.serial, otherwise))
                         else Enter(old(Value()), item.serial, alt, c.res, [])
    {
      if c.res < 0 {
        phase := Returned(item.serial, otherwise);
      } else {
        EnterCallback(item, alt, c.res, []);
      }
    }

    /** The switch over the item's type, up to the user's code. */
    method BeginItem(item: WorkItem, c: Cqe)
      requires Linked() && Owns(item)
      modifies this`halt, this`phase, this`log, buffers, buffers.entries
      ensures Linked() && Value() == DispatchItem(old(Value()), item.serial, c)
    {
      assert Value().pool.objs[item.serial] == item.Value();
      match item.kind
      case Accept => CallUnlessFailed(item, AcceptFn, c, Rearm);
      case Close => EnterCallback(item, CloseFn, c.res, []);
      case Recv => BeginReceive(item, c);
      case Connect => CallUnlessFailed(item, ConnectFn, c, FreeItem);
      case SendStreamData | SendWorkPacket => CallUnlessFailed(item, SendFn, c, FreeItem);
      case Unknown => halt := AssertionFailed;
    }

    /** A live item is found: return early on -ENOBUFS, leaving it as it is. */
    method BeginFound(item: WorkItem, c: Cqe)
      requires Linked() && Owns(item)
      modifies this`halt, this`phase, this`log, this`stranded, buffers, buffers.entries
      ensures Linked()
      ensures Value() == if c.res == -ENOBUFS
                         then old(Value()).(phase := Settled, stranded := old(stranded) + {item.serial})
                         else DispatchItem(old(Value()), item.serial, c)
    {
      if c.res == -ENOBUFS {
        phase := Settled;
        stranded := stranded + {item.serial};
      } else {
        BeginItem(item, c);
      }
    }

    /** The look-up: null when there is no item, and with it nothing more to do. */
    method FindItem() returns (item: WorkItem?)
      requires Valid() && cq != [] && halt == No && phase == Idle
      modifies this`halt, this`phase, this`dispatched
      ensures Valid()
      ensures item == null ==> Value() == Dispatch(old(Value())) && (halt != No || phase.Settled?)
      ensures item != null ==>
                && Owns(item) && item.inUse
                && Lookup(pool.Value(), cq[0].id) == Some(item.serial)
                && Value() == old(Value()).(dispatched := old(dispatched) + [cq[0]])
    {
      var id := cq[0].id;
      dispatched := dispatched + [cq[0]];
      item := null;
      if id >= |pool.items| {
        halt := AssertionFailed;
      } else {
        item := pool.GetWorkItem(id);
        if item == null {
          phase := Settled;
        }
      }
    }

    /** `call_callback_and_free_work_item_id`, up to the user's code. */
    method BeginDispatch() returns (item: WorkItem?)
      requires Valid() && cq != [] && halt == No && phase == Idle
      modifies this`halt, this`phase, this`log, this`dispatched, this`stranded, buffers, buffers.entries
      ensures Valid() && Value() == Dispatch(old(Value()))
      ensures item != null ==> Owns(item) && Lookup(pool.Value(), cq[0].id) == Some(item.serial)
      ensures item == null ==> halt != No || phase.Settled?
      ensures halt == No ==> !phase.Idle?
      ensures halt == No && (phase.InCallback? || phase.Returned?) ==> item != null && phase.obj == item.serial
    {
      item := FindItem();
      if item != null {
        BeginFound(item, cq[0]);
      }
    }

    /** After the user's code: a receive gives its buffer back. The result says whether to free. */
    method EndCallback(item: WorkItem, answer: Answer)
      requires Linked() && Owns(item) && cq != [] && phase == InCallback(item.serial)
      modifies this`phase, buffers, buffers.entries
      ensures Linked() && Value() == Return(old(Value()), item.serial, answer)
    {
      match item.kind
      case Accept => phase := Returned(item.serial, Rearm);
      case Recv =>
        buffers.RecycleBuffer(BidOf(cq[0]));
        phase := Returned(item.serial, if answer == AnswerNone then FreeItem else Rearm);
      case _ => phase := Returned(item.serial, FreeItem);
    }

    /** `free_work_item` for the completion at hand, with its assertion on null slots. */
    method FreeCompleted()
      requires Valid() && cq != []
      modifies this`halt, this`phase, pool, pool.all
      ensures Valid() && pool.all == old(pool.all)
      ensures forall o: nat, fl: Flushes :: o < |pool.all| ==> Value() == Settle(old(Value()), o, FreeItem, fl)
    {
      var id := cq[0].id;
      if id < |pool.items| && pool.items[id] != null {
        pool.FreeWorkItem(id);
        phase := Settled;
      } else {
        halt := AssertionFailed;
      }
    }

    /** Free the id, or submit the item again. */
    method SettleItem(item: WorkItem, action: PostAction, fl: Flushes)
      requires Valid() && Owns(item) && cq != [] && halt == No && phase == Returned(item.serial, action)
      modifies this, pool, pool.all
      ensures Valid() && pool.all == old(pool.all)
      ensures Value() == Settle(old(Value()), item.serial, action, fl)
    {
      match action
      case FreeItem => FreeCompleted();
      case Rearm =>
        SubmitWorkItem(item, fl);
        if halt == No {
          phase := Settled;
        }
    }

    /** `io_uring_cq_advance`. */
    method AdvanceCompletions()
      requires cq != []
      modifies this`cq, this`phase
      ensures Value() == AdvanceQueue(old(Value()))
    {
      cq := cq[1..];
      phase := Idle;
    }

    // -------------------------------------------------------------------------------------------
    // Whole polls

    /** The kernel takes the oldest exposed buffer and fills it. */
    method KernelFill(data: seq<Byte>) returns (bid: nat)
      requires Linked() && Exposed(buffers.Value()) > 0 && |data| <= BUFFER_SIZE
      modifies this`mem, buffers`head
      ensures Linked() && bid == old(buffers.Value()).entries[old(buffers.Value()).head % BUFFERS]
      ensures Value() == old(Value()).(
        ring := Consume(old(buffers.Value())), mem := if bid < BUFFERS then Fill(old(mem), bid, data) else old(mem))
    {
      bid := buffers.ConsumeBuffer();
      if bid < BUFFERS {
        mem := Fill(mem, bid, data);
      }
    }

    /** The kernel posts a completion; a receive that succeeds takes and fills the oldest buffer. */
    method KernelPost(k: nat, res: int, more: bool, data: seq<Byte>)
      requires Linked() && k < |kernel| && MayPost(kernel[k].op, Exposed(buffers.Value()), res, more, data)
      modifies this`kernel, this`cq, this`posted, this`mem, buffers`head
      ensures Linked() && Value() == Post(old(Value()), k, res, more, data)
    {
      var e := kernel[k];
      var c := Cqe(e.id, res, None, more);
      if IsRecvOp(e.op) && res >= 0 {
        var bid := KernelFill(data);
        c := c.(bid := Some(bid));
      }
      if !more {
        kernel := RemoveAt(kernel, k);
      }
      cq := cq + [c];
      posted := posted + [c];
    }

    /** One thing a user or the kernel does outside `poll_completion_queues` or inside a callback. */
    method Perform(e: Event)
      requires Valid() && Scriptable(e) && Enabled(Value(), e)
      modifies this, pool, pool.all, buffers, buffers.entries
      ensures Valid() && Value() == Step(old(Value()), e)
      ensures |old(pool.all)| <= |pool.all| && pool.all[..|old(pool.all)|] == old(pool.all)
      ensures forall i :: |old(pool.all)| <= i < |pool.all| ==> fresh(pool.all[i])
    {
      match e
      case StartRequest(kind, stream, fn, fl) => SubmitNew(kind, stream, fn, fl);
      case AcquireSend(stream) => var _ := AcquireSendItem(stream);
      case SubmitSend(o, packet, fn, fl) =>
        PrepareAndSubmit(pool.all[o], if packet then SendWorkPacket else SendStreamData, fn, fl);
      case KernelPosts(k, res, more, data) => KernelPost(k, res, more, data);
      case _ =>
    }

    /** What the user callback does, one thing after the other, until the engine halts. */
    method PerformAll(script: seq<Event>)
      requires Valid() && Runs(Value(), script) && forall e :: e in script ==> Scriptable(e)
      modifies this, pool, pool.all, buffers, buffers.entries
      ensures Valid() && Value() == Exec(old(Value()), script)
      ensures |old(pool.all)| <= |pool.all| && pool.all[..|old(pool.all)|] == old(pool.all)
      ensures forall i :: |old(pool.all)| <= i < |pool.all| ==> fresh(pool.all[i])
      decreases |script|
    {
      if script != [] && halt == No {
        ghost var all := pool.all;
        Perform(script[0]);
        ghost var more := pool.all;
        PerformAll(script[1..]);
        assert pool.all[..|all|] == pool.all[..|more|][..|all|];
        assert forall i :: |all| <= i < |more| ==> pool.all[i] == pool.all[..|more|][i] == more[i];
      }
    }

    /** Things done one after the other, with the poll standing where it stands. */
    method PerformWithin(script: seq<Event>, ghost after: seq<Event>)
      requires Valid() && forall e :: e in script ==> Scriptable(e)
      requires Runs(Value(), script + after)
      modifies this, pool, pool.all, buffers, buffers.entries
      ensures Valid() && phase == old(phase)
      ensures Runs(old(Value()), script) && Value() == Exec(old(Value()), script)
      ensures Runs(Value(), after) && Exec(old(Value()), script + after) == Exec(Value(), after)
      ensures |old(pool.all)| <= |pool.all| && pool.all[..|old(pool.all)|] == old(pool.all)
      ensures forall i :: |old(pool.all)| <= i < |pool.all| ==> fresh(pool.all[i])
    {
      ExecAppend(Value(), script, after);
      ScriptKeepsPhase(Value(), script);
      PerformAll(script);
    }

    /** From the last kernel completions to the end of the poll. */
    method FinishAdvance(w: Others)
      requires Valid() && halt == No && phase == Settled && OthersOk(w)
      requires Runs(Value(), Advancing(w))
      modifies this, pool, pool.all, buffers, buffers.entries
      ensures Valid() && Value() == Exec(old(Value()), Advancing(w))
      ensures halt == No ==> phase == Idle
    {
      PerformWithin(w.lastPosts, [PollAdvances]);
      if halt == No {
        ExecOne(Value(), PollAdvances);
        AdvanceCompletions();
      }
    }

    /** From the free or re-submission to the end of the poll. */
    method SettleAndAdvance(item: WorkItem, w: Others)
      requires Valid() && Owns(item) && halt == No && phase.Returned? && phase.obj == item.serial && OthersOk(w)
      requires Runs(Value(), [PollSettles(w.fl)] + Advancing(w))
      modifies this, pool, pool.all, buffers, buffers.entries
      ensures Valid() && Value() == Exec(old(Value()), [PollSettles(w.fl)] + Advancing(w))
      ensures halt == No ==> phase == Idle
    {
      assert ([PollSettles(w.fl)] + Advancing(w))[1..] == Advancing(w);
      SettleItem(item, phase.action, w.fl);
      if halt == No {
        FinishAdvance(w);
      }
    }

    /** From the last things the kernel does before it to the end of the poll. */
    method FinishPoll(item: WorkItem, w: Others)
      requires Valid() && Owns(item) && halt == No && phase.Returned? && phase.obj == item.serial && OthersOk(w)
      requires Runs(Value(), Closing(w))
      modifies this, pool, pool.all, buffers, buffers.entries
      ensures Valid() && Value() == Exec(old(Value()), Closing(w))
      ensures halt == No ==> phase == Idle
    {
      ghost var all := pool.all;
      PerformWithin(w.posts, [PollSettles(w.fl)] + Advancing(w));
      assert pool.all[item.serial] == pool.all[..|all|][item.serial] == item;
      if halt == No {
        SettleAndAdvance(item, w);
      }
    }

    /** From the return of the user's code to the end of the poll. */
    method LeaveCallback(item: WorkItem, w: Others)
      requires Valid() && Owns(item) && halt == No && phase == InCallback(item.serial) && OthersOk(w)
      requires Runs(Value(), Ending(w))
      modifies this, pool, pool.all, buffers, buffers.entries
      ensures Valid() && Value() == Exec(old(Value()), Ending(w))
      ensures halt == No ==> phase == Idle
    {
      assert Ending(w)[1..] == Closing(w);
      EndCallback(item, w.answer);
      FinishPoll(item, w);
    }

    /** From the entry of the user's code to the end of the poll. */
    method RunCallback(item: WorkItem, w: Others)
      requires Valid() && Owns(item) && halt == No && phase == InCallback(item.serial) && OthersOk(w)
      requires Runs(Value(), w.script + Ending(w))
      modifies this, pool, pool.all, buffers, buffers.entries
      ensures Valid() && Value() == Exec(old(Value()), w.script + Ending(w))
      ensures halt == No ==> phase == Idle
    {
      ghost var all := pool.all;
      PerformWithin(w.script, Ending(w));
      assert pool.all[item.serial] == pool.all[..|all|][item.serial] == item;
      if halt == No {
        LeaveCallback(item, w);
      }
    }

    /** From the look-up to the end of the poll. */
    method ServeCompletion(w: Others)
      requires Valid() && cq != [] && halt == No && phase == Idle && OthersOk(w) && !w.peekFails
      requires Runs(Value(), PollEvents(Value(), w))
      modifies this, pool, pool.all, buffers, buffers.entries
      ensures Valid() && Value() == Exec(old(Value()), PollEvents(old(Value()), w))
      ensures halt == No ==> phase == Idle
    {
      ghost var s, es := Value(), PollEvents(Value(), w);
      var item := BeginDispatch();
      assert Value() == Step(s, PollBegins) && es[0] == PollBegins && Runs(Value(), es[1..]);
      if halt == No {
        match phase
        case InCallback(_) =>
          assert es[1..] == w.script + Ending(w);
          RunCallback(item, w);
        case Returned(_, _) =>
          assert es[1..] == Closing(w);
          FinishPoll(item, w);
        case Settled =>
          assert es[1..] == Advancing(w);
          FinishAdvance(w);
        case Idle =>
      }
    }

    /**
     * `poll_completion_queues`, with whatever the user, his callback and the kernel do in the course
     * of it. A failed peek halts the engine and an empty queue leaves it as it is. Otherwise, unless it
     * halts, the poll comes to what `PollDone` says, and everybody has done his part, in order.
     */
    method PollCompletionQueues(w: Others) returns (ghost events: seq<Event>)
      requires Valid() && halt == No && phase == Idle && OthersOk(w)
      requires Runs(Value(), PollEvents(Value(), w))
      modifies this, pool, pool.all, buffers, buffers.entries
      ensures Valid()
      ensures Runs(old(Value()), events) && Value() == Exec(old(Value()), events)
      ensures halt == No ==> phase == Idle
      ensures w.peekFails ==> Value() == old(Value()).(halt := Aborted)
      ensures !w.peekFails && old(cq) == [] ==> Value() == old(Value())
      ensures !w.peekFails && old(cq) != [] && halt == No ==>
                PollDone(old(Value()), w, Value()) && PollParts(old(Value()), w, events)
    {
      ghost var s := Value();
      events := PollEvents(s, w);
      if w.peekFails {
        PollWithoutCompletion(s, w);
        halt := Aborted;
      } else if cq == [] {
        PollWithoutCompletion(s, w);
      } else {
        ServeCompletion(w);
        if halt == No {
          PollComesTo(s, w);
          PollEventParts(s, w);
        }
      }
    }
  }
}
