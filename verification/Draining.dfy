/**
 * How long things take. Every step of every run is paid for: by work there was at the start, by a
 * user's new request, or by one of the things that make a request go its way again. When users start
 * nothing new the engine runs dry, and what a flush has left in the queue then stays there.
 */
module Draining {
  import opened Basics
  import opened BufferRing
  import opened WorkPools
  import opened Engine
  import opened Routing
  import opened Accounts
  import Buffers
  import Halts
  import Histories

  /** How many steps of the run are of some kind, told from the event and the state it meets. */
  function Count(s: State, es: seq<Event>, kind: (State, Event) -> bool): nat
    requires Legal(s, es)
    decreases |es|
  {
    if es == [] then 0
    else Count(s, Front(es), kind) + if kind(Run(s, Front(es)), Last(es)) then 1 else 0
  }

  // ---------------------------------------------------------------------------------------------
  // Work

  function Unsubmitted(objs: seq<Item>): nat {
    if objs == [] then 0
    else Unsubmitted(objs[..|objs| - 1]) + if objs[|objs| - 1].kind == Unknown then 1 else 0
  }

  function PhaseWork(s: State): nat {
    match s.phase
    case Idle => 0
    case InCallback(_) => 1
    case Returned(_, _) => 2
    case Settled => 3
  }

  /** The work left: unsubmitted, queued, armed and completed requests, weighed by the way they have to go. */
  function Work(s: State): int {
    7 * Unsubmitted(s.pool.objs) + 6 * |s.sq| + 5 * |s.kernel| + 4 * |s.cq| - PhaseWork(s)
  }

  lemma WorkIsNat(s: State)
    requires !s.phase.Idle? ==> s.cq != []
    ensures Work(s) >= 0
    ensures Work(s) == 0 ==> s.sq == [] && s.kernel == [] && s.cq == [] && s.phase == Idle
  {
  }

  predicate Starts(s: State, e: Event) {
    e.StartRequest?
  }

  predicate Acquires(s: State, e: Event) {
    e.AcquireSend?
  }

  /** A poll that finds nothing. */
  predicate IdlePolls(s: State, e: Event) {
    e.PollBegins? && s.cq == []
  }

  /** The item at hand is submitted again. */
  predicate Resubmits(s: State, e: Event) {
    e.PollSettles? && s.phase.Returned? && s.phase.action == Rearm
  }

  /** The kernel posts a completion and keeps its operation armed. */
  predicate AnnouncesMore(s: State, e: Event) {
    e.KernelPosts? && e.more
  }

  function Charge(s: State, e: Event): nat {
    (if Starts(s, e) then 7 else 0) + (if Acquires(s, e) then 8 else 0) + (if IdlePolls(s, e) then 1 else 0)
    + (if Resubmits(s, e) then 6 else 0) + (if AnnouncesMore(s, e) then 5 else 0)
  }

  lemma {:induction false} UnsubmittedUpdate(objs: seq<Item>, o: nat, it: Item)
    requires o < |objs|
    ensures Unsubmitted(objs[o := it]) ==
            Unsubmitted(objs) - (if objs[o].kind == Unknown then 1 else 0) + (if it.kind == Unknown then 1 else 0)
  {
    var n := |objs| - 1;
    if o < n {
      UnsubmittedUpdate(objs[..n], o, it);
      assert objs[o := it][..n] == objs[..n][o := it];
    } else {
      assert objs[o := it][..n] == objs[..n];
    }
  }

  lemma UnsubmittedAlloc(p: Pool, stream: bool)
    ensures Unsubmitted(Alloc(p, stream).objs) == Unsubmitted(p.objs) + 1
  {
    var objs := Alloc(p, stream).objs;
    assert objs[..|objs| - 1] == p.objs;
  }

  lemma UnsubmittedAssign(p: Pool, o: nat, kind: Kind, alt: Alternative, fn: nat)
    requires o < |p.objs| && p.objs[o].kind == Unknown && kind != Unknown
    ensures Unsubmitted(Assign(p, o, kind, alt, fn).objs) == Unsubmitted(p.objs) - 1
  {
    UnsubmittedUpdate(p.objs, o, p.objs[o].(kind := kind, alt := alt, fn := fn));
  }

  lemma UnsubmittedFree(p: Pool, id: nat)
    requires CanFree(p, id)
    ensures Unsubmitted(Free(p, id).objs) == Unsubmitted(p.objs)
  {
    var o := p.slots[id].value;
    UnsubmittedUpdate(p.objs, o, p.objs[o].(inUse := false));
  }

  /** A submission adds one entry, to the queue or to the kernel. */
  lemma SubmitWork(s: State, o: nat, fl: Flushes)
    requires s.halt == No && o < |s.pool.objs| && Submit(s, o, fl).halt == No
    ensures var s' := Submit(s, o, fl);
      && s'.pool == s.pool && s'.cq == s.cq && s'.phase == s.phase
      && 6 * |s'.sq| + 5 * |s'.kernel| <= 6 * |s.sq| + 5 * |s.kernel| + 6
  {
  }

  lemma UserWork(s: State, e: Event)
    requires Enabled(s, e) && Step(s, e).halt == No && (e.StartRequest? || e.AcquireSend? || e.SubmitSend?)
    ensures 1 + Work(Step(s, e)) <= Work(s) + Charge(s, e)
  {
    match e
    case StartRequest(kind, stream, fn, fl) =>
      UnsubmittedAlloc(s.pool, stream);
      UnsubmittedAssign(Alloc(s.pool, stream), |s.pool.objs|, kind, AltFor(kind), fn);
      SubmitWork(s.(pool := PoolAfter(s, e)), |s.pool.objs|, fl);
    case AcquireSend(stream) => UnsubmittedAlloc(s.pool, stream);
    case SubmitSend(o, packet, fn, fl) =>
      UnsubmittedAssign(s.pool, o, if packet then SendWorkPacket else SendStreamData, SendFn, fn);
      SubmitWork(s.(pool := PoolAfter(s, e)), o, fl);
  }

  lemma SettleWork(s: State, e: Event)
    requires Enabled(s, e) && Step(s, e).halt == No && e.PollSettles?
    ensures 1 + Work(Step(s, e)) <= Work(s) + Charge(s, e)
  {
    if s.phase.action == FreeItem {
      UnsubmittedFree(s.pool, s.cq[0].id);
    } else {
      SubmitWork(s, s.phase.obj, e.fl);
    }
  }

  lemma PostWork(s: State, e: Event)
    requires Enabled(s, e) && e.KernelPosts?
    ensures 1 + Work(Step(s, e)) <= Work(s) + Charge(s, e)
  {
  }

  lemma DispatchWork(s: State)
    requires StateOk(s) && s.phase == Idle && s.cq != [] && Dispatch(s).halt == No
    ensures 1 + Work(Dispatch(s)) <= Work(s)
  {
    DispatchFrame(s);
  }

  /** Every step, in any state whatever, halts the engine or is paid for. */
  lemma StepWork(s: State, e: Event)
    requires Enabled(s, e) && Step(s, e).halt == No
    ensures 1 + Work(Step(s, e)) <= Work(s) + Charge(s, e)
  {
    if e.StartRequest? || e.AcquireSend? || e.SubmitSend? {
      UserWork(s, e);
    } else if e.PollSettles? {
      SettleWork(s, e);
    } else if e.KernelPosts? {
      PostWork(s, e);
    } else if e.PollBegins? && s.cq != [] {
      DispatchWork(s);
    }
  }

  /**
   * The work ledger of every run, from any state whatever, with any flush results and any answers:
   * its steps and the work left are paid for by the work there was, 7 for each request started, 8
   * for each send item acquired, 6 for each re-submission, 5 for each completion with more to come,
   * and 1 for each poll that finds nothing.
   */
  lemma {:induction false} WorkLedger(s: State, es: seq<Event>)
    requires Legal(s, es) && Run(s, es).halt == No
    ensures |es| + Work(Run(s, es)) <= Work(s)
              + 7 * Count(s, es, Starts) + 8 * Count(s, es, Acquires) + Count(s, es, IdlePolls)
              + 6 * Count(s, es, Resubmits) + 5 * Count(s, es, AnnouncesMore)
    decreases |es|
  {
    if es != [] {
      WorkLedger(s, Front(es));
      StepWork(Run(s, Front(es)), Last(es));
    }
  }

  // ---------------------------------------------------------------------------------------------
  // Where re-submissions come from

  /** How many of the completions are interruptions, or resets: the two share a number. */
  function Interrupted(q: seq<Cqe>): nat {
    if q == [] then 0 else (if q[0].res == EAI_INTR then 1 else 0) + Interrupted(q[1..])
  }

  /** Re-submissions already decided: interruptions in the queue, and an item on its way back. */
  function Owed(s: State): nat {
    Interrupted(Waiting(s))
    + if s.phase.Returned? && s.phase.action == Rearm && (s.cq == [] || s.cq[0].res != EAI_INTR) then 1 else 0
  }

  predicate Interrupts(s: State, e: Event) {
    e.KernelPosts? && e.res == EAI_INTR
  }

  /** The poll finds a datagram whose header sends it back unseen. */
  predicate Bounces(s: State, e: Event) {
    && e.PollBegins? && s.cq != [] && MemoryOk(s.mem)
    && var c := s.cq[0];
       match Lookup(s.pool, c.id)
       case None => false
       case Some(o) =>
         && o < |s.pool.objs| && Datagram(s.pool.objs[o]) && c.res >= 0 && c.bid.Some?
         && Judge(ViewOrEmpty(s.mem, BidOf(c), c.res)) == Resubmit
  }

  /** The poll finds an accept that failed. */
  predicate AcceptFails(s: State, e: Event) {
    && e.PollBegins? && s.cq != [] && s.cq[0].res < 0
    && match Lookup(s.pool, s.cq[0].id)
       case None => false
       case Some(o) => o < |s.pool.objs| && s.pool.objs[o].kind == Accept
  }

  /** A callback that sends its item back: an accept's always, a receive's by its answer. */
  predicate AnswersAgain(s: State, e: Event) {
    && e.CallbackReturns? && s.phase.InCallback? && s.phase.obj < |s.pool.objs|
    && (s.pool.objs[s.phase.obj].kind == Accept
        || (s.pool.objs[s.phase.obj].kind == Recv && e.answer == AnswerResubmit))
  }

  lemma {:induction false} InterruptedAppend(q: seq<Cqe>, c: Cqe)
    ensures Interrupted(q + [c]) == Interrupted(q) + if c.res == EAI_INTR then 1 else 0
  {
    if q == [] {
      assert [c][1..] == [];
    } else {
      InterruptedAppend(q[1..], c);
      assert (q + [c])[1..] == q[1..] + [c];
    }
  }

  function Incurs(s: State, e: Event): nat {
    (if Interrupts(s, e) then 1 else 0) + (if Bounces(s, e) then 1 else 0)
    + (if AcceptFails(s, e) then 1 else 0) + (if AnswersAgain(s, e) then 1 else 0)
  }

  lemma PostOwes(s: State, e: Event)
    requires Enabled(s, e) && e.KernelPosts?
    ensures Owed(Step(s, e)) <= Owed(s) + Incurs(s, e)
  {
    var s' := Step(s, e);
    var c := s'.cq[|s.cq|];
    assert s'.cq == s.cq + [c] && c.res == e.res && s'.phase == s.phase;
    if s.cq != [] {
      assert (s.cq + [c])[1..] == s.cq[1..] + [c];
    }
    InterruptedAppend(Waiting(s), c);
  }

  lemma DispatchOwes(s: State)
    requires StateOk(s) && s.halt == No && s.phase == Idle && s.cq != [] && Dispatch(s).halt == No
    ensures Owed(Dispatch(s)) <= Owed(s) + Incurs(s, PollBegins)
  {
    DispatchFrame(s);
  }

  lemma SettleOwes(s: State, e: Event)
    requires Enabled(s, e) && e.PollSettles? && Step(s, e).halt == No
    ensures Owed(Step(s, e)) + (if Resubmits(s, e) then 1 else 0) <= Owed(s)
  {
    PoolEventFrame(s, e);
  }

  lemma StepOwes(s: State, e: Event)
    requires Enabled(s, e) && Step(s, e).halt == No
    ensures Owed(Step(s, e)) + (if Resubmits(s, e) then 1 else 0) <= Owed(s) + Incurs(s, e)
  {
    if e.PollSettles? {
      SettleOwes(s, e);
    } else if TouchesPool(e) {
      PoolEventFrame(s, e);
    } else if e.KernelPosts? {
      PostOwes(s, e);
    } else if e.PollBegins? && s.cq != [] {
      DispatchOwes(s);
    }
  }

  /**
   * The ledger of re-submissions, of every run from any state whatever: each goes back to an
   * interruption the kernel has posted, a datagram its header sends back, a failed accept, or the
   * return of a callback that wants more.
   */
  lemma {:induction false} ResubmissionLedger(s: State, es: seq<Event>)
    requires Legal(s, es) && Run(s, es).halt == No
    ensures Count(s, es, Resubmits) + Owed(Run(s, es)) <= Owed(s)
              + Count(s, es, Interrupts) + Count(s, es, Bounces) + Count(s, es, AcceptFails)
              + Count(s, es, AnswersAgain)
    decreases |es|
  {
    if es != [] {
      ResubmissionLedger(s, Front(es));
      StepOwes(Run(s, Front(es)), Last(es));
    }
  }

  // ---------------------------------------------------------------------------------------------
  // Drains

  /** Nothing new is started, and polls find something. */
  predicate Drains(s: State, e: Event) {
    !Starts(s, e) && !Acquires(s, e) && !IdlePolls(s, e)
  }

  predicate DrainRun(s: State, es: seq<Event>)
    requires Legal(s, es)
    decreases |es|
  {
    es == [] || (DrainRun(s, Front(es)) && Drains(Run(s, Front(es)), Last(es)))
  }

  lemma {:induction false} DrainStartsNothing(s: State, es: seq<Event>)
    requires Legal(s, es) && DrainRun(s, es)
    ensures Count(s, es, Starts) == Count(s, es, Acquires) == Count(s, es, IdlePolls) == 0
    decreases |es|
  {
    if es != [] {
      DrainStartsNothing(s, Front(es));
    }
  }

  /** What a drain may cost beyond the work there was. */
  function Extra(s: State, es: seq<Event>): nat
    requires Legal(s, es)
  {
    6 * (Count(s, es, Interrupts) + Count(s, es, Bounces) + Count(s, es, AcceptFails) + Count(s, es, AnswersAgain))
    + 5 * Count(s, es, AnnouncesMore)
  }

  lemma RunningDrain(s: State, es: seq<Event>)
    requires Legal(s, es) && DrainRun(s, es) && Run(s, es).halt == No
    ensures |es| + Work(Run(s, es)) + 6 * Owed(Run(s, es)) <= Work(s) + 6 * Owed(s) + Extra(s, es)
  {
    WorkLedger(s, es);
    ResubmissionLedger(s, es);
    DrainStartsNothing(s, es);
  }

  /**
   * Draining terminates, whatever kinds of requests there are, stale frees or not: a drain takes no
   * more steps than there is work, six more for each interruption posted, each datagram sent back,
   * each failed accept and each callback that wants more, five more for each completion with more to
   * come, and one more to halt.
   */
  lemma DrainsAreBounded(s: State, es: seq<Event>)
    requires Buffers.Carried(s) && Legal(s, es) && DrainRun(s, es)
    ensures |es| <= Work(s) + 6 * Owed(s) + Extra(s, es) + 1
    ensures Run(s, es).halt == No ==>
              |es| + Work(Run(s, es)) + 6 * Owed(Run(s, es)) <= Work(s) + 6 * Owed(s) + Extra(s, es)
  {
    if Run(s, es).halt == No {
      RunningDrain(s, es);
      Buffers.RunKeepsCarried(s, es);
      WorkIsNat(Run(s, es));
    } else if es == [] {
      WorkIsNat(s);
    } else {
      RunningDrain(s, Front(es));
      Buffers.RunKeepsCarried(s, Front(es));
      WorkIsNat(Run(s, Front(es)));
    }
  }

  // ---------------------------------------------------------------------------------------------
  // Drains of programs that want no more

  predicate NoAccepts(p: Pool) {
    forall o: nat :: o < |p.objs| ==> p.objs[o].kind != Accept
  }

  /** Every receive is ended by its callback's answer. */
  predicate AnswersNone(es: seq<Event>) {
    CallbackReturns(AnswerResubmit) !in es
  }

  lemma StepAddsNoAccept(s: State, e: Event)
    requires NoAccepts(s.pool) && Enabled(s, e) && !Starts(s, e) && e != CallbackReturns(AnswerResubmit)
    ensures NoAccepts(Step(s, e).pool)
    ensures !AcceptFails(s, e) && !AnswersAgain(s, e)
  {
    PoolEventEffect(s, e);
  }

  lemma {:induction false} NobodyWantsMore(s: State, es: seq<Event>)
    requires NoAccepts(s.pool) && Legal(s, es) && DrainRun(s, es) && AnswersNone(es)
    ensures NoAccepts(Run(s, es).pool)
    ensures Count(s, es, AcceptFails) == Count(s, es, AnswersAgain) == 0
    decreases |es|
  {
    if es != [] {
      assert Last(es) in es && AnswersNone(Front(es));
      NobodyWantsMore(s, Front(es));
      StepAddsNoAccept(Run(s, Front(es)), Last(es));
    }
  }

  /**
   * With no accepts, and with callbacks that answer NONE, datagram receives included, only
   * interruptions, datagrams sent back and completions with more to come can prolong a drain.
   */
  lemma NoneDrainsAreBounded(s: State, es: seq<Event>)
    requires Buffers.Carried(s) && NoAccepts(s.pool) && Legal(s, es) && DrainRun(s, es) && AnswersNone(es)
    ensures |es| <= Work(s) + 6 * Owed(s) + 6 * (Count(s, es, Interrupts) + Count(s, es, Bounces))
                      + 5 * Count(s, es, AnnouncesMore) + 1
  {
    DrainsAreBounded(s, es);
    NobodyWantsMore(s, es);
  }

  /** No datagram receive anywhere, and no entry for one. */
  predicate NoDatagrams(s: State) {
    && (forall o: nat :: o < |s.pool.objs| ==> !Datagram(s.pool.objs[o]))
    && (forall e :: e in Entries(s) ==> e.op != OpRecvMsgMultishot)
  }

  lemma PoolEventAddsNoDatagram(s: State, e: Event)
    requires NoDatagrams(s) && Enabled(s, e) && TouchesPool(e) && !Starts(s, e)
    ensures NoDatagrams(Step(s, e))
  {
    PoolEventEffect(s, e);
    match e
    case SubmitSend(o, _, _, fl) => SubmitEffect(s.(pool := PoolAfter(s, e)), o, fl);
    case PollSettles(fl) =>
      if s.phase.action == Rearm {
        SubmitEffect(s, s.phase.obj, fl);
      }
    case AcquireSend(_) =>
  }

  lemma StepAddsNoDatagram(s: State, e: Event)
    requires NoDatagrams(s) && Enabled(s, e) && !Starts(s, e)
    ensures NoDatagrams(Step(s, e))
    ensures !Bounces(s, e) && !AnnouncesMore(s, e)
  {
    if TouchesPool(e) {
      PoolEventAddsNoDatagram(s, e);
    } else if e.KernelPosts? {
      assert s.kernel[e.k] in Entries(s);
      RemoveAtMembers(s.kernel, e.k);
    } else if e.PollBegins? && s.cq != [] {
      DispatchFrame(s);
    }
  }

  lemma {:induction false} NothingIsMultishot(s: State, es: seq<Event>)
    requires NoDatagrams(s) && Legal(s, es) && DrainRun(s, es)
    ensures NoDatagrams(Run(s, es))
    ensures Count(s, es, Bounces) == Count(s, es, AnnouncesMore) == 0
    decreases |es|
  {
    if es != [] {
      NothingIsMultishot(s, Front(es));
      StepAddsNoDatagram(Run(s, Front(es)), Last(es));
    }
  }

  /** Without datagram receives as well, only interruptions can. */
  lemma StreamDrainsAreBounded(s: State, es: seq<Event>)
    requires Buffers.Carried(s) && NoAccepts(s.pool) && NoDatagrams(s)
    requires Legal(s, es) && DrainRun(s, es) && AnswersNone(es)
    ensures |es| <= Work(s) + 6 * Owed(s) + 6 * Count(s, es, Interrupts) + 1
  {
    NoneDrainsAreBounded(s, es);
    NothingIsMultishot(s, es);
  }

  // ---------------------------------------------------------------------------------------------
  // Every run can be brought to an end

  /** The kernel owes nothing, nothing awaits its poll, and no poll is under way. */
  predicate Dry(s: State) {
    s.kernel == [] && s.cq == [] && s.phase == Idle
  }

  /** A step some drain can take next. */
  function NextDrain(s: State): Event {
    match s.phase
    case InCallback(_) => CallbackReturns(AnswerNone)
    case Returned(_, _) => PollSettles(Flushes(Took(|s.sq|), Took(|s.sq| + 1)))
    case Settled => PollAdvances
    case Idle =>
      if s.cq != [] then PollBegins else KernelPosts(0, -ENOBUFS, false, [])
  }

  /** A drain never gets stuck early, and the kernel can complete whatever it holds. */
  lemma DrainsGoOn(s: State)
    requires Halts.Steady(s) && Buffers.Carried(s) && s.halt == No && !Dry(s)
    ensures Enabled(s, NextDrain(s)) && Drains(s, NextDrain(s)) && Completable(s)
  {
    KernelMoves(s);
  }

  /** Completions that may yet lead to a re-submission: all but those of -ENOBUFS. */
  function Able(q: seq<Cqe>): nat {
    if q == [] then 0 else (if q[0].res == -ENOBUFS then 0 else 1) + Able(q[1..])
  }

  /** The re-submissions still to be feared when the kernel ends everything with -ENOBUFS. */
  function Feared(s: State): nat {
    Able(Histories.Undispatched(s))
    + if s.phase.InCallback? || (s.phase.Returned? && s.phase.action == Rearm) then 1 else 0
  }

  lemma {:induction false} AbleAppend(q: seq<Cqe>, c: Cqe)
    requires c.res == -ENOBUFS
    ensures Able(q + [c]) == Able(q)
  {
    if q == [] {
      assert [c][1..] == [];
    } else {
      AbleAppend(q[1..], c);
      assert (q + [c])[1..] == q[1..] + [c];
    }
  }

  lemma NextDrainFears(s: State)
    requires Enabled(s, NextDrain(s)) && Step(s, NextDrain(s)).halt == No && Drains(s, NextDrain(s))
    ensures Feared(Step(s, NextDrain(s))) + (if Resubmits(s, NextDrain(s)) then 1 else 0) <= Feared(s)
  {
    var e, s' := NextDrain(s), Step(s, NextDrain(s));
    match e
    case KernelPosts(k, res, more, data) =>
      assert s'.cq == s.cq + [s'.cq[|s.cq|]];
      AbleAppend(s.cq, s'.cq[|s.cq|]);
    case PollBegins => DispatchFrame(s);
    case PollSettles(_) => PoolEventFrame(s, e);
    case _ =>
  }

  /** The steps this way of draining can still take. */
  function StepsLeft(s: State): int {
    if s.halt == No then 1 + Work(s) + 6 * Feared(s) else 0
  }

  /** Only a completion already in the queue, of a receive that fails, can halt such a drain. */
  lemma NextDrainHalts(s: State)
    requires Halts.Steady(s) && Buffers.Carried(s) && s.halt == No && !Dry(s) && s.cap > 0
    ensures Enabled(s, NextDrain(s))
    ensures Step(s, NextDrain(s)).halt != No ==> NextDrain(s) == PollBegins && s.cq[0].res != -ENOBUFS
    ensures Step(s, NextDrain(s)).cap == s.cap
  {
    DrainsGoOn(s);
    Halts.StepHalts(s, NextDrain(s));
    Histories.StepKeepsQueue(s, NextDrain(s));
  }

  lemma NextDrainWorks(s: State)
    requires Halts.Steady(s) && Buffers.Carried(s) && s.halt == No && !Dry(s)
    ensures Enabled(s, NextDrain(s)) && 0 <= StepsLeft(Step(s, NextDrain(s))) < StepsLeft(s)
    ensures Buffers.Carried(Step(s, NextDrain(s)))
    ensures Step(s, NextDrain(s)).halt == No ==> Halts.Steady(Step(s, NextDrain(s)))
  {
    var e := NextDrain(s);
    DrainsGoOn(s);
    Buffers.StepKeepsCarried(s, e);
    WorkIsNat(s);
    if Step(s, e).halt == No {
      StepWork(s, e);
      NextDrainFears(s);
      Halts.StepKeepsSteady(s, e);
      WorkIsNat(Step(s, e));
    }
  }

  /**
   * Every run can be carried on to an end, stale frees or not, and a drain by a drain: with nothing
   * new started and nothing interrupted the engine gets dry, unless a poll halts it.
   */
  lemma {:induction false} DrainsEnd(s: State, es: seq<Event>) returns (whole: seq<Event>)
    requires Legal(s, es) && Run(s, es).halt == No && Run(s, es).cap > 0
    requires Halts.Steady(Run(s, es)) && Buffers.Carried(Run(s, es))
    ensures es <= whole && Legal(s, whole) && (DrainRun(s, es) ==> DrainRun(s, whole))
    ensures Dry(Run(s, whole)) || (Run(s, whole).halt != No && Last(whole) == PollBegins)
    ensures Count(s, whole, Interrupts) == Count(s, es, Interrupts)
    decreases StepsLeft(Run(s, es))
  {
    var s1 := Run(s, es);
    whole := es;
    if !Dry(s1) {
      var e := NextDrain(s1);
      DrainsGoOn(s1);
      NextDrainWorks(s1);
      NextDrainHalts(s1);
      assert Front(es + [e]) == es;
      whole := es + [e];
      if Step(s1, e).halt == No {
        whole := DrainsEnd(s, whole);
      }
    }
  }

  // ---------------------------------------------------------------------------------------------
  // Dry, and not empty

  /** At a dry state what is pending is what is queued. */
  lemma DryPends(s: State, o: nat)
    requires Inv(s) && s.halt == No && Dry(s) && o < |s.pool.objs|
    ensures o in PendingObjects(s) <==> exists e :: e in s.sq && Lookup(s.pool, e.id) == Some(o)
  {
    assert Entries(s) == s.sq;
    if o in PendingObjects(s) {
      PendingComesFrom(TrafficOf(s), s.pool.objs[o].id);
      var e :| e in s.sq && e.id == s.pool.objs[o].id;
      assert Lookup(s.pool, e.id) == Some(o);
    }
    if e :| e in s.sq && Lookup(s.pool, e.id) == Some(o) {
      EntryPends(TrafficOf(s), e);
      assert SlotOk(s.pool, e.id);
    }
  }

  /**
   * What is left when the engine is dry: the pending items are those with an entry no flush has
   * taken, so none if and only if the queue is empty. Without datagram receives that is so if and
   * only if the live items are the send items never submitted and those left behind by -ENOBUFS.
   */
  lemma DryLeavesOnly(s: State)
    requires Inv(s) && s.halt == No && Dry(s)
    ensures forall o: nat :: o < |s.pool.objs| ==>
              (o in PendingObjects(s) <==> exists e :: e in s.sq && Lookup(s.pool, e.id) == Some(o))
    ensures s.sq == [] <==> PendingObjects(s) == {}
    ensures s.sq == [] ==> LiveObjects(s.pool) == AcquiredObjects(s) + LeftBehind(s)
    ensures NoDatagrams(s) && LiveObjects(s.pool) == AcquiredObjects(s) + LeftBehind(s) ==> s.sq == []
  {
    AccountedConserves(s);
    forall o: nat | o < |s.pool.objs|
      ensures o in PendingObjects(s) <==> exists e :: e in s.sq && Lookup(s.pool, e.id) == Some(o)
    {
      DryPends(s, o);
    }
    if s.sq != [] {
      QueuedPends(s);
    }
  }

  lemma QueuedPends(s: State)
    requires Inv(s) && s.halt == No && s.sq != []
    ensures PendingObjects(s) != {}
    ensures NoDatagrams(s) ==> LiveObjects(s.pool) != AcquiredObjects(s) + LeftBehind(s)
  {
    var e := s.sq[0];
    assert e in Entries(s) && EntryOk(s.pool, e);
    EntryPends(TrafficOf(s), e);
    assert SlotOk(s.pool, e.id);
    var o := s.pool.slots[e.id].value;
    assert o in PendingObjects(s) && o in LiveObjects(s.pool);
    AccountedConserves(s);
  }

  /** Only submissions and re-submissions touch the queue. */
  predicate LeavesQueue(s: State, e: Event) {
    !e.StartRequest? && !e.SubmitSend? && !Resubmits(s, e)
  }

  predicate QueueLeft(s: State, es: seq<Event>)
    requires Legal(s, es)
    decreases |es|
  {
    es == [] || (QueueLeft(s, Front(es)) && LeavesQueue(Run(s, Front(es)), Last(es)))
  }

  /** However often the program polls: with no submission and no re-submission, what is queued stays queued. */
  lemma {:induction false} QueueWaits(s: State, es: seq<Event>)
    requires Legal(s, es) && QueueLeft(s, es)
    ensures Run(s, es).sq == s.sq && Run(s, es).taken == s.taken && Run(s, es).prepared == s.prepared
    decreases |es|
  {
    if es != [] {
      QueueWaits(s, Front(es));
      var s1 := Run(s, Front(es));
      if Last(es).PollBegins? && s1.cq != [] {
        DispatchFrame(s1);
      }
    }
  }

  /** Polls of a dry engine change nothing. */
  lemma {:induction false} DryStays(s: State, polls: seq<Event>)
    requires StateOk(s) && Dry(s) && s.halt == No && forall e :: e in polls ==> e == PollBegins
    ensures Legal(s, polls) && Run(s, polls) == s
    decreases |polls|
  {
    if polls != [] {
      assert Last(polls) in polls && forall e :: e in Front(polls) ==> e in polls;
      DryStays(s, Front(polls));
    }
  }

  lemma Stuck(s: State, stream: bool, fn: nat)
    requires StateOk(s) && Dry(s) && s.halt == No && s.cap > 0 && s.sq == [] && s.pool == EMPTY_POOL
    ensures var s' := Step(s, StartRequest(Connect, stream, fn, Flushes(FlushFailed, FlushFailed)));
      StateOk(s') && Dry(s') && s'.halt == No && s'.sq == [Sqe(0, OpConnect)]
  {
  }

  /** One request whose flush fails, and any number of polls: the engine is dry, the request queued for ever. */
  lemma StuckEntry(cap: nat, mem: Memory, stream: bool, fn: nat, polls: nat)
    requires MemoryOk(mem) && cap > 0
    ensures var es := [StartRequest(Connect, stream, fn, Flushes(FlushFailed, FlushFailed))];
      && Legal(Init(cap, mem), es)
      && var s := Run(Init(cap, mem), es);
         && Dry(s) && s.halt == No && s.sq == [Sqe(0, OpConnect)]
         && Legal(s, seq(polls, _ => PollBegins)) && Run(s, seq(polls, _ => PollBegins)) == s
  {
    var e := StartRequest(Connect, stream, fn, Flushes(FlushFailed, FlushFailed));
    var s0 := Init(cap, mem);
    assert Front([e]) == [] && Enabled(s0, e);
    Stuck(s0, stream, fn);
    DryStays(Step(s0, e), seq(polls, _ => PollBegins));
  }
}
