/**
 * What users may count on: every live item is accounted for, subscriptions stay armed, callbacks
 * have the right type and run as often as they should.
 */
module Accounts {
  import opened Basics
  import opened BufferRing
  import opened WorkPools
  import opened Engine
  import opened Routing
  import opened Buffers
  import Halts

  // ---------------------------------------------------------------------------------------------
  // Conservation of requests

  /** The objects that some queued entry, armed operation or unpolled completion names. */
  ghost function PendingObjects(s: State): set<nat> {
    set o: nat | o < |s.pool.objs| && s.pool.objs[o].id in Pending(s) && Lookup(s.pool, s.pool.objs[o].id) == Some(o)
  }

  /** Send items acquired and not submitted. */
  ghost function AcquiredObjects(s: State): set<nat> {
    set o: nat | o < |s.pool.objs| && s.pool.objs[o].inUse && s.pool.objs[o].kind == Unknown
  }

  /** Items left behind by the early return on -ENOBUFS. */
  ghost function LeftBehind(s: State): set<nat> {
    LiveObjects(s.pool) * s.stranded
  }

  ghost predicate Conserved(s: State) {
    && LiveObjects(s.pool) == PendingObjects(s) + AcquiredObjects(s) + LeftBehind(s)
    && AcquiredObjects(s) !! PendingObjects(s)
    && AcquiredObjects(s) !! LeftBehind(s)
    && forall o :: o in PendingObjects(s) && o in LeftBehind(s) ==> Datagram(s.pool.objs[o])
  }

  lemma AccountedConserves(s: State)
    requires Inv(s) && s.halt == No
    ensures Conserved(s)
  {
    var t := TrafficOf(s);
    forall o: nat | o < |s.pool.objs|
      ensures o in LiveObjects(s.pool) <==> o in PendingObjects(s) || o in AcquiredObjects(s) || o in LeftBehind(s)
      ensures o in AcquiredObjects(s) ==> o !in PendingObjects(s) && o !in LeftBehind(s)
      ensures o in PendingObjects(s) && o in LeftBehind(s) ==> Datagram(s.pool.objs[o])
    {
      ObjectConserved(s, o);
    }
  }

  lemma ObjectConserved(s: State, o: nat)
    requires Inv(s) && s.halt == No && o < |s.pool.objs|
    ensures o in LiveObjects(s.pool) <==> o in PendingObjects(s) || o in AcquiredObjects(s) || o in LeftBehind(s)
    ensures o in AcquiredObjects(s) ==> o !in PendingObjects(s) && o !in LeftBehind(s)
    ensures o in PendingObjects(s) && o in LeftBehind(s) ==> Datagram(s.pool.objs[o])
  {
    var id := s.pool.objs[o].id;
    assert Accounted(TrafficOf(s), o) && HomeOk(s.pool, o);
    if o in PendingObjects(s) {
      assert Names(s.pool, id) && SlotOk(s.pool, id);
    }
  }

  /**
   * In every state of every run without stale frees, short of a halt, the live slots are exactly
   * the requests pending somewhere, the send items acquired and not submitted, and the items left
   * behind by -ENOBUFS; and each pending one-shot request is pending once.
   */
  lemma RequestsConserved(cap: nat, mem: Memory, es: seq<Event>)
    requires MemoryOk(mem) && Legal(Init(cap, mem), es) && Disciplined(Init(cap, mem), es)
    requires Run(Init(cap, mem), es).halt == No
    ensures var s := Run(Init(cap, mem), es);
      && Conserved(s)
      && (forall o :: o in PendingObjects(s) && !Datagram(s.pool.objs[o]) ==> Pending(s)[s.pool.objs[o].id] == 1)
  {
    InitInv(cap, mem);
    RunKeepsInv(Init(cap, mem), es);
    var s := Run(Init(cap, mem), es);
    AccountedConserves(s);
    forall o | o in PendingObjects(s) && !Datagram(s.pool.objs[o])
      ensures Pending(s)[s.pool.objs[o].id] == 1
    {
      assert Names(s.pool, s.pool.objs[o].id);
    }
  }

  // ---------------------------------------------------------------------------------------------
  // The ledger of references

  /** The references an event adds: one per submission, and one per completion with more to come. */
  function Gains(s: State, e: Event): multiset<nat>
    requires Enabled(s, e)
  {
    if Step(s, e).halt != No then multiset{}
    else match e
      case StartRequest(_, stream, _, _) => multiset{FreshId(s.pool)}
      case SubmitSend(o, _, _, _) => multiset{s.pool.objs[o].id}
      case KernelPosts(k, _, more, _) => if more then multiset{s.kernel[k].id} else multiset{}
      case _ => multiset{}
  }

  /** The id the next allocation will hand out. */
  function FreshId(p: Pool): nat {
    if p.freeIds == [] then |p.slots| else p.freeIds[|p.freeIds| - 1]
  }

  /** The references an event removes: the completion's, on a free and on the -ENOBUFS return. */
  function Drops(s: State, e: Event): multiset<nat>
    requires Enabled(s, e)
  {
    match e
    case PollBegins => if s.cq != [] && s.cq[0].res == -ENOBUFS then multiset{s.cq[0].id} else multiset{}
    case PollSettles(_) => if s.phase.action == FreeItem then multiset{s.cq[0].id} else multiset{}
    case _ => multiset{}
  }

  /**
   * The exact change of every id's reference count by every step. A re-submission changes nothing;
   * so a multishot receive that is re-submitted for a completion with more to come has one armed
   * operation more after the poll than before the completion.
   */
  lemma PendingLedger(s: State, e: Event)
    requires Inv(s) && Enabled(s, e)
    ensures Pending(Step(s, e)) + Drops(s, e) == Pending(s) + Gains(s, e)
  {
    if e.StartRequest? || e.AcquireSend? || e.SubmitSend? {
      UserLedger(s, e);
    } else if e.KernelPosts? {
      PostLedger(s, e.k, e.res, e.more, e.data);
    } else {
      PollLedger(s, e);
    }
  }

  lemma UserLedger(s: State, e: Event)
    requires Enabled(s, e) && (e.StartRequest? || e.AcquireSend? || e.SubmitSend?)
    ensures Pending(Step(s, e)) == Pending(s) + Gains(s, e)
  {
    match e
    case StartRequest(kind, stream, fn, fl) =>
      SubmissionLedger(s.(pool := PoolAfter(s, e)), s, |s.pool.objs|, fl);
    case SubmitSend(o, _, _, fl) => SubmissionLedger(s.(pool := PoolAfter(s, e)), s, o, fl);
    case AcquireSend(_) =>
  }

  lemma PollLedger(s: State, e: Event)
    requires Inv(s) && Enabled(s, e)
    requires e.PollBegins? || e.PollFails? || e.CallbackReturns? || e.PollSettles? || e.PollAdvances?
    ensures Pending(Step(s, e)) + Drops(s, e) == Pending(s)
  {
    if e.PollBegins? && s.cq != [] {
      DispatchLedger(s);
    } else if e.PollSettles? && s.phase.action == FreeItem {
      assert SlotOk(s.pool, s.cq[0].id);
      FreeLedger(s, e.fl);
    } else if e.PollSettles? {
      assert SlotOk(s.pool, s.cq[0].id);
      RearmLedger(s, e.fl);
    } else {
      assert TrafficOf(Step(s, e)) == TrafficOf(s);
    }
  }

  lemma PostLedger(s: State, k: nat, res: int, more: bool, data: seq<Byte>)
    requires Inv(s) && s.halt == No && k < |s.kernel| && MayPost(s.kernel[k].op, Exposed(s.ring), res, more, data)
    ensures var s' := Post(s, k, res, more, data);
      && s'.halt == No
      && Pending(s') == Pending(s) + if more then multiset{s.kernel[k].id} else multiset{}
  {
    assert Entries(s)[k] in Entries(s) && EntryOk(s.pool, s.kernel[k]);
    var c := PostEffect(s, k, res, more, data);
    PostedPending(TrafficOf(s), k, more, c);
    assert TrafficOf(Post(s, k, res, more, data)) == Posted(TrafficOf(s), k, more, c);
  }

  lemma FreeLedger(s: State, fl: Flushes)
    requires s.phase.Returned? && s.cq != [] && s.phase.obj < |s.pool.objs| && CanFree(s.pool, s.cq[0].id)
    ensures Pending(Settle(s, s.phase.obj, FreeItem, fl)) + multiset{s.cq[0].id} == Pending(s)
  {
    CompletionIdsTail(s.cq);
  }

  lemma SubmissionLedger(s1: State, s: State, o: nat, fl: Flushes)
    requires s1.halt == No && UserTurn(s) && s1 == s.(pool := s1.pool) && o < |s1.pool.objs|
    ensures var s' := Submit(s1, o, fl);
      Pending(s') == Pending(s) + if s'.halt == No then multiset{s1.pool.objs[o].id} else multiset{}
  {
    SubmitEffect(s1, o, fl);
    var it := s1.pool.objs[o];
    if Submit(s1, o, fl).halt == No {
      EntryIdsAppend(Entries(s), Sqe(it.id, OpFor(it)));
    }
  }

  lemma RearmLedger(s: State, fl: Flushes)
    requires s.halt == No && s.phase.Returned? && s.phase.action == Rearm && s.cq != []
    requires s.phase.obj < |s.pool.objs| && s.pool.objs[s.phase.obj].id == s.cq[0].id
    ensures Pending(Settle(s, s.phase.obj, Rearm, fl)) == Pending(s)
  {
    var it := s.pool.objs[s.phase.obj];
    SubmitEffect(s, s.phase.obj, fl);
    CompletionIdsTail(s.cq);
    if Submit(s, s.phase.obj, fl).halt == No {
      EntryIdsAppend(Entries(s), Sqe(it.id, OpFor(it)));
    }
  }

  lemma DispatchLedger(s: State)
    requires Inv(s) && s.halt == No && s.phase == Idle && s.cq != []
    ensures Pending(Dispatch(s)) + (if s.cq[0].res == -ENOBUFS then multiset{s.cq[0].id} else multiset{}) == Pending(s)
  {
    var s', c := Dispatch(s), s.cq[0];
    assert c in Waiting(s) && CompletionOk(s.pool, c);
    assert SlotOk(s.pool, c.id);
    CompletionIdsTail(s.cq);
    if c.res == -ENOBUFS {
      assert Entries(s') == Entries(s) && Waiting(s') == s.cq[1..];
    } else {
      var o := s.pool.slots[c.id].value;
      assert ItemOk(s.pool.objs[o]);
      DispatchItemEffect(s.(dispatched := s.dispatched + [c]), o, c);
      assert TrafficOf(s') == TrafficOf(s);
    }
  }

  // ---------------------------------------------------------------------------------------------
  // The rules of the machine stop nobody

  /** What the program does next when it is in the middle of a poll, or polls. */
  function ProgramMoves(s: State, answer: Answer, fl: Flushes): Event {
    match s.phase
    case Idle => PollBegins
    case InCallback(_) => CallbackReturns(answer)
    case Returned(_, _) => PollSettles(fl)
    case Settled => PollAdvances
  }

  /**
   * The kernel can complete any operation it holds: with any error, with any success if it is no
   * receive, and, if it is one, with data if and only if a buffer is exposed and holds them. A
   * datagram receive may also announce more.
   */
  ghost predicate Completable(s: State) {
    && (forall k: nat, res: int :: k < |s.kernel| && (res < 0 || !IsRecvOp(s.kernel[k].op)) ==>
          Enabled(s, KernelPosts(k, res, false, [])))
    && (forall k: nat, data: seq<Byte>, more: bool :: k < |s.kernel| && IsRecvOp(s.kernel[k].op) ==>
          (Enabled(s, KernelPosts(k, |data|, more, data)) <==>
             && Exposed(s.ring) > 0 && |data| <= BUFFER_SIZE
             && (more ==> s.kernel[k].op == OpRecvMsgMultishot)))
  }

  lemma KernelMoves(s: State)
    requires StateOk(s) && s.halt == No
    ensures Completable(s)
  {
  }

  /** The user can start a request of any kind. */
  ghost predicate Startable(s: State, fl: Flushes) {
    forall kind: Kind, stream: bool, fn: nat :: kind in {Accept, Connect, Recv, Close} ==>
      Enabled(s, StartRequest(kind, stream, fn, fl))
  }

  /**
   * Over every run, stale frees or not, short of a halt: the program can always take its next step,
   * the user theirs, and the kernel can complete any operation it holds. Where every buffer is
   * accounted for, a receive can succeed exactly as long as fewer than 512 completions hold one.
   */
  lemma NeverStuck(cap: nat, mem: Memory, es: seq<Event>, answer: Answer, fl: Flushes)
    requires MemoryOk(mem) && Legal(Init(cap, mem), es) && Run(Init(cap, mem), es).halt == No
    ensures var s := Run(Init(cap, mem), es);
      && Enabled(s, ProgramMoves(s, answer, fl))
      && (UserTurn(s) ==> Startable(s, fl))
      && Completable(s)
      && (WellPlaced(Init(cap, mem), es) ==> (Exposed(s.ring) > 0 <==> |Held(s)| < 512))
  {
    var s0, s := Init(cap, mem), Run(Init(cap, mem), es);
    InitPartition(cap, mem);
    Halts.RunKeepsSteady(cap, mem, es);
    RunKeepsCarried(s0, es);
    KernelMoves(s);
    if WellPlaced(s0, es) {
      PartitionIff(s0, es);
      OwnedOnce(s, 0);
    }
  }

  // ---------------------------------------------------------------------------------------------
  // Subscriptions

  /** Object `o` holds its slot and has a request outstanding: exactly one unless it is a datagram receive. */
  predicate Armed(s: State, o: nat)
    requires o < |s.pool.objs|
  {
    var it := s.pool.objs[o];
    && it.inUse && Lookup(s.pool, it.id) == Some(o)
    && if Datagram(it) then it.id in Pending(s) else Pending(s)[it.id] == 1
  }

  lemma LiveIsArmed(s: State, o: nat)
    requires Inv(s) && s.halt == No && o < |s.pool.objs|
    requires s.pool.objs[o].inUse && s.pool.objs[o].kind != Unknown && o !in s.stranded
    ensures Armed(s, o)
  {
    assert Accounted(TrafficOf(s), o) && HomeOk(s.pool, o);
  }

  /** An accept item, failed accepts included, is armed in every state until -ENOBUFS or a halt. */
  lemma AcceptsStayArmed(cap: nat, mem: Memory, es: seq<Event>, o: nat)
    requires MemoryOk(mem) && Legal(Init(cap, mem), es) && Disciplined(Init(cap, mem), es)
    ensures var s := Run(Init(cap, mem), es);
      s.halt == No && o < |s.pool.objs| && s.pool.objs[o].kind == Accept && o !in s.stranded ==> Armed(s, o)
  {
    InitInv(cap, mem);
    RunKeepsInv(Init(cap, mem), es);
    var s := Run(Init(cap, mem), es);
    if s.halt == No && o < |s.pool.objs| && s.pool.objs[o].kind == Accept && o !in s.stranded {
      assert ItemOk(s.pool.objs[o]);
      LiveIsArmed(s, o);
    }
  }

  /** No callback of object `o` has answered NONE. */
  predicate NeverAnswersNone(s: State, es: seq<Event>, o: nat)
    requires Legal(s, es)
    decreases |es|
  {
    es == [] ||
    (NeverAnswersNone(s, Front(es), o)
     && (Last(es) == CallbackReturns(AnswerNone) ==> Run(s, Front(es)).phase != InCallback(o)))
  }

  /** Object `o`, once it is a receive, is neither free nor about to be freed. */
  predicate Subscribed(s: State, o: nat) {
    o < |s.pool.objs| && s.pool.objs[o].kind == Recv ==> s.pool.objs[o].inUse && s.phase != Returned(o, FreeItem)
  }

  lemma StepKeepsSubscribed(s: State, e: Event, o: nat)
    requires Inv(s) && Enabled(s, e) && Subscribed(s, o)
    requires e == CallbackReturns(AnswerNone) ==> s.phase != InCallback(o)
    ensures Subscribed(Step(s, e), o)
  {
    PoolEventEffect(s, e);
    if TouchesPool(e) {
      PoolEventFrame(s, e);
      SubscribedPool(s, e, o);
    } else if e.PollBegins? && s.cq != [] {
      DispatchNeverFreesReceives(s);
    }
  }

  lemma SubscribedPool(s: State, e: Event, o: nat)
    requires Inv(s) && Enabled(s, e) && Subscribed(s, o) && TouchesPool(e)
    ensures var p' := PoolAfter(s, e); o < |p'.objs| && p'.objs[o].kind == Recv ==> p'.objs[o].inUse
    ensures s.phase == Returned(o, FreeItem) && o < |s.pool.objs| ==>
              PoolAfter(s, e).objs[o].kind == s.pool.objs[o].kind
  {
    match e
    case StartRequest(_, stream, _, _) => AllocOk(s.pool, stream);
    case AcquireSend(stream) => AllocOk(s.pool, stream);
    case SubmitSend(x, _, _, _) =>
    case PollSettles(_) =>
      if s.phase.action == FreeItem {
        FreeOk(s.pool, s.cq[0].id);
      }
  }

  lemma DispatchNeverFreesReceives(s: State)
    requires Inv(s) && s.halt == No && s.phase == Idle && s.cq != []
    ensures var s' := Dispatch(s);
      s'.phase.Returned? && s'.phase.action == FreeItem ==>
        s'.phase.obj < |s.pool.objs| && s.pool.objs[s'.phase.obj].kind != Recv
  {
  }

  /** From any good state, a receive whose callback never answers NONE stays subscribed. */
  lemma {:induction false} SubscribedKept(s: State, es: seq<Event>, o: nat)
    requires Inv(s) && Subscribed(s, o) && Legal(s, es) && Disciplined(s, es) && NeverAnswersNone(s, es, o)
    ensures Subscribed(Run(s, es), o)
    decreases |es|
  {
    if es != [] {
      SubscribedKept(s, Front(es), o);
      RunKeepsInv(s, Front(es));
      StepKeepsSubscribed(Run(s, Front(es)), Last(es), o);
    }
  }

  /**
   * A receive whose callback never answers NONE is never freed: in every state short of -ENOBUFS
   * and a halt it is armed, a stream receive exactly once, a datagram receive at least once, and
   * its id keeps naming this very item.
   */
  lemma ReceivesStayArmed(cap: nat, mem: Memory, es: seq<Event>, o: nat)
    requires MemoryOk(mem) && Legal(Init(cap, mem), es) && Disciplined(Init(cap, mem), es)
    requires NeverAnswersNone(Init(cap, mem), es, o)
    ensures var s := Run(Init(cap, mem), es);
      && Subscribed(s, o)
      && (o < |s.pool.objs| && s.pool.objs[o].kind == Recv && s.halt == No && o !in s.stranded ==> Armed(s, o))
  {
    InitInv(cap, mem);
    RunKeepsInv(Init(cap, mem), es);
    SubscribedKept(Init(cap, mem), es, o);
    var s := Run(Init(cap, mem), es);
    if o < |s.pool.objs| && s.pool.objs[o].kind == Recv && s.halt == No && o !in s.stranded {
      LiveIsArmed(s, o);
    }
  }

  /** Every callback of a datagram receive answers RE_SUBMIT. */
  predicate DatagramsResubmit(s: State, es: seq<Event>)
    requires Legal(s, es)
    decreases |es|
  {
    es == [] ||
    (DatagramsResubmit(s, Front(es))
     && (Last(es) == CallbackReturns(AnswerNone) ==>
           var s1 := Run(s, Front(es)); !Datagram(s1.pool.objs[s1.phase.obj])))
  }

  /** No datagram receive is about to be freed. */
  predicate NoDatagramFree(s: State) {
    s.phase.Returned? && s.phase.action == FreeItem && s.phase.obj < |s.pool.objs| ==>
      !Datagram(s.pool.objs[s.phase.obj])
  }

  lemma StepKeepsNoDatagramFree(s: State, e: Event)
    requires Inv(s) && Enabled(s, e) && NoDatagramFree(s)
    requires e == CallbackReturns(AnswerNone) ==> !Datagram(s.pool.objs[s.phase.obj])
    ensures NoDatagramFree(Step(s, e))
  {
    PoolEventEffect(s, e);
    if TouchesPool(e) {
      PoolEventFrame(s, e);
    } else if e.PollBegins? && s.cq != [] {
      DispatchNeverFreesReceives(s);
    }
  }

  /** From any good state, answering RE_SUBMIT to every datagram means no stale free. */
  lemma {:induction false} ResubmittersKeepDiscipline(s: State, es: seq<Event>)
    requires Inv(s) && NoDatagramFree(s) && Legal(s, es) && DatagramsResubmit(s, es)
    ensures Disciplined(s, es) && NoDatagramFree(Run(s, es))
    decreases |es|
  {
    if es != [] {
      ResubmittersKeepDiscipline(s, Front(es));
      RunKeepsInv(s, Front(es));
      var s1 := Run(s, Front(es));
      StepKeepsNoDatagramFree(s1, Last(es));
      if StaleFree(s1, Last(es)) {
        OnlyDatagramsGoStale(s1, Last(es));
      }
    }
  }

  /** Users who always answer RE_SUBMIT to datagrams never cause a stale free: every run is routed. */
  lemma ResubmittingIsDisciplined(cap: nat, mem: Memory, es: seq<Event>)
    requires MemoryOk(mem) && Legal(Init(cap, mem), es) && DatagramsResubmit(Init(cap, mem), es)
    ensures Disciplined(Init(cap, mem), es) && AlwaysRouted(Init(cap, mem), es)
  {
    InitInv(cap, mem);
    ResubmittersKeepDiscipline(Init(cap, mem), es);
    RoutedIffDisciplined(cap, mem, es);
  }

  // ---------------------------------------------------------------------------------------------
  // Callbacks

  function CallCount(log: seq<Call>, o: nat): nat {
    if log == [] then 0
    else CallCount(log[..|log| - 1], o) + if log[|log| - 1].obj == o then 1 else 0
  }

  /** A call is made through the alternative that fits the item, with the function it was given. */
  predicate CallOk(p: Pool, c: Call) {
    && c.obj < |p.objs|
    && p.objs[c.obj].kind != Unknown
    && c.alt == AltFor(p.objs[c.obj].kind)
    && c.fn == p.objs[c.obj].fn
    && (p.objs[c.obj].kind != Close ==> c.res >= 0)
  }

  predicate OneAnswer(kind: Kind) {
    kind in {Connect, Close, SendStreamData, SendWorkPacket}
  }

  predicate InProgress(s: State, o: nat) {
    s.phase == InCallback(o) || (s.phase.Returned? && s.phase.obj == o)
  }

  /** How often the callback of object `o` has run. */
  predicate CountOk(s: State, o: nat)
    requires o < |s.pool.objs|
  {
    var it, n := s.pool.objs[o], CallCount(s.log, o);
    && (it.kind == Unknown ==> n == 0)
    && (OneAnswer(it.kind) ==> n <= 1 && (it.inUse && !InProgress(s, o) ==> n == 0))
    && (it.kind == Close && (InProgress(s, o) || !it.inUse) ==> n == 1)
  }

  ghost predicate CallsOk(s: State) {
    && (forall i :: 0 <= i < |s.log| ==> CallOk(s.pool, s.log[i]))
    && (forall o: nat :: o < |s.pool.objs| ==> CountOk(s, o))
  }

  lemma {:induction false} NoCallsYet(o: nat, log: seq<Call>)
    requires forall i :: 0 <= i < |log| ==> log[i].obj < o
    ensures CallCount(log, o) == 0
  {
    if log != [] {
      NoCallsYet(o, log[..|log| - 1]);
    }
  }

  /** What a pool event leaves of an item as far as calls are concerned. */
  lemma PoolEventKeepsCalls(s: State, e: Event)
    requires Inv(s) && CallsOk(s) && Enabled(s, e) && TouchesPool(e)
    ensures CallsOk(Step(s, e))
  {
    var s' := Step(s, e);
    PoolEventEffect(s, e);
    PoolEventFrame(s, e);
    forall i | 0 <= i < |s.log|
      ensures CallOk(s'.pool, s.log[i])
    {
      assert CallOk(s.pool, s.log[i]);
      PoolEventItem(s, e, s.log[i].obj);
    }
    forall o: nat | o < |s'.pool.objs|
      ensures CountOk(s', o)
    {
      if o < |s.pool.objs| {
        assert CountOk(s, o);
        PoolEventItem(s, e, o);
      } else {
        PoolEventNewItem(s, e, o);
        NoCallsYet(o, s.log);
      }
    }
  }

  /** An old item keeps its kind and function once it has a kind; only the one being freed is freed. */
  lemma PoolEventItem(s: State, e: Event, o: nat)
    requires Inv(s) && Enabled(s, e) && TouchesPool(e) && o < |s.pool.objs|
    ensures var p' := PoolAfter(s, e);
      && o < |p'.objs|
      && (s.pool.objs[o].kind != Unknown ==> p'.objs[o].(inUse := s.pool.objs[o].inUse) == s.pool.objs[o])
      && (s.pool.objs[o].kind == Unknown ==>
            p'.objs[o].inUse && p'.objs[o].kind in {Unknown, SendStreamData, SendWorkPacket})
      && (p'.objs[o].inUse != s.pool.objs[o].inUse ==> s.phase == Returned(o, FreeItem))
      && (e.PollSettles? && s.phase == Returned(o, FreeItem) ==> !p'.objs[o].inUse)
  {
    assert ItemOk(s.pool.objs[o]);
    match e
    case StartRequest(_, stream, _, _) =>
      AllocOk(s.pool, stream);
      assert Alloc(s.pool, stream).objs[..|s.pool.objs|][o] == s.pool.objs[o];
    case AcquireSend(stream) =>
      AllocOk(s.pool, stream);
      assert Alloc(s.pool, stream).objs[..|s.pool.objs|][o] == s.pool.objs[o];
    case SubmitSend(x, _, _, _) =>
    case PollSettles(_) =>
      if s.phase.action == FreeItem {
        FreeOk(s.pool, s.cq[0].id);
      }
  }

  lemma PoolEventNewItem(s: State, e: Event, o: nat)
    requires Inv(s) && Enabled(s, e) && TouchesPool(e) && |s.pool.objs| <= o < |PoolAfter(s, e).objs|
    ensures e.StartRequest? || e.AcquireSend?
    ensures e.AcquireSend? ==> PoolAfter(s, e).objs[o].kind == Unknown
    ensures PoolAfter(s, e).objs[o].inUse && !InProgress(s, o)
  {
    match e
    case StartRequest(_, stream, _, _) => AllocOk(s.pool, stream);
    case AcquireSend(stream) => AllocOk(s.pool, stream);
    case SubmitSend(x, _, _, _) =>
    case PollSettles(_) =>
      if s.phase.action == FreeItem {
        FreeOk(s.pool, s.cq[0].id);
      }
  }

  lemma DispatchKeepsCalls(s: State)
    requires Inv(s) && CallsOk(s) && s.halt == No && s.phase == Idle && s.cq != []
    ensures CallsOk(Dispatch(s))
  {
    var s' := Dispatch(s);
    var c := s.cq[0];
    assert c in Waiting(s) && CompletionOk(s.pool, c);
    var o := s.pool.slots[c.id].value;
    assert SlotOk(s.pool, c.id) && ItemOk(s.pool.objs[o]) && CountOk(s, o);
    if c.res == -ENOBUFS {
      QuietStepKeepsCalls(s, s');
    } else {
      var s1 := s.(dispatched := s.dispatched + [c]);
      DispatchItemEffect(s1, o, c);
      DispatchLog(s1, o, c);
      CallsAfterDispatch(s, s', o);
    }
  }

  /** At most one more call, of the object now in progress. */
  lemma CallsAfterDispatch(s: State, s': State, o: nat)
    requires CallsOk(s) && s'.pool == s.pool
    requires o < |s.pool.objs| && s.pool.objs[o].inUse && s.pool.objs[o].kind != Unknown
    requires s.phase == Idle
    requires s'.phase == Idle || s'.phase == InCallback(o) || (s'.phase.Returned? && s'.phase.obj == o)
    requires if s'.phase.InCallback?
             then |s'.log| == |s.log| + 1 && s'.log[..|s.log|] == s.log && s'.log[|s.log|].obj == o
                  && CallOk(s.pool, s'.log[|s.log|])
             else s'.log == s.log
    requires s.pool.objs[o].kind == Close ==> !s'.phase.Returned?
    ensures CallsOk(s')
  {
    forall i | 0 <= i < |s'.log|
      ensures CallOk(s.pool, s'.log[i])
    {
      if i < |s.log| {
        assert s'.log[i] == s'.log[..|s.log|][i];
      }
    }
    forall x: nat | x < |s.pool.objs|
      ensures CountOk(s', x)
    {
      assert CountOk(s, x) && CountOk(s, o);
    }
  }

  /** Dispatch of a live item logs one call for it when it enters a callback, and none otherwise. */
  lemma DispatchLog(s: State, o: nat, c: Cqe)
    requires StateOk(s) && s.halt == No && s.phase == Idle
    requires o < |s.pool.objs| && s.pool.objs[o].kind != Unknown && ItemOk(s.pool.objs[o])
    ensures var s' := DispatchItem(s, o, c);
      && (s'.phase.InCallback? ==>
            && s'.phase == InCallback(o)
            && |s'.log| == |s.log| + 1 && s'.log == s.log + [s'.log[|s.log|]]
            && s'.log[|s.log|].obj == o && CallOk(s.pool, s'.log[|s.log|]))
      && (!s'.phase.InCallback? ==> s'.log == s.log)
      && (s'.phase.Returned? ==> s'.phase.obj == o && s.pool.objs[o].kind != Close)
      && (s.pool.objs[o].kind == Close ==> s'.phase.InCallback?)
  {
  }

  lemma StepKeepsCalls(s: State, e: Event)
    requires Inv(s) && CallsOk(s) && Enabled(s, e)
    ensures CallsOk(Step(s, e))
  {
    if TouchesPool(e) {
      PoolEventKeepsCalls(s, e);
    } else if e.PollBegins? && s.cq != [] {
      DispatchKeepsCalls(s);
    } else {
      QuietStepKeepsCalls(s, Step(s, e));
    }
  }

  /** Steps that call nobody and free nobody. */
  lemma QuietStepKeepsCalls(s: State, s': State)
    requires CallsOk(s) && s'.pool == s.pool && s'.log == s.log
    requires forall o: nat :: o < |s.pool.objs| && OneAnswer(s.pool.objs[o].kind) ==>
               InProgress(s', o) == InProgress(s, o)
    ensures CallsOk(s')
  {
    forall o: nat | o < |s.pool.objs|
      ensures CountOk(s', o)
    {
      assert CountOk(s, o);
    }
  }

  /** From any good state, every run without stale frees keeps calls in order and fires no assertion. */
  lemma {:induction false} CallsKept(s: State, es: seq<Event>)
    requires Inv(s) && CallsOk(s) && Legal(s, es) && Disciplined(s, es)
    ensures CallsOk(Run(s, es)) && Run(s, es).halt != AssertionFailed
    decreases |es|
  {
    RunKeepsInv(s, es);
    if es != [] {
      CallsKept(s, Front(es));
      RunKeepsInv(s, Front(es));
      StepKeepsCalls(Run(s, Front(es)), Last(es));
    }
  }

  /**
   * Over every run without stale frees: no assertion fires, neither on the variant, nor on null
   * slots or double frees; every call has the right type and function; a connect, send or close
   * callback runs at most once, connect and send only for a non-negative result, and a freed close
   * item has had its one call.
   */
  lemma CallbacksCoherent(cap: nat, mem: Memory, es: seq<Event>)
    requires MemoryOk(mem) && Legal(Init(cap, mem), es) && Disciplined(Init(cap, mem), es)
    ensures var s := Run(Init(cap, mem), es);
      && s.halt != AssertionFailed
      && (forall i :: 0 <= i < |s.log| ==> CallOk(s.pool, s.log[i]))
      && (forall o: nat :: o < |s.pool.objs| && OneAnswer(s.pool.objs[o].kind) ==> CallCount(s.log, o) <= 1)
      && (forall o: nat :: o < |s.pool.objs| && s.pool.objs[o].kind == Close && !s.pool.objs[o].inUse ==>
            CallCount(s.log, o) == 1)
  {
    InitInv(cap, mem);
    CallsKept(Init(cap, mem), es);
    var s := Run(Init(cap, mem), es);
    forall o: nat | o < |s.pool.objs|
      ensures OneAnswer(s.pool.objs[o].kind) ==> CallCount(s.log, o) <= 1
      ensures s.pool.objs[o].kind == Close && !s.pool.objs[o].inUse ==> CallCount(s.log, o) == 1
    {
      assert CountOk(s, o);
    }
  }
}
