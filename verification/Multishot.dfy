/**
 * What re-submitting does to a multishot receive: every completion that announces more leaves the
 * operation armed, and its re-submission arms another. Over a whole run nothing takes these back.
 */
module Multishot {
  import opened Basics
  import opened BufferRing
  import opened WorkPools
  import opened Engine
  import opened Routing
  import opened Accounts

  /** The kernel posts a completion with more to come for the operation of object `o`. */
  predicate PostsMore(s: State, e: Event, o: nat) {
    e.KernelPosts? && e.more && e.k < |s.kernel| && Lookup(s.pool, s.kernel[e.k].id) == Some(o)
  }

  function MoreCount(s: State, es: seq<Event>, o: nat): nat
    requires Legal(s, es)
    decreases |es|
  {
    if es == [] then 0
    else MoreCount(s, Front(es), o) + if PostsMore(Run(s, Front(es)), Last(es), o) then 1 else 0
  }

  /** Object `o` is a datagram receive that nothing has ended. */
  predicate Running(s: State, o: nat) {
    s.halt == No && o < |s.pool.objs| && Datagram(s.pool.objs[o]) && o !in s.stranded
  }

  /** Such a receive is armed once, and once more for every completion that announced more. */
  predicate Piled(s: State, o: nat, more: nat) {
    && (o >= |s.pool.objs| ==> more == 0)
    && (Running(s, o) ==> Pending(s)[s.pool.objs[o].id] == 1 + more)
  }

  /** An id that is in no live slot pends nowhere. */
  lemma AbsentNotPending(s: State, id: nat)
    requires Inv(s) && Lookup(s.pool, id) == None
    ensures Pending(s)[id] == 0
  {
  }

  /** A new datagram receive starts with one reference. */
  lemma FirstReference(s: State, e: Event, o: nat)
    requires Inv(s) && Enabled(s, e) && |s.pool.objs| <= o && Running(Step(s, e), o)
    ensures Pending(Step(s, e))[Step(s, e).pool.objs[o].id] == 1 && !PostsMore(s, e, o)
  {
    PoolEventEffect(s, e);
    NewReceives(s, e, o);
    PendingLedger(s, e);
    AllocOk(s.pool, e.stream);
    var id := FreshId(s.pool);
    AbsentNotPending(s, id);
    assert Pending(Step(s, e)) == Pending(s) + multiset{id};
  }

  lemma NewReceives(s: State, e: Event, o: nat)
    requires Inv(s) && Enabled(s, e) && |s.pool.objs| <= o < |PoolAfter(s, e).objs|
    requires PoolAfter(s, e).objs[o].kind == Recv
    ensures e.StartRequest? && o == |s.pool.objs| && PoolAfter(s, e).objs[o].id == FreshId(s.pool)
    ensures Lookup(s.pool, FreshId(s.pool)) == None
  {
    if e.PollSettles? {
      if s.phase.action == FreeItem {
        FreeOk(s.pool, s.cq[0].id);
      }
      assert false;
    }
    AllocOk(s.pool, e.stream);
  }

  /** An old object that is a receive now was one before, with the same id. */
  lemma WasRunning(s: State, e: Event, o: nat)
    requires Inv(s) && Enabled(s, e) && o < |s.pool.objs| && Running(Step(s, e), o)
    ensures Running(s, o) && Step(s, e).pool.objs[o].id == s.pool.objs[o].id
  {
    PoolEventEffect(s, e);
    if TouchesPool(e) {
      PoolEventItem(s, e, o);
      PoolEventFrame(s, e);
    } else if e.PollBegins? && s.cq != [] {
      DispatchFrame(s);
      StrandedGrows(s);
    }
  }

  lemma StrandedGrows(s: State)
    requires StateOk(s) && s.cq != []
    ensures s.stranded <= Dispatch(s).stranded
  {
  }

  /** A live receive's id is its own: whatever names it, by id or by slot, is for it. */
  lemma OwnId(s: State, o: nat, id: nat)
    requires Inv(s) && o < |s.pool.objs| && s.pool.objs[o].inUse
    ensures Lookup(s.pool, id) == Some(o) <==> id == s.pool.objs[o].id
  {
    assert HomeOk(s.pool, o);
    if Lookup(s.pool, id) == Some(o) {
      assert SlotOk(s.pool, id);
    }
  }

  /** References are gained exactly by completions with more to come. */
  lemma GainsOnMore(s: State, e: Event, o: nat)
    requires Inv(s) && Enabled(s, e) && Running(s, o) && s.pool.objs[o].inUse && Step(s, e).halt == No
    ensures Gains(s, e)[s.pool.objs[o].id] == if PostsMore(s, e, o) then 1 else 0
  {
    var id := s.pool.objs[o].id;
    OwnId(s, o, id);
    match e
    case StartRequest(_, stream, _, _) => AllocOk(s.pool, stream);
    case SubmitSend(x, _, _, _) =>
      assert ItemOk(s.pool.objs[x]);
      OwnId(s, x, id);
    case KernelPosts(k, _, _, _) => OwnId(s, o, s.kernel[k].id);
    case _ =>
  }

  /** And none is lost before -ENOBUFS or a free. */
  lemma NoDrops(s: State, e: Event, o: nat)
    requires Inv(s) && Enabled(s, e) && Running(s, o) && Subscribed(s, o) && Running(Step(s, e), o)
    ensures Drops(s, e)[s.pool.objs[o].id] == 0
  {
    if (e.PollBegins? || e.PollSettles?) && s.cq != [] {
      OwnId(s, o, s.cq[0].id);
      if e.PollBegins? && s.cq[0].res == -ENOBUFS && s.cq[0].id == s.pool.objs[o].id {
        assert false;
      }
    }
  }

  lemma StepPiles(s: State, e: Event, o: nat, more: nat)
    requires Inv(s) && Enabled(s, e) && Subscribed(s, o) && Piled(s, o, more)
    ensures Piled(Step(s, e), o, more + if PostsMore(s, e, o) then 1 else 0)
  {
    var s' := Step(s, e);
    if o >= |s'.pool.objs| {
      NobodyPostsMore(s, e, o);
    }
    if Running(s', o) {
      if o < |s.pool.objs| {
        WasRunning(s, e, o);
        PendingLedger(s, e);
        GainsOnMore(s, e, o);
        NoDrops(s, e, o);
        LedgerAt(Pending(s'), Drops(s, e), Pending(s), Gains(s, e), s.pool.objs[o].id);
      } else {
        FirstReference(s, e, o);
      }
    }
  }

  lemma NobodyPostsMore(s: State, e: Event, o: nat)
    requires Inv(s) && Enabled(s, e) && o >= |Step(s, e).pool.objs|
    ensures o >= |s.pool.objs| && !PostsMore(s, e, o)
  {
    PoolEventEffect(s, e);
    if TouchesPool(e) && o < |s.pool.objs| {
      PoolEventItem(s, e, o);
    }
    if e.KernelPosts? {
      assert s.kernel[e.k] in Entries(s) && EntryOk(s.pool, s.kernel[e.k]);
    }
  }

  lemma LedgerAt(after: multiset<nat>, drops: multiset<nat>, before: multiset<nat>, gains: multiset<nat>, id: nat)
    requires after + drops == before + gains
    ensures after[id] + drops[id] == before[id] + gains[id]
  {
    assert (after + drops)[id] == (before + gains)[id];
  }

  lemma {:induction false} PilesUp(s: State, es: seq<Event>, o: nat)
    requires Inv(s) && Subscribed(s, o) && Piled(s, o, 0) && Legal(s, es)
    requires Disciplined(s, es) && NeverAnswersNone(s, es, o)
    ensures Piled(Run(s, es), o, MoreCount(s, es, o))
    decreases |es|
  {
    if es != [] {
      PilesUp(s, Front(es), o);
      RunKeepsInv(s, Front(es));
      SubscribedKept(s, Front(es), o);
      StepPiles(Run(s, Front(es)), Last(es), o, MoreCount(s, Front(es), o));
    }
  }

  /**
   * Over every run without stale frees, a datagram receive whose callback never answers NONE pends
   * exactly once, and once more for every completion posted for it so far with more to come, until
   * -ENOBUFS or a halt. No number of polls brings the count down again.
   */
  lemma RearmingPilesUp(cap: nat, mem: Memory, es: seq<Event>, o: nat)
    requires MemoryOk(mem) && Legal(Init(cap, mem), es) && Disciplined(Init(cap, mem), es)
    requires NeverAnswersNone(Init(cap, mem), es, o)
    ensures var s := Run(Init(cap, mem), es);
      s.halt == No && o < |s.pool.objs| && Datagram(s.pool.objs[o]) && o !in s.stranded ==>
        Pending(s)[s.pool.objs[o].id] == 1 + MoreCount(Init(cap, mem), es, o)
  {
    InitInv(cap, mem);
    PilesUp(Init(cap, mem), es, o);
  }
}
