/**
 * Stale frees as the program can see them. What the kernel holds is its own affair; what the program
 * knows is which entries it has prepared, and which completions it has dispatched with and without
 * the flag that announces more. That is enough to tell.
 */
module Visible {
  import opened Basics
  import opened BufferRing
  import opened Engine
  import opened Routing
  import Histories

  /** The ids of the completions that end their operation. */
  function FinalIds(q: seq<Cqe>): seq<nat> {
    if q == [] then []
    else FinalIds(q[..|q| - 1]) + if q[|q| - 1].more then [] else [q[|q| - 1].id]
  }

  /** How often an operation has been prepared for each id. */
  function Prepared(s: State): multiset<nat> {
    multiset(EntryIds(s.prepared))
  }

  /** How often an operation has been seen to end for each id. */
  function Ended(s: State): multiset<nat> {
    multiset(FinalIds(s.dispatched))
  }

  /** The program frees an id for which it has prepared more operations than it has seen end. */
  predicate FreesTooEarly(s: State, e: Event) {
    && e.PollSettles? && s.phase.Returned? && s.phase.action == FreeItem && s.cq != []
    && Prepared(s)[s.cq[0].id] > Ended(s)[s.cq[0].id]
  }

  // ---------------------------------------------------------------------------------------------
  // Final completions

  lemma FinalIdsAppend(q: seq<Cqe>, c: Cqe)
    ensures FinalIds(q + [c]) == FinalIds(q) + if c.more then [] else [c.id]
  {
    assert (q + [c])[..|q|] == q;
  }

  lemma {:induction false} FinalIdsConcat(a: seq<Cqe>, b: seq<Cqe>)
    ensures FinalIds(a + b) == FinalIds(a) + FinalIds(b)
    decreases |b|
  {
    if b == [] {
      assert a + b == a;
    } else {
      var n := |b| - 1;
      FinalIdsConcat(a, b[..n]);
      assert (a + b)[..|a| + n] == a + b[..n] && (a + b)[|a| + n] == b[n];
      var tail := if b[n].more then [] else [b[n].id];
      assert FinalIds(a + b) == (FinalIds(a) + FinalIds(b[..n])) + tail;
    }
  }

  lemma {:induction false} FinalIdsContain(q: seq<Cqe>, k: nat)
    requires k < |q| && !q[k].more
    ensures q[k].id in FinalIds(q)
  {
    if k < |q| - 1 {
      FinalIdsContain(q[..|q| - 1], k);
    }
  }

  /** A final completion is a completion. */
  lemma {:induction false} FinalIdsComeFrom(q: seq<Cqe>, id: nat)
    requires id in FinalIds(q)
    ensures id in CompletionIds(q)
  {
    var n := |q| - 1;
    if id in FinalIds(q[..n]) {
      FinalIdsComeFrom(q[..n], id);
      var j :| 0 <= j < n && CompletionIds(q[..n])[j] == id;
      assert CompletionIds(q)[j] == id;
    } else {
      assert CompletionIds(q)[n] == id;
    }
  }

  // ---------------------------------------------------------------------------------------------
  // What every legal run keeps

  /** An entry for the id is still with the kernel, or a later completion ends its operation. */
  predicate Followed(entries: seq<Sqe>, cq: seq<Cqe>, j: nat)
    requires j < |cq|
  {
    cq[j].id in EntryIds(entries) || exists k :: j < k < |cq| && cq[k].id == cq[j].id && !cq[k].more
  }

  predicate MoreFollows(entries: seq<Sqe>, cq: seq<Cqe>) {
    forall j: nat :: j < |cq| && cq[j].more ==> Followed(entries, cq, j)
  }

  /** Each entry prepared is an entry still, or its operation has ended. */
  predicate BalanceOk(prepared: seq<Sqe>, entries: seq<Sqe>, posted: seq<Cqe>) {
    multiset(EntryIds(prepared)) == multiset(EntryIds(entries)) + multiset(FinalIds(posted))
  }

  predicate TrafficOk(s: State) {
    BalanceOk(s.prepared, Entries(s), s.posted) && MoreFollows(Entries(s), s.cq)
  }

  predicate VisibleOk(s: State) {
    Histories.OrderOk(s) && TrafficOk(s)
  }

  lemma PostedBalance(prepared: seq<Sqe>, entries: seq<Sqe>, posted: seq<Cqe>, k: nat, c: Cqe)
    requires BalanceOk(prepared, entries, posted) && k < |entries| && c.id == entries[k].id
    ensures BalanceOk(prepared, if c.more then entries else RemoveAt(entries, k), posted + [c])
  {
    FinalIdsAppend(posted, c);
    EntryIdsRemove(entries, k);
  }

  lemma StillEntered(entries: seq<Sqe>, k: nat, id: nat)
    requires k < |entries| && id in EntryIds(entries) && id != entries[k].id
    ensures id in EntryIds(RemoveAt(entries, k))
  {
    EntryIdsRemove(entries, k);
    assert id in multiset(EntryIds(entries));
    assert id in multiset(EntryIds(RemoveAt(entries, k)));
  }

  /** More entries never hurt. */
  lemma EntryAddedFollows(entries: seq<Sqe>, e: Sqe, cq: seq<Cqe>)
    requires MoreFollows(entries, cq)
    ensures MoreFollows(entries + [e], cq)
  {
    assert EntryIds(entries + [e]) == EntryIds(entries) + [e.id];
    forall j: nat | j < |cq| && cq[j].more
      ensures Followed(entries + [e], cq, j)
    {
      assert Followed(entries, cq, j);
    }
  }

  /** A completion is posted for entry `k`: it ends the operation, or leaves the entry where it is. */
  lemma PostedFollows(entries: seq<Sqe>, cq: seq<Cqe>, k: nat, c: Cqe)
    requires MoreFollows(entries, cq) && k < |entries| && c.id == entries[k].id
    ensures MoreFollows(if c.more then entries else RemoveAt(entries, k), cq + [c])
  {
    var entries', cq' := if c.more then entries else RemoveAt(entries, k), cq + [c];
    assert EntryIds(entries)[k] == c.id;
    forall j: nat | j < |cq'| && cq'[j].more
      ensures Followed(entries', cq', j)
    {
      if j < |cq| {
        assert Followed(entries, cq, j);
        if cq[j].id in EntryIds(entries) {
          if !c.more && c.id == cq[j].id {
            assert cq'[|cq|] == c;
          } else if !c.more {
            StillEntered(entries, k, cq[j].id);
          }
        } else {
          var m :| j < m < |cq| && cq[m].id == cq[j].id && !cq[m].more;
          assert cq'[m] == cq[m];
        }
      }
    }
  }

  lemma HeadGoneFollows(entries: seq<Sqe>, cq: seq<Cqe>)
    requires MoreFollows(entries, cq) && cq != []
    ensures MoreFollows(entries, cq[1..])
  {
    var rest := cq[1..];
    forall j: nat | j < |rest| && rest[j].more
      ensures Followed(entries, rest, j)
    {
      assert Followed(entries, cq, j + 1);
      if cq[j + 1].id !in EntryIds(entries) {
        var m :| j + 1 < m < |cq| && cq[m].id == cq[j + 1].id && !cq[m].more;
        assert rest[m - 1] == cq[m];
      }
    }
  }

  lemma SubmitKeepsTraffic(s: State, o: nat, fl: Flushes)
    requires TrafficOk(s) && s.halt == No && o < |s.pool.objs|
    ensures TrafficOk(Submit(s, o, fl))
  {
    var s', it := Submit(s, o, fl), s.pool.objs[o];
    SubmitEffect(s, o, fl);
    if s'.halt == No {
      var e := Sqe(it.id, OpFor(it));
      EntryIdsAppend(s.prepared, e);
      EntryIdsAppend(Entries(s), e);
      EntryAddedFollows(Entries(s), e, s.cq);
    }
  }

  lemma PostKeepsTraffic(s: State, k: nat, res: int, more: bool, data: seq<Byte>)
    requires TrafficOk(s) && StateOk(s) && k < |s.kernel|
    requires MayPost(s.kernel[k].op, Exposed(s.ring), res, more, data)
    ensures TrafficOk(Post(s, k, res, more, data))
  {
    var c := PostHistory(s, k, res, more, data);
    assert Entries(s)[k] == s.kernel[k];
    PostedBalance(s.prepared, Entries(s), s.posted, k, c);
    PostedFollows(Entries(s), s.cq, k, c);
  }

  lemma PostHistory(s: State, k: nat, res: int, more: bool, data: seq<Byte>) returns (c: Cqe)
    requires StateOk(s) && k < |s.kernel| && MayPost(s.kernel[k].op, Exposed(s.ring), res, more, data)
    ensures var s' := Post(s, k, res, more, data);
      && c.id == s.kernel[k].id && c.more == more
      && s'.cq == s.cq + [c] && s'.posted == s.posted + [c] && s'.prepared == s.prepared
      && Entries(s') == if more then Entries(s) else RemoveAt(Entries(s), k)
  {
    c := Post(s, k, res, more, data).cq[|s.cq|];
    if !more {
      assert RemoveAt(s.kernel, k) + s.sq == RemoveAt(s.kernel + s.sq, k);
    }
  }

  lemma PoolEventKeepsTraffic(s: State, e: Event)
    requires TrafficOk(s) && Enabled(s, e) && TouchesPool(e)
    ensures TrafficOk(Step(s, e))
  {
    match e
    case StartRequest(_, _, _, fl) => SubmitKeepsTraffic(s.(pool := PoolAfter(s, e)), |s.pool.objs|, fl);
    case SubmitSend(o, _, _, fl) => SubmitKeepsTraffic(s.(pool := PoolAfter(s, e)), o, fl);
    case PollSettles(fl) =>
      if s.phase.action == Rearm {
        SubmitKeepsTraffic(s, s.phase.obj, fl);
      }
    case AcquireSend(_) =>
  }

  lemma StepKeepsVisible(s: State, e: Event)
    requires VisibleOk(s) && Enabled(s, e)
    ensures VisibleOk(Step(s, e))
  {
    Histories.StepKeepsOrder(s, e);
    if TouchesPool(e) {
      PoolEventKeepsTraffic(s, e);
    } else if e.KernelPosts? {
      PostKeepsTraffic(s, e.k, e.res, e.more, e.data);
    } else if e.PollAdvances? {
      HeadGoneFollows(Entries(s), s.cq);
    } else if e.PollBegins? && s.cq != [] {
      DispatchKeepsTraffic(s);
    } else {
      TrafficCarriesOver(s, Step(s, e));
    }
  }

  lemma TrafficCarriesOver(s: State, s': State)
    requires TrafficOk(s) && s'.kernel == s.kernel && s'.sq == s.sq && s'.cq == s.cq
    requires s'.prepared == s.prepared && s'.posted == s.posted
    ensures TrafficOk(s')
  {
  }

  lemma DispatchKeepsTraffic(s: State)
    requires TrafficOk(s) && StateOk(s) && s.cq != []
    ensures TrafficOk(Dispatch(s))
  {
    DispatchFrame(s);
    TrafficCarriesOver(s, Dispatch(s));
  }

  lemma {:induction false} RunKeepsVisible(cap: nat, mem: Memory, es: seq<Event>)
    requires MemoryOk(mem) && Legal(Init(cap, mem), es)
    ensures VisibleOk(Run(Init(cap, mem), es))
    decreases |es|
  {
    if es != [] {
      RunKeepsVisible(cap, mem, Front(es));
      StepKeepsVisible(Run(Init(cap, mem), Front(es)), Last(es));
    }
  }

  // ---------------------------------------------------------------------------------------------
  // The guard

  /** Behind the head: something else pends for its id exactly when some operation has not been seen to end. */
  lemma PendsIffNotEnded(s: State)
    requires VisibleOk(s) && s.halt == No && s.phase.Returned?
    ensures Pending(s)[s.cq[0].id] > 1 <==> Prepared(s)[s.cq[0].id] > Ended(s)[s.cq[0].id]
  {
    var id, rest := s.cq[0].id, s.cq[1..];
    var armed := multiset(EntryIds(Entries(s)));
    CompletionIdsTail(s.cq);
    assert Pending(s)[id] == armed[id] + 1 + multiset(CompletionIds(rest))[id];
    FinalIdsConcat(s.dispatched, rest);
    assert Prepared(s)[id] == armed[id] + Ended(s)[id] + multiset(FinalIds(rest))[id];
    if id in FinalIds(rest) {
      FinalIdsComeFrom(rest, id);
    }
    if armed[id] == 0 && id in CompletionIds(rest) {
      RestEnds(Entries(s), s.cq, id);
    }
  }

  /** With no entry left for an id, some completion behind the head ends its operation. */
  lemma RestEnds(entries: seq<Sqe>, cq: seq<Cqe>, id: nat)
    requires MoreFollows(entries, cq) && cq != [] && id !in EntryIds(entries) && id in CompletionIds(cq[1..])
    ensures id in FinalIds(cq[1..])
  {
    var rest := cq[1..];
    var j :| 0 <= j < |rest| && CompletionIds(rest)[j] == id;
    if rest[j].more {
      assert Followed(entries, cq, j + 1);
      var m :| j + 1 < m < |cq| && cq[m].id == id && !cq[m].more;
      assert rest[m - 1] == cq[m];
      FinalIdsContain(rest, m - 1);
    } else {
      FinalIdsContain(rest, j);
    }
  }

  /** In every state of every legal run, a free is stale exactly when it is too early. */
  lemma StaleIsTooEarly(s: State, e: Event)
    requires VisibleOk(s) && Enabled(s, e)
    ensures StaleFree(s, e) <==> FreesTooEarly(s, e)
  {
    if e.PollSettles? {
      PendsIffNotEnded(s);
    }
  }

  /** Freeing on a completion that announces more is always too early. */
  lemma MoreMeansTooEarly(s: State, e: Event)
    requires VisibleOk(s) && Enabled(s, e)
    requires e.PollSettles? && s.phase.action == FreeItem && s.cq[0].more
    ensures FreesTooEarly(s, e) && StaleFree(s, e)
  {
    assert Followed(Entries(s), s.cq, 0);
    FollowedPends(s);
    StaleIsTooEarly(s, e);
  }

  lemma FollowedPends(s: State)
    requires s.phase.Returned? && s.cq != [] && Followed(Entries(s), s.cq, 0)
    ensures Pending(s)[s.cq[0].id] > 1
  {
    var id, rest := s.cq[0].id, s.cq[1..];
    CompletionIdsTail(s.cq);
    if id in EntryIds(Entries(s)) {
      assert multiset(EntryIds(Entries(s)))[id] > 0;
    } else {
      var k :| 0 < k < |s.cq| && s.cq[k].id == id && !s.cq[k].more;
      assert CompletionIds(rest)[k - 1] == id;
      assert multiset(CompletionIds(rest))[id] > 0;
    }
  }

  /** No prefix of the run ends in a free that is too early. */
  predicate Careful(s: State, es: seq<Event>)
    requires Legal(s, es)
    decreases |es|
  {
    es == [] || (Careful(s, Front(es)) && !FreesTooEarly(Run(s, Front(es)), Last(es)))
  }

  lemma {:induction false} CarefulIffDisciplined(cap: nat, mem: Memory, es: seq<Event>)
    requires MemoryOk(mem) && Legal(Init(cap, mem), es)
    ensures Careful(Init(cap, mem), es) <==> Disciplined(Init(cap, mem), es)
    decreases |es|
  {
    if es != [] {
      CarefulIffDisciplined(cap, mem, Front(es));
      RunKeepsVisible(cap, mem, Front(es));
      StaleIsTooEarly(Run(Init(cap, mem), Front(es)), Last(es));
    }
  }

  /**
   * Over every run from start-up, completions are routed in every state if and only if the program
   * never frees an id for which it has prepared more operations than it has seen end.
   */
  lemma RoutingOverRuns(cap: nat, mem: Memory, es: seq<Event>)
    requires MemoryOk(mem) && Legal(Init(cap, mem), es)
    ensures AlwaysRouted(Init(cap, mem), es) <==> Careful(Init(cap, mem), es)
  {
    CarefulIffDisciplined(cap, mem, es);
    RoutedIffDisciplined(cap, mem, es);
  }
}
