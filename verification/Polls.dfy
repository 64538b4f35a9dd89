/**
 * Polls from outside: a poll as a list of events with whatever everybody else does in between, and
 * what a whole poll comes to.
 */
module Polls {
  import opened Basics
  import opened BufferRing
  import opened WorkPools
  import opened Engine
  import Buffers
  import Halts
  import Receives
  import Routing

  // ---------------------------------------------------------------------------------------------
  // A poll as a list of events

  /** The events happen one after the other until they are over or the engine halts. */
  predicate Runs(s: State, es: seq<Event>)
    decreases |es|
  {
    es == [] || s.halt != No || (Enabled(s, es[0]) && Runs(Step(s, es[0]), es[1..]))
  }

  function Exec(s: State, es: seq<Event>): State
    requires Runs(s, es)
    decreases |es|
  {
    if es == [] || s.halt != No then s else Exec(Step(s, es[0]), es[1..])
  }

  lemma {:induction false} RunAhead(s: State, e: Event, es: seq<Event>)
    requires Enabled(s, e) && Legal(Step(s, e), es)
    ensures Legal(s, [e] + es) && Run(s, [e] + es) == Run(Step(s, e), es)
    decreases |es|
  {
    if es == [] {
      assert [e] + es == [e] && Front([e]) == [];
    } else {
      RunAhead(s, e, Front(es));
      assert Front([e] + es) == [e] + Front(es) && Last([e] + es) == Last(es);
    }
  }

  /** What the class executes is a legal run of the machine: all of the events, or all up to a halt. */
  lemma {:induction false} ExecIsRun(s: State, es: seq<Event>) returns (run: seq<Event>)
    requires Runs(s, es)
    ensures run <= es && Legal(s, run) && Exec(s, es) == Run(s, run)
    ensures run == es || Exec(s, es).halt != No
    decreases |es|
  {
    run := [];
    if es != [] && s.halt == No {
      var ahead := ExecIsRun(Step(s, es[0]), es[1..]);
      RunAhead(s, es[0], ahead);
      run := [es[0]] + ahead;
      assert es == [es[0]] + es[1..];
    }
  }

  lemma FrontOfConcat(a: seq<Event>, b: seq<Event>)
    requires b != []
    ensures Front(a + b) == a + Front(b) && Last(a + b) == Last(b)
  {
  }

  lemma {:induction false} RunConcat(s: State, a: seq<Event>, b: seq<Event>)
    requires Legal(s, a) && Legal(Run(s, a), b)
    ensures Legal(s, a + b) && Run(s, a + b) == Run(Run(s, a), b)
    decreases |b|
  {
    if b == [] {
      assert a + b == a;
    } else {
      RunConcat(s, a, Front(b));
      FrontOfConcat(a, b);
    }
  }

  /** Whatever the class executes from a state some run has reached ends in a state a longer run reaches. */
  lemma ExecExtendsRun(s0: State, es: seq<Event>, script: seq<Event>) returns (more: seq<Event>)
    requires Legal(s0, es) && Runs(Run(s0, es), script)
    ensures more <= script && Legal(s0, es + more)
    ensures Exec(Run(s0, es), script) == Run(s0, es + more)
  {
    more := ExecIsRun(Run(s0, es), script);
    RunConcat(s0, es, more);
  }

  lemma ExecOne(s: State, e: Event)
    requires s.halt == No && Runs(s, [e])
    ensures Enabled(s, e) && Exec(s, [e]) == Step(s, e)
  {
    assert [e][1..] == [];
  }

  lemma {:induction false} ExecAppend(s: State, a: seq<Event>, b: seq<Event>)
    requires Runs(s, a + b)
    ensures Runs(s, a) && Runs(Exec(s, a), b) && Exec(s, a + b) == Exec(Exec(s, a), b)
    decreases |a|
  {
    if a == [] {
      assert a + b == b;
    } else if s.halt == No {
      assert (a + b)[0] == a[0] && (a + b)[1..] == a[1..] + b;
      ExecAppend(Step(s, a[0]), a[1..], b);
    }
  }

  /**
   * What everybody else does in the course of one poll: whether the peek at the queue fails, what
   * the user callback does and answers, what the kernel posts between the callback and the free or
   * re-submission, how the flushes of a re-submission fare, and what the kernel posts after it.
   */
  datatype Others = Others(
    peekFails: bool, script: seq<Event>, answer: Answer, posts: seq<Event>, fl: Flushes, lastPosts: seq<Event>)

  predicate OthersOk(w: Others) {
    && (forall e :: e in w.script ==> Scriptable(e))
    && (forall e :: e in w.posts ==> e.KernelPosts?)
    && (forall e :: e in w.lastPosts ==> e.KernelPosts?)
  }

  /** The last part of a poll: the advance. */
  function Advancing(w: Others): seq<Event> {
    w.lastPosts + [PollAdvances]
  }

  /** The last part of a poll that found an item: free or re-submit, then advance. */
  function Closing(w: Others): seq<Event> {
    w.posts + ([PollSettles(w.fl)] + Advancing(w))
  }

  /** What happens once the user callback has returned. */
  function Ending(w: Others): seq<Event> {
    [CallbackReturns(w.answer)] + Closing(w)
  }

  /** The events of one `poll_completion_queues`. */
  function PollEvents(s: State, w: Others): seq<Event>
    requires StateOk(s)
  {
    if w.peekFails then [PollFails]
    else if s.cq == [] then [PollBegins]
    else
      var s1 := Dispatch(s);
      [PollBegins] +
      if s1.halt != No then []
      else match s1.phase
        case InCallback(_) => w.script + Ending(w)
        case Returned(_, _) => Closing(w)
        case Settled => Advancing(w)
        case Idle => []
  }

  /** What may happen inside a callback, and between polls. */
  predicate Scriptable(e: Event) {
    e.StartRequest? || e.AcquireSend? || e.SubmitSend? || e.KernelPosts?
  }

  /** A callback's doings leave the poll where it stands. */
  lemma {:induction false} ScriptKeepsPhase(s: State, es: seq<Event>)
    requires Runs(s, es) && forall e :: e in es ==> Scriptable(e)
    ensures Exec(s, es).phase == s.phase
    decreases |es|
  {
    if es != [] && s.halt == No {
      assert es[0] in es;
      if Routing.TouchesPool(es[0]) {
        Routing.PoolEventFrame(s, es[0]);
      }
      ScriptKeepsPhase(Step(s, es[0]), es[1..]);
    }
  }

  // ---------------------------------------------------------------------------------------------
  // What scripts come to

  /** How many entries a script prepares, objects it creates and completions it sees posted. */
  function Submissions(es: seq<Event>): nat {
    if es == [] then 0 else (if es[0].StartRequest? || es[0].SubmitSend? then 1 else 0) + Submissions(es[1..])
  }

  function Creations(es: seq<Event>): nat {
    if es == [] then 0 else (if es[0].StartRequest? || es[0].AcquireSend? then 1 else 0) + Creations(es[1..])
  }

  function Arrivals(es: seq<Event>): nat {
    if es == [] then 0 else (if es[0].KernelPosts? then 1 else 0) + Arrivals(es[1..])
  }

  /** Every submitted item is what it was, and every slot that held an item holds it still. */
  ghost predicate ItemsKept(p: Pool, p': Pool) {
    && |p.objs| <= |p'.objs|
    && (forall o: nat :: o < |p.objs| && p.objs[o].kind != Unknown ==> p'.objs[o] == p.objs[o])
    && (forall id: nat :: Lookup(p, id).Some? ==> Lookup(p', id) == Lookup(p, id))
  }

  /** Completions posted since are behind those there were. */
  predicate Arrived(s: State, s': State, cq: seq<Cqe>, count: nat) {
    && |s'.posted| == |s.posted| + count && s'.posted[..|s.posted|] == s.posted
    && s'.cq == cq + s'.posted[|s.posted|..]
  }

  /** What a script leaves behind that did not halt the engine. */
  ghost predicate Scripted(s: State, es: seq<Event>, s': State) {
    && s'.halt == No && s'.phase == s.phase && s'.log == s.log && s'.dispatched == s.dispatched
    && StateOk(s') && PoolOk(s'.pool) && ItemsKept(s.pool, s'.pool)
    && |s'.pool.objs| == |s.pool.objs| + Creations(es)
    && |s'.prepared| == |s.prepared| + Submissions(es)
    && Arrived(s, s', s.cq, Arrivals(es))
  }

  /** What users do to the pool keeps what was there. */
  lemma UserKeepsItems(s: State, e: Event)
    requires PoolOk(s.pool) && Enabled(s, e) && ByUser(e)
    ensures var p' := Routing.PoolAfter(s, e);
      PoolOk(p') && ItemsKept(s.pool, p') && |p'.objs| == |s.pool.objs| + Creations([e])
  {
    assert [e][1..] == [];
    match e
    case StartRequest(kind, stream, fn, _) =>
      AllocOk(s.pool, stream);
      AssignOk(Alloc(s.pool, stream), |s.pool.objs|, kind, AltFor(kind), fn);
      assert Alloc(s.pool, stream).objs[..|s.pool.objs|] == s.pool.objs;
    case AcquireSend(stream) =>
      AllocOk(s.pool, stream);
      assert Alloc(s.pool, stream).objs[..|s.pool.objs|] == s.pool.objs;
    case SubmitSend(o, packet, fn, _) =>
      AssignOk(s.pool, o, if packet then SendWorkPacket else SendStreamData, SendFn, fn);
  }

  lemma UserPrepares(s: State, e: Event)
    requires Enabled(s, e) && Step(s, e).halt == No && ByUser(e)
    ensures |Step(s, e).prepared| == |s.prepared| + Submissions([e])
  {
    assert [e][1..] == [];
    match e
    case StartRequest(_, _, _, fl) =>
      Routing.SubmitEffect(s.(pool := Routing.PoolAfter(s, e)), |s.pool.objs|, fl);
    case SubmitSend(o, _, _, fl) => Routing.SubmitEffect(s.(pool := Routing.PoolAfter(s, e)), o, fl);
    case AcquireSend(_) =>
  }

  lemma UserScripted(s: State, e: Event)
    requires PoolOk(s.pool) && Enabled(s, e) && Step(s, e).halt == No && ByUser(e)
    ensures Scripted(s, [e], Step(s, e))
  {
    Routing.PoolEventFrame(s, e);
    Routing.PoolEventEffect(s, e);
    UserKeepsItems(s, e);
    UserPrepares(s, e);
    assert [e][1..] == [] && s.posted[|s.posted|..] == [];
  }

  /** A completion posted. */
  lemma PostArrives(s: State, e: Event)
    requires Enabled(s, e) && e.KernelPosts?
    ensures var s' := Step(s, e);
      && Arrived(s, s', s.cq, 1) && StateOk(s')
      && s'.(kernel := s.kernel, cq := s.cq, posted := s.posted, ring := s.ring, mem := s.mem) == s
  {
    var s' := Step(s, e);
    assert s'.posted == s.posted + [s'.cq[|s.cq|]];
  }

  /** The sum of what came is what came. */
  lemma FromSum(s: State, s': State, cq: seq<Cqe>, since: seq<Cqe>)
    requires s'.posted == s.posted + since && s'.cq == cq + since
    ensures Arrived(s, s', cq, |since|)
  {
  }

  lemma ToSum(s: State, s': State, cq: seq<Cqe>, count: nat) returns (since: seq<Cqe>)
    requires Arrived(s, s', cq, count)
    ensures s'.posted == s.posted + since && s'.cq == cq + since && |since| == count
  {
    since := s'.posted[|s.posted|..];
  }

  lemma Associate<T>(x: seq<T>, a: seq<T>, b: seq<T>)
    ensures (x + a) + b == x + (a + b)
  {
  }

  lemma ArrivedTwice(s: State, s1: State, s2: State, cq: seq<Cqe>, m: nat, n: nat)
    requires Arrived(s, s1, cq, m) && Arrived(s1, s2, s1.cq, n)
    ensures Arrived(s, s2, cq, m + n)
  {
    var a := ToSum(s, s1, cq, m);
    var b := ToSum(s1, s2, s1.cq, n);
    Associate(s.posted, a, b);
    Associate(cq, a, b);
    FromSum(s, s2, cq, a + b);
  }

  lemma {:induction false} ScriptEffect(s: State, es: seq<Event>)
    requires StateOk(s) && PoolOk(s.pool) && Runs(s, es) && (forall e :: e in es ==> Scriptable(e))
    requires s.halt == No && Exec(s, es).halt == No
    ensures Scripted(s, es, Exec(s, es))
    decreases |es|
  {
    if es == [] {
      assert s.posted[|s.posted|..] == [];
    } else {
      var e, s1 := es[0], Step(s, es[0]);
      assert e in es;
      OneScripted(s, e);
      ScriptEffect(s1, es[1..]);
      ScriptedTwice(s, e, s1, es, Exec(s, es));
    }
  }

  lemma OneScripted(s: State, e: Event)
    requires PoolOk(s.pool) && Enabled(s, e) && Scriptable(e) && Step(s, e).halt == No
    ensures Scripted(s, [e], Step(s, e))
  {
    if e.KernelPosts? {
      PostArrives(s, e);
    } else {
      UserScripted(s, e);
    }
  }

  lemma ScriptedTwice(s: State, e: Event, s1: State, es: seq<Event>, s2: State)
    requires es != [] && es[0] == e && Scripted(s, [e], s1) && Scripted(s1, es[1..], s2)
    ensures Scripted(s, es, s2)
  {
    assert [e][1..] == [];
    assert Creations(es) == Creations([e]) + Creations(es[1..]);
    assert Submissions(es) == Submissions([e]) + Submissions(es[1..]);
    assert Arrivals(es) == Arrivals([e]) + Arrivals(es[1..]);
    ArrivedTwice(s, s1, s2, s.cq, Arrivals([e]), Arrivals(es[1..]));
  }

  /** What the kernel does on its own leaves everything else as it is. */
  lemma {:induction false} PostsEffect(s: State, es: seq<Event>)
    requires StateOk(s) && s.halt == No && Runs(s, es) && forall e :: e in es ==> e.KernelPosts?
    ensures var s' := Exec(s, es);
      && Arrived(s, s', s.cq, |es|) && StateOk(s')
      && s'.(kernel := s.kernel, cq := s.cq, posted := s.posted, ring := s.ring, mem := s.mem) == s
    decreases |es|
  {
    if es == [] {
      assert s.posted[|s.posted|..] == [];
    } else {
      assert es[0] in es;
      PostArrives(s, es[0]);
      PostsEffect(Step(s, es[0]), es[1..]);
      ArrivedTwice(s, Step(s, es[0]), Exec(s, es), s.cq, 1, |es| - 1);
    }
  }

  // ---------------------------------------------------------------------------------------------
  // What a poll comes to

  /** The item goes its way again: an accept always, a receive unless its callback has run and said NONE. */
  predicate Again(kind: Kind, entered: bool, answer: Answer) {
    kind == Accept || (kind == Recv && (!entered || answer == AnswerResubmit))
  }

  /** The completion is one the user is told of. */
  predicate CallDue(s: State, it: Item, c: Cqe)
    requires StateOk(s)
  {
    match it.kind
    case Close => true
    case Recv => c.res >= 0 && (it.stream || !Receives.SentBack(ViewOrEmpty(s.mem, BidOf(c), c.res)))
    case _ => c.res >= 0
  }

  /** What the callback is shown: of a datagram what follows its header, of a stream everything. */
  function Shown(s: State, it: Item, c: Cqe): seq<Byte>
    requires StateOk(s) && CallDue(s, it, c)
  {
    if it.kind != Recv then []
    else if it.stream then ViewOrEmpty(s.mem, BidOf(c), c.res)
    else ViewOrEmpty(s.mem, BidOf(c), c.res)[144..]
  }

  /** Object `o` keeps its slot and has one more entry, or loses its slot and has none. */
  predicate Concluded(p: Pool, prepared: seq<Sqe>, o: nat, again: bool, p': Pool, prepared': seq<Sqe>)
    requires o < |p.objs|
  {
    var id := p.objs[o].id;
    && o < |p'.objs|
    && if again then
         && p'.objs[o] == p.objs[o] && p.objs[o].inUse && Lookup(p', id) == Some(o)
         && prepared' != [] && prepared'[|prepared'| - 1].id == id && |prepared'| == |prepared| + 1
       else
         && p'.objs[o] == p.objs[o].(inUse := false) && Lookup(p', id) == None
         && |prepared'| == |prepared|
  }

  /** An item was found, and dealt with. */
  predicate Served(s: State, w: Others, s': State, o: nat)
    requires StateOk(s) && s.cq != [] && o < |s.pool.objs|
  {
    var it := s.pool.objs[o];
    var entered := CallDue(s, it, s.cq[0]);
    var script := if entered then w.script else [];
    && |s'.log| == |s.log| + (if entered then 1 else 0) && s'.log[..|s.log|] == s.log
    && (entered ==> s'.log[|s.log|] == Call(o, it.alt, it.fn, s.cq[0].res, Shown(s, it, s.cq[0])))
    && Arrived(s, s', s.cq[1..], Arrivals(script) + |w.posts| + |w.lastPosts|)
    && |s'.pool.objs| == |s.pool.objs| + Creations(script)
    && o < |s'.pool.objs|
    && if Again(it.kind, entered, w.answer) then
         && s'.pool.objs[o] == it && it.inUse && Lookup(s'.pool, s.cq[0].id) == Some(o)
         && |s'.prepared| == |s.prepared| + Submissions(script) + 1
         && s'.prepared[|s'.prepared| - 1].id == s.cq[0].id
       else
         && s'.pool.objs[o] == it.(inUse := false) && Lookup(s'.pool, s.cq[0].id) == None
         && |s'.prepared| == |s.prepared| + Submissions(script)
  }

  /** Nothing was found, or nothing was done about it. */
  predicate PassedOver(s: State, w: Others, s': State)
    requires s.cq != []
  {
    && s'.pool == s.pool && s'.log == s.log && s'.prepared == s.prepared
    && Arrived(s, s', s.cq[1..], |w.lastPosts|)
  }

  /**
   * A poll that found a completion and did not halt the engine: this completion has been dispatched
   * and removed, once. With no item for it, or -ENOBUFS, nothing else has happened. Otherwise the user
   * was called if a call was due, did what the script says, and by kind and answer the item has been
   * submitted once more, or freed.
   */
  predicate PollDone(s: State, w: Others, s': State)
    requires StateOk(s) && s.cq != []
  {
    && s'.phase == Idle && s'.dispatched == s.dispatched + [s.cq[0]]
    && match Lookup(s.pool, s.cq[0].id)
       case None => PassedOver(s, w, s')
       case Some(o) =>
         if s.cq[0].res == -105 then PassedOver(s, w, s')
         else o < |s.pool.objs| && Served(s, w, s', o)
  }

  /** The kernel's last completions and the advance. */
  lemma AdvancingEffect(s: State, w: Others)
    requires StateOk(s) && s.halt == No && s.phase == Settled && s.cq != [] && OthersOk(w) && Runs(s, Advancing(w))
    ensures var s' := Exec(s, Advancing(w));
      && s'.halt == No && s'.phase == Idle && s'.pool == s.pool && s'.log == s.log && s'.prepared == s.prepared
      && s'.dispatched == s.dispatched && Arrived(s, s', s.cq[1..], |w.lastPosts|)
  {
    ExecAppend(s, w.lastPosts, [PollAdvances]);
    PostsEffect(s, w.lastPosts);
    var s1 := Exec(s, w.lastPosts);
    ExecOne(s1, PollAdvances);
    assert s1.cq[1..] == s.cq[1..] + s1.posted[|s.posted|..];
  }

  /** The free or re-submission, from a state where object `o` is on its way back. */
  lemma SettleEffect(s: State, o: nat, action: PostAction, fl: Flushes)
    requires StateOk(s) && PoolOk(s.pool) && s.halt == No && s.phase == Returned(o, action) && s.cq != []
    requires o < |s.pool.objs| && Lookup(s.pool, s.cq[0].id) == Some(o) && Settle(s, o, action, fl).halt == No
    ensures s.pool.objs[o].id == s.cq[0].id
    ensures var s' := Settle(s, o, action, fl);
      && StateOk(s') && s'.phase == Settled && s'.log == s.log && s'.dispatched == s.dispatched
      && s'.cq == s.cq && s'.posted == s.posted && |s'.pool.objs| == |s.pool.objs|
      && Concluded(s.pool, s.prepared, o, action == Rearm, s'.pool, s'.prepared)
  {
    assert SlotOk(s.pool, s.cq[0].id);
    if action == Rearm {
      Routing.SubmitEffect(s, o, fl);
    } else {
      FreeOk(s.pool, s.cq[0].id);
    }
  }

  /** From the end of the callback, or from where none was due, to the end of the poll. */
  ghost predicate Closed(s: State, w: Others, s': State, o: nat, again: bool)
    requires s.cq != [] && o < |s.pool.objs|
  {
    && s'.phase == Idle && s'.log == s.log && s'.dispatched == s.dispatched
    && Arrived(s, s', s.cq[1..], |w.posts| + |w.lastPosts|)
    && |s'.pool.objs| == |s.pool.objs|
    && Concluded(s.pool, s.prepared, o, again, s'.pool, s'.prepared)
  }

  lemma ClosingEffect(s: State, w: Others, o: nat, action: PostAction)
    requires StateOk(s) && PoolOk(s.pool) && s.halt == No && s.phase == Returned(o, action) && s.cq != []
    requires o < |s.pool.objs| && Lookup(s.pool, s.cq[0].id) == Some(o)
    requires OthersOk(w) && Runs(s, Closing(w)) && Exec(s, Closing(w)).halt == No
    ensures s.pool.objs[o].id == s.cq[0].id
    ensures Closed(s, w, Exec(s, Closing(w)), o, action == Rearm)
  {
    var rest := [PollSettles(w.fl)] + Advancing(w);
    ExecAppend(s, w.posts, rest);
    PostsEffect(s, w.posts);
    var s1 := Exec(s, w.posts);
    assert rest[0] == PollSettles(w.fl) && rest[1..] == Advancing(w);
    var s2 := Step(s1, PollSettles(w.fl));
    SettleEffect(s1, o, action, w.fl);
    AdvancingEffect(s2, w);
    ArrivedThen(s, s1, Exec(s2, Advancing(w)), |w.posts|, |w.lastPosts|);
  }

  /** Completions posted before and after the head is dropped. */
  lemma ArrivedThen(s: State, s1: State, s2: State, m: nat, n: nat)
    requires s.cq != [] && Arrived(s, s1, s.cq, m) && Arrived(s1, s2, s1.cq[1..], n)
    ensures Arrived(s, s2, s.cq[1..], m + n)
  {
    var a := ToSum(s, s1, s.cq, m);
    var b := ToSum(s1, s2, s1.cq[1..], n);
    TailOfSum(s.cq, a);
    Associate(s.posted, a, b);
    Associate(s.cq[1..], a, b);
    FromSum(s, s2, s.cq[1..], a + b);
  }

  lemma TailOfSum<T>(x: seq<T>, a: seq<T>)
    requires x != []
    ensures (x + a)[1..] == x[1..] + a
  {
  }

  /** From the return of the callback. */
  lemma EndingEffect(s: State, w: Others, o: nat)
    requires StateOk(s) && PoolOk(s.pool) && s.halt == No && s.phase == InCallback(o) && s.cq != []
    requires o < |s.pool.objs| && Lookup(s.pool, s.cq[0].id) == Some(o)
    requires OthersOk(w) && Runs(s, Ending(w)) && Exec(s, Ending(w)).halt == No
    ensures s.pool.objs[o].id == s.cq[0].id
    ensures Closed(s, w, Exec(s, Ending(w)), o, Again(s.pool.objs[o].kind, true, w.answer))
  {
    assert Ending(w)[0] == CallbackReturns(w.answer) && Ending(w)[1..] == Closing(w);
    var s1 := Step(s, CallbackReturns(w.answer));
    ReturnEffect(s, o, w.answer);
    ClosingEffect(s1, w, o, s1.phase.action);
  }

  lemma ReturnEffect(s: State, o: nat, answer: Answer)
    requires StateOk(s) && o < |s.pool.objs| && s.cq != []
    ensures var s' := Return(s, o, answer);
      && s'.phase == Returned(o, if Again(s.pool.objs[o].kind, true, answer) then Rearm else FreeItem)
      && s'.(phase := s.phase, ring := s.ring) == s && StateOk(s')
  {
  }

  /** What the dispatch of a found item leads to. */
  lemma FoundEffect(s: State, o: nat)
    requires StateOk(s) && s.halt == No && s.phase == Idle && s.cq != [] && Dispatch(s).halt == No
    requires Lookup(s.pool, s.cq[0].id) == Some(o) && s.cq[0].res != -105
    ensures o < |s.pool.objs|
    ensures var s', it, c := Dispatch(s), s.pool.objs[o], s.cq[0];
      && s'.(phase := s.phase, ring := s.ring, log := s.log, dispatched := s.dispatched) == s
      && StateOk(s') && s'.dispatched == s.dispatched + [c]
      && (CallDue(s, it, c) ==>
            && s'.phase == InCallback(o) && |s'.log| == |s.log| + 1 && s'.log[..|s.log|] == s.log
            && s'.log[|s.log|] == Call(o, it.alt, it.fn, c.res, Shown(s, it, c)))
      && (!CallDue(s, it, c) ==>
            s'.log == s.log && s'.phase == Returned(o, if Again(it.kind, false, AnswerNone) then Rearm else FreeItem))
  {
    Routing.DispatchFrame(s);
    Receives.JudgedByBytes(ViewOrEmpty(s.mem, BidOf(s.cq[0]), s.cq[0].res));
  }

  /** What a script and the end of the poll come to together. */
  predicate Ended(s: State, w: Others, s': State, o: nat)
    requires s.cq != [] && o < |s.pool.objs|
  {
    var it, id := s.pool.objs[o], s.cq[0].id;
    && s'.phase == Idle && s'.log == s.log && s'.dispatched == s.dispatched
    && Arrived(s, s', s.cq[1..], Arrivals(w.script) + |w.posts| + |w.lastPosts|)
    && |s'.pool.objs| == |s.pool.objs| + Creations(w.script)
    && o < |s'.pool.objs|
    && if Again(it.kind, true, w.answer) then
         && s'.pool.objs[o] == it && it.inUse && Lookup(s'.pool, id) == Some(o)
         && |s'.prepared| == |s.prepared| + Submissions(w.script) + 1
         && s'.prepared[|s'.prepared| - 1].id == id
       else
         && s'.pool.objs[o] == it.(inUse := false) && Lookup(s'.pool, id) == None
         && |s'.prepared| == |s.prepared| + Submissions(w.script)
  }

  lemma ScriptThenEnd(s: State, w: Others, s1: State, s2: State, o: nat)
    requires s.cq != [] && o < |s.pool.objs| && s.pool.objs[o].kind != Unknown
    requires Lookup(s.pool, s.cq[0].id) == Some(o) && s.pool.objs[o].id == s.cq[0].id
    requires Scripted(s, w.script, s1) && s1.cq != [] && o < |s1.pool.objs|
    requires Closed(s1, w, s2, o, Again(s1.pool.objs[o].kind, true, w.answer))
    ensures Ended(s, w, s2, o)
  {
    ArrivedThen(s, s1, s2, Arrivals(w.script), |w.posts| + |w.lastPosts|);
  }

  /** A poll whose callback runs. */
  lemma CalledEffect(s: State, w: Others, o: nat)
    requires StateOk(s) && PoolOk(s.pool) && s.halt == No && s.phase == InCallback(o) && s.cq != []
    requires o < |s.pool.objs| && s.pool.objs[o].kind != Unknown && Lookup(s.pool, s.cq[0].id) == Some(o)
    requires OthersOk(w) && Runs(s, w.script + Ending(w)) && Exec(s, w.script + Ending(w)).halt == No
    ensures Ended(s, w, Exec(s, w.script + Ending(w)), o)
  {
    ExecAppend(s, w.script, Ending(w));
    var s1 := Exec(s, w.script);
    assert s1.halt == No;
    ScriptEffect(s, w.script);
    assert SlotOk(s.pool, s.cq[0].id);
    EndingEffect(s1, w, o);
    ScriptThenEnd(s, w, s1, Exec(s1, Ending(w)), o);
  }

  lemma CalledDone(s: State, w: Others, s1: State, s': State, o: nat)
    requires StateOk(s) && s.cq != [] && o < |s.pool.objs| && CallDue(s, s.pool.objs[o], s.cq[0])
    requires Lookup(s.pool, s.cq[0].id) == Some(o) && s.cq[0].res != -105
    requires s1.(phase := s.phase, ring := s.ring, log := s.log, dispatched := s.dispatched) == s
    requires s1.dispatched == s.dispatched + [s.cq[0]]
    requires |s1.log| == |s.log| + 1 && s1.log[..|s.log|] == s.log
    requires var it := s.pool.objs[o];
      s1.log[|s.log|] == Call(o, it.alt, it.fn, s.cq[0].res, Shown(s, it, s.cq[0]))
    requires Ended(s1, w, s', o)
    ensures PollDone(s, w, s')
  {
  }

  lemma UncalledDone(s: State, w: Others, s1: State, s': State, o: nat)
    requires StateOk(s) && s.cq != [] && o < |s.pool.objs| && !CallDue(s, s.pool.objs[o], s.cq[0])
    requires Lookup(s.pool, s.cq[0].id) == Some(o) && s.cq[0].res != -105 && s.pool.objs[o].id == s.cq[0].id
    requires s1.(phase := s.phase, ring := s.ring, dispatched := s.dispatched) == s
    requires s1.dispatched == s.dispatched + [s.cq[0]]
    requires Closed(s1, w, s', o, Again(s.pool.objs[o].kind, false, w.answer))
    ensures PollDone(s, w, s')
  {
  }

  lemma FoundDone(s: State, w: Others, o: nat)
    requires StateOk(s) && PoolOk(s.pool) && s.halt == No && s.phase == Idle && s.cq != []
    requires OthersOk(w) && !w.peekFails && Runs(s, PollEvents(s, w)) && Exec(s, PollEvents(s, w)).halt == No
    requires Lookup(s.pool, s.cq[0].id) == Some(o) && s.cq[0].res != -105
    ensures PollDone(s, w, Exec(s, PollEvents(s, w)))
  {
    var s1, es := Dispatch(s), PollEvents(s, w);
    assert es[0] == PollBegins && Step(s, PollBegins) == s1 && s1.halt == No;
    FoundEffect(s, o);
    if s1.phase.InCallback? {
      assert es[1..] == w.script + Ending(w);
      CalledEffect(s1, w, o);
      CalledDone(s, w, s1, Exec(s, es), o);
    } else {
      assert es[1..] == Closing(w);
      ClosingEffect(s1, w, o, s1.phase.action);
      UncalledDone(s, w, s1, Exec(s, es), o);
    }
  }

  lemma PassesOver(s: State)
    requires StateOk(s) && s.halt == No && s.phase == Idle && s.cq != [] && Dispatch(s).halt == No
    requires Lookup(s.pool, s.cq[0].id) == None || s.cq[0].res == -105
    ensures var s' := Dispatch(s);
      && s'.(stranded := s.stranded) == s.(phase := Settled, dispatched := s.dispatched + [s.cq[0]])
      && StateOk(s')
  {
    Routing.DispatchFrame(s);
  }

  lemma PassedDone(s: State, w: Others)
    requires StateOk(s) && PoolOk(s.pool) && s.halt == No && s.phase == Idle && s.cq != []
    requires OthersOk(w) && !w.peekFails && Runs(s, PollEvents(s, w)) && Exec(s, PollEvents(s, w)).halt == No
    requires Lookup(s.pool, s.cq[0].id) == None || s.cq[0].res == -105
    ensures PollDone(s, w, Exec(s, PollEvents(s, w)))
  {
    var s1, es := Dispatch(s), PollEvents(s, w);
    assert es[0] == PollBegins && Step(s, PollBegins) == s1 && s1.halt == No;
    PassesOver(s);
    assert es[1..] == Advancing(w);
    AdvancingEffect(s1, w);
  }

  /** Every poll that finds a completion and does not halt the engine is done as `PollDone` says. */
  lemma PollComesTo(s: State, w: Others)
    requires StateOk(s) && PoolOk(s.pool) && s.halt == No && s.phase == Idle && s.cq != []
    requires OthersOk(w) && !w.peekFails && Runs(s, PollEvents(s, w)) && Exec(s, PollEvents(s, w)).halt == No
    ensures PollDone(s, w, Exec(s, PollEvents(s, w)))
  {
    match Lookup(s.pool, s.cq[0].id)
    case None => PassedDone(s, w);
    case Some(o) =>
      if s.cq[0].res == -105 {
        PassedDone(s, w);
      } else {
        FoundDone(s, w, o);
      }
  }

  /** A failed peek halts the engine, and an empty queue leaves it as it is. */
  lemma PollWithoutCompletion(s: State, w: Others)
    requires StateOk(s) && s.halt == No && s.phase == Idle && (w.peekFails || s.cq == [])
    ensures Runs(s, PollEvents(s, w))
    ensures Exec(s, PollEvents(s, w)) == if w.peekFails then s.(halt := Aborted) else s
  {
    assert Runs(Step(s, PollEvents(s, w)[0]), PollEvents(s, w)[1..]);
  }

  /** A poll that nobody interferes with can always be made. */
  lemma QuietPollRuns(s: State, answer: Answer, fl: Flushes)
    requires Halts.Steady(s) && Buffers.Carried(s) && s.halt == No && s.phase == Idle
    ensures Runs(s, PollEvents(s, Others(false, [], answer, [], fl, [])))
  {
    var w := Others(false, [], answer, [], fl, []);
    if s.cq == [] {
      PollWithoutCompletion(s, w);
    } else {
      var s1, es := Dispatch(s), PollEvents(s, w);
      if s1.halt == No {
        Halts.DispatchSteady(s);
        Buffers.StepKeepsCarried(s, PollBegins);
        match s1.phase
        case InCallback(_) =>
          assert es[1..] == Ending(w);
          QuietEnding(s1, w);
        case Returned(_, _) =>
          assert es[1..] == Closing(w);
          QuietClosing(s1, w);
        case Settled =>
          assert es[1..] == Advancing(w);
          QuietAdvancing(s1, w);
        case Idle =>
      }
    }
  }

  lemma QuietAdvancing(s: State, w: Others)
    requires StateOk(s) && s.halt == No && s.phase == Settled && s.cq != [] && w.lastPosts == []
    ensures Runs(s, Advancing(w))
  {
    assert Advancing(w) == [PollAdvances] && [PollAdvances][1..] == [];
    assert Runs(Step(s, PollAdvances), []);
  }

  lemma QuietClosing(s: State, w: Others)
    requires Halts.Steady(s) && Buffers.Carried(s) && s.halt == No && s.phase.Returned?
    requires w.posts == [] && w.lastPosts == []
    ensures Runs(s, Closing(w))
  {
    var s1 := Step(s, PollSettles(w.fl));
    Buffers.StepKeepsCarried(s, PollSettles(w.fl));
    Routing.PoolEventFrame(s, PollSettles(w.fl));
    assert Closing(w) == [PollSettles(w.fl)] + Advancing(w) && Closing(w)[1..] == Advancing(w);
    if s1.halt == No {
      QuietAdvancing(s1, w);
    }
  }

  lemma QuietEnding(s: State, w: Others)
    requires Halts.Steady(s) && Buffers.Carried(s) && s.halt == No && s.phase.InCallback?
    requires w.posts == [] && w.lastPosts == []
    ensures Runs(s, Ending(w))
  {
    var e := CallbackReturns(w.answer);
    Buffers.StepKeepsCarried(s, e);
    Halts.StepKeepsSteady(s, e);
    ReturnEffect(s, s.phase.obj, w.answer);
    assert Ending(w)[1..] == Closing(w);
    QuietClosing(Step(s, e), w);
  }

  // ---------------------------------------------------------------------------------------------
  // Whose events they are

  predicate ByUser(e: Event) {
    e.StartRequest? || e.AcquireSend? || e.SubmitSend?
  }

  predicate ByKernel(e: Event) {
    e.KernelPosts?
  }

  predicate ByProgram(e: Event) {
    !ByUser(e) && !ByKernel(e)
  }

  /** The events of one side, in order. */
  function Part(es: seq<Event>, side: Event -> bool): seq<Event> {
    if es == [] then [] else (if side(es[0]) then [es[0]] else []) + Part(es[1..], side)
  }

  lemma {:induction false} PartConcat(a: seq<Event>, b: seq<Event>, side: Event -> bool)
    ensures Part(a + b, side) == Part(a, side) + Part(b, side)
    decreases |a|
  {
    if a == [] {
      assert a + b == b;
    } else {
      TailOfSum(a, b);
      PartConcat(a[1..], b, side);
      Associate(if side(a[0]) then [a[0]] else [], Part(a[1..], side), Part(b, side));
    }
  }

  lemma {:induction false} PartAll(es: seq<Event>, side: Event -> bool)
    requires forall e :: e in es ==> side(e)
    ensures Part(es, side) == es
    decreases |es|
  {
    if es != [] {
      assert es[0] in es;
      PartAll(es[1..], side);
    }
  }

  lemma {:induction false} PartNone(es: seq<Event>, side: Event -> bool)
    requires forall e :: e in es ==> !side(e)
    ensures Part(es, side) == []
    decreases |es|
  {
    if es != [] {
      assert es[0] in es;
      PartNone(es[1..], side);
    }
  }

  lemma PartOne(e: Event, side: Event -> bool)
    ensures Part([e], side) == if side(e) then [e] else []
  {
    assert [e][1..] == [];
  }

  /** The user did `user`, the kernel `kernel` and the program `program`, each in that order. */
  predicate Parts(es: seq<Event>, user: seq<Event>, kernel: seq<Event>, program: seq<Event>) {
    Part(es, ByUser) == user && Part(es, ByKernel) == kernel && Part(es, ByProgram) == program
  }

  lemma PartsConcat(a: seq<Event>, u: seq<Event>, k: seq<Event>, p: seq<Event>,
                    b: seq<Event>, u': seq<Event>, k': seq<Event>, p': seq<Event>)
    requires Parts(a, u, k, p) && Parts(b, u', k', p')
    ensures Parts(a + b, u + u', k + k', p + p')
  {
    PartConcat(a, b, ByUser);
    PartConcat(a, b, ByKernel);
    PartConcat(a, b, ByProgram);
  }

  /** One event of the program first. */
  lemma PartsBegin(e: Event, b: seq<Event>, u: seq<Event>, k: seq<Event>, p: seq<Event>)
    requires ByProgram(e) && Parts(b, u, k, p)
    ensures Parts([e] + b, u, k, [e] + p)
  {
    PartsOfOne(e);
    PartsConcat([e], [], [], [e], b, u, k, p);
    assert [] + u == u && [] + k == k;
  }

  /** What the kernel does first. */
  lemma PartsAfterPosts(posts: seq<Event>, b: seq<Event>, k: seq<Event>, p: seq<Event>)
    requires (forall e :: e in posts ==> e.KernelPosts?) && Parts(b, [], k, p)
    ensures Parts(posts + b, [], posts + k, p)
  {
    PartsOfPosts(posts);
    PartsConcat(posts, [], posts, [], b, [], k, p);
    assert [] + p == p;
  }

  lemma PartsOfPosts(es: seq<Event>)
    requires forall e :: e in es ==> e.KernelPosts?
    ensures Parts(es, [], es, [])
  {
    PartNone(es, ByUser);
    PartAll(es, ByKernel);
    PartNone(es, ByProgram);
  }

  lemma PartsOfOne(e: Event)
    requires ByProgram(e)
    ensures Parts([e], [], [], [e])
  {
    PartOne(e, ByUser);
    PartOne(e, ByKernel);
    PartOne(e, ByProgram);
  }

  lemma PartsOfAdvancing(w: Others)
    requires OthersOk(w)
    ensures Parts(Advancing(w), [], w.lastPosts, [PollAdvances])
  {
    PartsOfOne(PollAdvances);
    PartsAfterPosts(w.lastPosts, [PollAdvances], [], [PollAdvances]);
    assert w.lastPosts + [] == w.lastPosts;
  }

  lemma PartsOfClosing(w: Others)
    requires OthersOk(w)
    ensures Parts(Closing(w), [], w.posts + w.lastPosts, [PollSettles(w.fl), PollAdvances])
  {
    PartsOfAdvancing(w);
    PartsBegin(PollSettles(w.fl), Advancing(w), [], w.lastPosts, [PollAdvances]);
    assert [PollSettles(w.fl)] + [PollAdvances] == [PollSettles(w.fl), PollAdvances];
    PartsAfterPosts(w.posts, [PollSettles(w.fl)] + Advancing(w), w.lastPosts, [PollSettles(w.fl), PollAdvances]);
  }

  lemma PartsOfCallback(w: Others)
    requires OthersOk(w)
    ensures Parts(w.script + Ending(w), Part(w.script, ByUser), Part(w.script, ByKernel) + (w.posts + w.lastPosts),
                  [CallbackReturns(w.answer), PollSettles(w.fl), PollAdvances])
  {
    var last := [PollSettles(w.fl), PollAdvances];
    PartsOfClosing(w);
    PartsBegin(CallbackReturns(w.answer), Closing(w), [], w.posts + w.lastPosts, last);
    PartNone(w.script, ByProgram);
    PartsConcat(w.script, Part(w.script, ByUser), Part(w.script, ByKernel), [],
                Ending(w), [], w.posts + w.lastPosts, [CallbackReturns(w.answer)] + last);
    assert Part(w.script, ByUser) + [] == Part(w.script, ByUser);
    assert [] + ([CallbackReturns(w.answer)] + last) == [CallbackReturns(w.answer), PollSettles(w.fl), PollAdvances];
  }

  /** Who does what in a poll that finds a completion and does not halt the engine. */
  predicate PollParts(s: State, w: Others, es: seq<Event>)
    requires StateOk(s) && s.cq != []
  {
    match Lookup(s.pool, s.cq[0].id)
    case None => Parts(es, [], w.lastPosts, [PollBegins, PollAdvances])
    case Some(o) =>
      if s.cq[0].res == -105 then Parts(es, [], w.lastPosts, [PollBegins, PollAdvances])
      else
        && o < |s.pool.objs|
        && if CallDue(s, s.pool.objs[o], s.cq[0]) then
             Parts(es, Part(w.script, ByUser), Part(w.script, ByKernel) + (w.posts + w.lastPosts),
                   [PollBegins, CallbackReturns(w.answer), PollSettles(w.fl), PollAdvances])
           else
             Parts(es, [], w.posts + w.lastPosts, [PollBegins, PollSettles(w.fl), PollAdvances])
  }

  lemma PartsOfPassing(w: Others)
    requires OthersOk(w)
    ensures Parts([PollBegins] + Advancing(w), [], w.lastPosts, [PollBegins, PollAdvances])
  {
    PartsOfAdvancing(w);
    PartsBegin(PollBegins, Advancing(w), [], w.lastPosts, [PollAdvances]);
    assert [PollBegins] + [PollAdvances] == [PollBegins, PollAdvances];
  }

  lemma PartsOfServing(w: Others, called: bool)
    requires OthersOk(w)
    ensures if called then
              Parts([PollBegins] + (w.script + Ending(w)),
                    Part(w.script, ByUser), Part(w.script, ByKernel) + (w.posts + w.lastPosts),
                    [PollBegins, CallbackReturns(w.answer), PollSettles(w.fl), PollAdvances])
            else
              Parts([PollBegins] + Closing(w), [], w.posts + w.lastPosts,
                    [PollBegins, PollSettles(w.fl), PollAdvances])
  {
    if called {
      var last := [CallbackReturns(w.answer), PollSettles(w.fl), PollAdvances];
      PartsOfCallback(w);
      PartsBegin(PollBegins, w.script + Ending(w), Part(w.script, ByUser),
                 Part(w.script, ByKernel) + (w.posts + w.lastPosts), last);
      assert [PollBegins] + last == [PollBegins, CallbackReturns(w.answer), PollSettles(w.fl), PollAdvances];
    } else {
      var last := [PollSettles(w.fl), PollAdvances];
      PartsOfClosing(w);
      PartsBegin(PollBegins, Closing(w), [], w.posts + w.lastPosts, last);
      assert [PollBegins] + last == [PollBegins, PollSettles(w.fl), PollAdvances];
    }
  }

  lemma PollEventParts(s: State, w: Others)
    requires StateOk(s) && s.halt == No && s.phase == Idle && s.cq != [] && OthersOk(w) && !w.peekFails
    requires Dispatch(s).halt == No
    ensures PollParts(s, w, PollEvents(s, w))
  {
    var rest := PollEvents(s, w)[1..];
    assert PollEvents(s, w) == [PollBegins] + rest;
    match Lookup(s.pool, s.cq[0].id)
    case None => PartsOfPassing(w);
    case Some(o) =>
      if s.cq[0].res == -105 {
        PartsOfPassing(w);
      } else {
        FoundEffect(s, o);
        PartsOfServing(w, CallDue(s, s.pool.objs[o], s.cq[0]));
      }
  }
}
