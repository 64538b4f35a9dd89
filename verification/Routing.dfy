/**
 * Completion routing: what every step of the engine keeps about ids, slots and items.
 *
 * Everything here is about a state whose requests are spread over three places. `Entries` are the
 * submission entries the kernel has or will get; `Waiting` are the completions still owed a free or
 * a re-submission. Taken together, their ids are the `Pending` multiset.
 */
module Routing {
  import opened Basics
  import opened BufferRing
  import opened WorkPools
  import opened Engine

  function Entries(s: State): seq<Sqe> {
    s.kernel + s.sq
  }

  function Waiting(s: State): seq<Cqe> {
    if s.phase.Settled? && s.cq != [] then s.cq[1..] else s.cq
  }

  /** The part of a state that routing is about. */
  datatype Traffic = Traffic(pool: Pool, entries: seq<Sqe>, waiting: seq<Cqe>, stranded: set<nat>)

  function TrafficOf(s: State): Traffic {
    Traffic(s.pool, Entries(s), Waiting(s), s.stranded)
  }

  function EntryIds(q: seq<Sqe>): (r: seq<nat>)
    ensures |r| == |q|
  {
    seq(|q|, i requires 0 <= i < |q| => q[i].id)
  }

  function CompletionIds(q: seq<Cqe>): (r: seq<nat>)
    ensures |r| == |q|
  {
    seq(|q|, i requires 0 <= i < |q| => q[i].id)
  }

  /** How often each id is queued, in the kernel or awaiting its poll. */
  function PendingIn(t: Traffic): multiset<nat> {
    multiset(EntryIds(t.entries)) + multiset(CompletionIds(t.waiting))
  }

  function Pending(s: State): multiset<nat> {
    PendingIn(TrafficOf(s))
  }

  predicate Datagram(it: Item) {
    it.kind == Recv && !it.stream
  }

  /** Slot `id` holds a submitted item. */
  predicate Names(p: Pool, id: nat) {
    match Lookup(p, id)
    case None => false
    case Some(o) => o < |p.objs| && p.objs[o].kind != Unknown
  }

  function ItemAt(p: Pool, id: nat): Item
    requires Names(p, id)
  {
    p.objs[p.slots[id].value]
  }

  predicate EntryOk(p: Pool, e: Sqe) {
    Names(p, e.id) && e.op == OpFor(ItemAt(p, e.id))
  }

  /** Buffers travel on successful receives only, `more` on datagram receives only. */
  predicate CompletionOk(p: Pool, c: Cqe) {
    && Names(p, c.id)
    && (c.bid.Some? <==> ItemAt(p, c.id).kind == Recv && c.res >= 0)
    && (c.bid.Some? ==> c.res <= BUFFER_SIZE)
    && (c.more ==> Datagram(ItemAt(p, c.id)) && c.res >= 0)
  }

  /**
   * Routing itself: every pending id names a live slot with a submitted item, and the id of a
   * one-shot request is pending once only. So a completion cannot reach a later occupant of a slot.
   */
  ghost predicate RoutedIn(t: Traffic) {
    forall id :: id in PendingIn(t) ==>
      && Names(t.pool, id)
      && (!Datagram(ItemAt(t.pool, id)) ==> PendingIn(t)[id] == 1)
  }

  ghost predicate Routed(s: State) {
    RoutedIn(TrafficOf(s))
  }

  ghost predicate Coherent(t: Traffic) {
    && (forall e :: e in t.entries ==> EntryOk(t.pool, e))
    && (forall c :: c in t.waiting ==> CompletionOk(t.pool, c))
  }

  /** The item being dispatched is still the one in the slot the completion names. */
  predicate PhaseOk(s: State) {
    match s.phase
    case Idle => true
    case Settled => s.cq != []
    case InCallback(o) =>
      && s.cq != [] && o < |s.pool.objs| && Lookup(s.pool, s.cq[0].id) == Some(o)
      && s.pool.objs[o].kind != Unknown
      && (s.pool.objs[o].kind == Recv ==> s.cq[0].res >= 0)
    case Returned(o, action) =>
      && s.cq != [] && o < |s.pool.objs| && Lookup(s.pool, s.cq[0].id) == Some(o)
      && match action
         case FreeItem => s.pool.objs[o].kind !in {Unknown, Accept}
         case Rearm => s.pool.objs[o].kind in {Accept, Recv}
  }

  /** Type and callback agree; items that no rule frees are live. */
  predicate ItemOk(it: Item) {
    && (it.kind != Unknown ==> it.alt == AltFor(it.kind))
    && (it.kind in {Unknown, Accept} ==> it.inUse)
  }

  ghost predicate ItemsOk(t: Traffic) {
    && (forall o: nat :: o < |t.pool.objs| ==> ItemOk(t.pool.objs[o]))
    && (forall o :: o in t.stranded ==> o < |t.pool.objs|)
  }

  /** Object `o` is accounted for: acquired only, pending, or left behind by -ENOBUFS. */
  predicate Accounted(t: Traffic, o: nat)
    requires o < |t.pool.objs|
  {
    var it := t.pool.objs[o];
    it.inUse ==>
      if it.kind == Unknown then it.id !in PendingIn(t) && o !in t.stranded
      else if Datagram(it) then it.id in PendingIn(t) || o in t.stranded
      else PendingIn(t)[it.id] == if o in t.stranded then 0 else 1
  }

  ghost predicate AllAccounted(t: Traffic) {
    forall o: nat :: o < |t.pool.objs| ==> Accounted(t, o)
  }

  /** What holds whether or not the engine has halted. */
  ghost predicate Sound(t: Traffic) {
    PoolOk(t.pool) && RoutedIn(t) && Coherent(t) && ItemsOk(t)
  }

  ghost predicate Inv(s: State) {
    && StateOk(s)
    && Sound(TrafficOf(s))
    && PhaseOk(s)
    && s.halt != AssertionFailed
    && (s.halt == No ==> AllAccounted(TrafficOf(s)))
  }

  // ---------------------------------------------------------------------------------------------
  // Multisets of ids

  lemma EntryIdsAppend(q: seq<Sqe>, e: Sqe)
    ensures multiset(EntryIds(q + [e])) == multiset(EntryIds(q)) + multiset{e.id}
  {
    assert EntryIds(q + [e]) == EntryIds(q) + [e.id];
  }

  lemma CompletionIdsAppend(q: seq<Cqe>, c: Cqe)
    ensures multiset(CompletionIds(q + [c])) == multiset(CompletionIds(q)) + multiset{c.id}
  {
    assert CompletionIds(q + [c]) == CompletionIds(q) + [c.id];
  }

  lemma EntryIdsRemove(q: seq<Sqe>, k: nat)
    requires k < |q|
    ensures multiset(EntryIds(q)) == multiset(EntryIds(RemoveAt(q, k))) + multiset{q[k].id}
  {
    RemoveAtMultiset(EntryIds(q), k);
    assert RemoveAt(EntryIds(q), k) == EntryIds(RemoveAt(q, k));
  }

  lemma CompletionIdsTail(q: seq<Cqe>)
    requires q != []
    ensures multiset(CompletionIds(q)) == multiset{q[0].id} + multiset(CompletionIds(q[1..]))
  {
    assert CompletionIds(q) == [q[0].id] + CompletionIds(q[1..]);
  }

  lemma EntryPends(t: Traffic, e: Sqe)
    requires e in t.entries
    ensures e.id in PendingIn(t)
  {
    var i :| 0 <= i < |t.entries| && t.entries[i] == e;
    assert EntryIds(t.entries)[i] == e.id;
  }

  lemma CompletionPends(t: Traffic, c: Cqe)
    requires c in t.waiting
    ensures c.id in PendingIn(t)
  {
    var j :| 0 <= j < |t.waiting| && t.waiting[j] == c;
    assert CompletionIds(t.waiting)[j] == c.id;
  }

  /** Conversely, a pending id comes from an entry or a completion. */
  lemma PendingComesFrom(t: Traffic, id: nat)
    requires id in PendingIn(t)
    ensures (exists e :: e in t.entries && e.id == id) || (exists c :: c in t.waiting && c.id == id)
  {
    if id in EntryIds(t.entries) {
      var i :| 0 <= i < |t.entries| && EntryIds(t.entries)[i] == id;
      assert t.entries[i] in t.entries;
    } else {
      assert id in CompletionIds(t.waiting);
      var j :| 0 <= j < |t.waiting| && CompletionIds(t.waiting)[j] == id;
      assert t.waiting[j] in t.waiting;
    }
  }

  // ---------------------------------------------------------------------------------------------
  // Changes of traffic

  /** The pools agree on what slot `id` holds, except perhaps on the in-use mark. */
  predicate Agree(p: Pool, p': Pool, id: nat) {
    Names(p, id) ==> Names(p', id) && ItemAt(p', id).(inUse := true) == ItemAt(p, id).(inUse := true)
  }

  /** Old entries and completions stay good where the pools agree. */
  lemma CoherentTransport(t: Traffic, t': Traffic)
    requires Coherent(t)
    requires forall id :: id in PendingIn(t') ==> Agree(t.pool, t'.pool, id)
    requires forall e :: e in t'.entries ==> e in t.entries || EntryOk(t'.pool, e)
    requires forall c :: c in t'.waiting ==> c in t.waiting || CompletionOk(t'.pool, c)
    ensures Coherent(t')
  {
    forall e | e in t'.entries
      ensures EntryOk(t'.pool, e)
    {
      EntryPends(t', e);
    }
    forall c | c in t'.waiting
      ensures CompletionOk(t'.pool, c)
    {
      CompletionPends(t', c);
    }
  }

  /** An allocation disturbs no pending id: the id it hands out was in no live slot. */
  lemma AllocTraffic(t: Traffic, stream: bool)
    requires Sound(t)
    ensures Sound(t.(pool := Alloc(t.pool, stream)))
    ensures AllAccounted(t) ==> AllAccounted(t.(pool := Alloc(t.pool, stream)))
  {
    var t' := t.(pool := Alloc(t.pool, stream));
    AllocOk(t.pool, stream);
    assert PendingIn(t') == PendingIn(t);
    forall id | id in PendingIn(t)
      ensures Agree(t.pool, t'.pool, id) && Names(t.pool, id)
    {
      assert Names(t.pool, id);
    }
    CoherentTransport(t, t');
    forall x: nat | x < |t'.pool.objs|
      ensures ItemOk(t'.pool.objs[x]) && (AllAccounted(t) ==> Accounted(t', x))
    {
      if x < |t.pool.objs| {
        assert t'.pool.objs[x] == t.pool.objs[x] && ItemOk(t.pool.objs[x]);
        assert AllAccounted(t) ==> Accounted(t, x);
      }
    }
  }

  predicate Fits(it: Item, kind: Kind) {
    it.inUse && it.kind == Unknown && kind != Unknown
  }

  /** Giving an unsubmitted object its kind changes no pending item. */
  lemma AssignTraffic(t: Traffic, o: nat, kind: Kind, fn: nat)
    requires Sound(t) && o < |t.pool.objs| && Fits(t.pool.objs[o], kind)
    ensures Sound(t.(pool := Assign(t.pool, o, kind, AltFor(kind), fn)))
  {
    var t' := t.(pool := Assign(t.pool, o, kind, AltFor(kind), fn));
    AssignOk(t.pool, o, kind, AltFor(kind), fn);
    assert PendingIn(t') == PendingIn(t);
    forall id | id in PendingIn(t)
      ensures Agree(t.pool, t'.pool, id) && Names(t.pool, id)
    {
      assert Names(t.pool, id);
    }
    CoherentTransport(t, t');
    forall x: nat | x < |t'.pool.objs|
      ensures ItemOk(t'.pool.objs[x])
    {
      assert ItemOk(t.pool.objs[x]);
    }
  }

  /** A new entry for an object with nothing pending. */
  lemma EntryTraffic(t: Traffic, o: nat)
    requires Sound(t) && o < |t.pool.objs|
    requires var it := t.pool.objs[o]; it.inUse && it.kind != Unknown && it.id !in PendingIn(t) && o !in t.stranded
    requires forall x: nat :: x < |t.pool.objs| && x != o ==> Accounted(t, x)
    ensures var it := t.pool.objs[o]; var t' := t.(entries := t.entries + [Sqe(it.id, OpFor(it))]);
            Sound(t') && AllAccounted(t')
  {
    var it := t.pool.objs[o];
    var e := Sqe(it.id, OpFor(it));
    var t' := t.(entries := t.entries + [e]);
    EntryIdsAppend(t.entries, e);
    assert PendingIn(t') == PendingIn(t) + multiset{it.id};
    assert HomeOk(t.pool, o);
    assert EntryOk(t.pool, e);
    CoherentTransport(t, t');
    forall x: nat | x < |t.pool.objs|
      ensures Accounted(t', x)
    {
      assert HomeOk(t.pool, x);
      assert x != o ==> Accounted(t, x);
    }
  }

  /** Nothing pends less, and only datagram receives pend more. */
  predicate OnlyDatagramsGain(t: Traffic, m: multiset<nat>, id: nat) {
    m[id] == PendingIn(t)[id] ||
    (id in PendingIn(t) && id in m && Names(t.pool, id) && Datagram(ItemAt(t.pool, id)))
  }

  /** With the pool unchanged, routing and accounting depend on the pending multiset only. */
  lemma PendingTransport(t: Traffic, t': Traffic)
    requires RoutedIn(t) && HomesOk(t.pool) && AllAccounted(t) && t'.pool == t.pool && t'.stranded == t.stranded
    requires forall id :: OnlyDatagramsGain(t, PendingIn(t'), id)
    ensures RoutedIn(t') && AllAccounted(t')
  {
    forall id | id in PendingIn(t')
      ensures Names(t.pool, id) && (!Datagram(ItemAt(t.pool, id)) ==> PendingIn(t')[id] == 1)
    {
      assert OnlyDatagramsGain(t, PendingIn(t'), id);
      assert id in PendingIn(t);
    }
    forall x: nat | x < |t.pool.objs|
      ensures Accounted(t', x)
    {
      assert Accounted(t, x) && HomeOk(t.pool, x);
      assert OnlyDatagramsGain(t, PendingIn(t'), t.pool.objs[x].id);
    }
  }

  /** A completion is posted for an entry; the entry stays only when more are to come. */
  lemma PostTraffic(t: Traffic, k: nat, more: bool, c: Cqe)
    requires Sound(t) && AllAccounted(t) && k < |t.entries| && c.id == t.entries[k].id
    requires CompletionOk(t.pool, c) && (more ==> Datagram(ItemAt(t.pool, c.id)))
    ensures Sound(Posted(t, k, more, c)) && AllAccounted(Posted(t, k, more, c))
  {
    var t' := Posted(t, k, more, c);
    EntryPends(t, t.entries[k]);
    RemoveAtMembers(t.entries, k);
    PostedPending(t, k, more, c);
    forall id
      ensures OnlyDatagramsGain(t, PendingIn(t'), id)
    {
      if more { OneLess(PendingIn(t'), PendingIn(t), c.id, id); }
    }
    PendingTransport(t, t');
    CoherentTransport(t, t');
  }

  function Posted(t: Traffic, k: nat, more: bool, c: Cqe): Traffic
    requires k < |t.entries|
  {
    t.(entries := if more then t.entries else RemoveAt(t.entries, k), waiting := t.waiting + [c])
  }

  lemma PostedPending(t: Traffic, k: nat, more: bool, c: Cqe)
    requires k < |t.entries| && c.id == t.entries[k].id
    ensures PendingIn(Posted(t, k, more, c)) == if more then PendingIn(t) + multiset{c.id} else PendingIn(t)
  {
    CompletionIdsAppend(t.waiting, c);
    EntryIdsRemove(t.entries, k);
  }

  /** A completion leaves and its item stays behind: the -ENOBUFS return. */
  lemma StrandTraffic(t: Traffic, o: nat)
    requires Sound(t) && AllAccounted(t) && t.waiting != [] && Lookup(t.pool, t.waiting[0].id) == Some(o)
    ensures var t' := t.(waiting := t.waiting[1..], stranded := t.stranded + {o});
            Sound(t') && AllAccounted(t')
  {
    var t' := t.(waiting := t.waiting[1..], stranded := t.stranded + {o});
    var id := t.waiting[0].id;
    assert SlotOk(t.pool, id);
    CompletionPends(t, t.waiting[0]);
    CompletionIdsTail(t.waiting);
    assert PendingIn(t) == PendingIn(t') + multiset{id};
    DropAccounted(t, t', o, id);
    CoherentTransport(t, t');
  }

  lemma DropAccounted(t: Traffic, t': Traffic, o: nat, id: nat)
    requires Sound(t) && AllAccounted(t) && Lookup(t.pool, id) == Some(o)
    requires t'.pool == t.pool && t'.stranded == t.stranded + {o}
    requires PendingIn(t) == PendingIn(t') + multiset{id}
    ensures RoutedIn(t') && AllAccounted(t') && ItemsOk(t')
  {
    assert SlotOk(t.pool, id);
    assert id in PendingIn(t);
    DropRouted(t, t', id);
    forall x: nat | x < |t.pool.objs|
      ensures Accounted(t', x)
    {
      assert Accounted(t, x) && HomeOk(t.pool, x);
      OneLess(PendingIn(t), PendingIn(t'), id, t.pool.objs[x].id);
    }
  }

  lemma DropRouted(t: Traffic, t': Traffic, id: nat)
    requires RoutedIn(t) && t'.pool == t.pool && PendingIn(t) == PendingIn(t') + multiset{id}
    ensures RoutedIn(t')
  {
    forall k | k in PendingIn(t')
      ensures Names(t.pool, k) && (!Datagram(ItemAt(t.pool, k)) ==> PendingIn(t')[k] == 1)
    {
      assert k in PendingIn(t);
      OneLess(PendingIn(t), PendingIn(t'), id, k);
    }
  }

  lemma OneLess(m: multiset<nat>, m': multiset<nat>, id: nat, k: nat)
    requires m == m' + multiset{id}
    ensures m[k] == m'[k] + if k == id then 1 else 0
  {
  }

  /** A completion leaves and its item is freed, with nothing else pending for the id. */
  lemma FreeTraffic(t: Traffic)
    requires Sound(t) && AllAccounted(t) && t.waiting != []
    requires var id := t.waiting[0].id; CanFree(t.pool, id) && PendingIn(t)[id] == 1
    requires Names(t.pool, t.waiting[0].id) && ItemAt(t.pool, t.waiting[0].id).kind !in {Unknown, Accept}
    ensures var t' := t.(pool := Free(t.pool, t.waiting[0].id), waiting := t.waiting[1..]);
            Sound(t') && AllAccounted(t')
  {
    var id := t.waiting[0].id;
    var t' := t.(pool := Free(t.pool, id), waiting := t.waiting[1..]);
    FreeOk(t.pool, id);
    CompletionIdsTail(t.waiting);
    assert PendingIn(t) == PendingIn(t') + multiset{id};
    forall k | k in PendingIn(t')
      ensures k != id && Names(t.pool, k) && Agree(t.pool, t'.pool, k)
    {
      assert k in PendingIn(t);
      FreeAgrees(t.pool, id, k);
    }
    CoherentTransport(t, t');
    assert RoutedIn(t');
    FreeAccounted(t, t', id);
  }

  lemma FreeAgrees(p: Pool, id: nat, k: nat)
    requires PoolOk(p) && CanFree(p, id) && k != id
    ensures Agree(p, Free(p, id), k)
  {
    if Names(p, k) {
      assert SlotOk(p, k) && SlotOk(p, id);
    }
  }

  lemma FreeAccounted(t: Traffic, t': Traffic, id: nat)
    requires AllAccounted(t) && ItemsOk(t) && HomesOk(t.pool) && CanFree(t.pool, id)
    requires t'.pool == Free(t.pool, id) && t'.stranded == t.stranded
    requires PendingIn(t) == PendingIn(t') + multiset{id}
    requires Names(t.pool, id) && ItemAt(t.pool, id).kind !in {Unknown, Accept}
    ensures AllAccounted(t') && ItemsOk(t')
  {
    forall x: nat | x < |t.pool.objs|
      ensures Accounted(t', x) && ItemOk(t'.pool.objs[x])
    {
      assert Accounted(t, x) && HomeOk(t.pool, x) && ItemOk(t.pool.objs[x]);
      OneLess(PendingIn(t), PendingIn(t'), id, t.pool.objs[x].id);
    }
  }

  /** A completion leaves and its item is queued again: nothing changes for anybody. */
  lemma RearmTraffic(t: Traffic, o: nat)
    requires Sound(t) && AllAccounted(t) && t.waiting != [] && Lookup(t.pool, t.waiting[0].id) == Some(o)
    requires o < |t.pool.objs| && t.pool.objs[o].kind != Unknown
    ensures var it := t.pool.objs[o];
      var t' := t.(entries := t.entries + [Sqe(it.id, OpFor(it))], waiting := t.waiting[1..]);
      Sound(t') && AllAccounted(t') && PendingIn(t') == PendingIn(t)
  {
    var it := t.pool.objs[o];
    var e := Sqe(it.id, OpFor(it));
    var t' := t.(entries := t.entries + [e], waiting := t.waiting[1..]);
    assert SlotOk(t.pool, t.waiting[0].id);
    EntryIdsAppend(t.entries, e);
    CompletionIdsTail(t.waiting);
    assert PendingIn(t') == PendingIn(t);
    forall id
      ensures OnlyDatagramsGain(t, PendingIn(t'), id)
    {
    }
    PendingTransport(t, t');
    CoherentTransport(t, t');
  }

  // ---------------------------------------------------------------------------------------------
  // Steps, one kind at a time

  /** Flushes move entries from the queue to the kernel and change nothing else. */
  lemma FlushKeepsEntries(s: State, f: FlushResult)
    ensures Entries(Flush(s, f)) == Entries(s)
  {
  }

  /** `Submit` queues exactly one entry, for the item's own id, or halts with nothing queued. */
  lemma SubmitEffect(s: State, o: nat, fl: Flushes)
    requires o < |s.pool.objs| && s.halt == No
    ensures var s' := Submit(s, o, fl); var it := s.pool.objs[o];
      && s'.(sq := s.sq, kernel := s.kernel, taken := s.taken, prepared := s.prepared, halt := s.halt) == s
      && (s'.halt == No ==>
            && it.kind != Unknown
            && Entries(s') == Entries(s) + [Sqe(it.id, OpFor(it))]
            && s'.prepared == s.prepared + [Sqe(it.id, OpFor(it))])
      && (s'.halt != No ==> Entries(s') == Entries(s) && s'.prepared == s.prepared)
      && (ItemOk(it) && it.kind != Unknown ==> s'.halt != AssertionFailed)
  {
    var s1 := GetSqe(s, fl.retry);
    FlushKeepsEntries(s, fl.retry);
    var it := s.pool.objs[o];
    if s1.halt == No && it.kind != Unknown {
      FlushKeepsEntries(Prepare(s1, Sqe(it.id, OpFor(it))), fl.last);
    }
  }

  /** The events that call `Submit` or the pool, and nothing else. */
  predicate TouchesPool(e: Event) {
    e.StartRequest? || e.AcquireSend? || e.SubmitSend? || e.PollSettles?
  }

  /** Such events leave completions, buffers, log and history of completions alone. */
  lemma PoolEventFrame(s: State, e: Event)
    requires Enabled(s, e) && TouchesPool(e)
    ensures var s' := Step(s, e);
      && s'.(pool := s.pool, sq := s.sq, kernel := s.kernel, taken := s.taken, prepared := s.prepared,
             halt := s.halt, phase := s.phase) == s
      && (!e.PollSettles? ==> s'.phase == s.phase)
      && (e.PollSettles? ==> s'.phase == if s'.halt == No then Settled else s.phase)
  {
    match e
    case StartRequest(kind, stream, fn, fl) =>
      var p := Alloc(s.pool, stream);
      SubmitEffect(s.(pool := Assign(p, |s.pool.objs|, kind, AltFor(kind), fn)), |s.pool.objs|, fl);
    case AcquireSend(_) =>
    case SubmitSend(o, packet, fn, fl) =>
      var kind := if packet then SendWorkPacket else SendStreamData;
      SubmitEffect(s.(pool := Assign(s.pool, o, kind, AltFor(kind), fn)), o, fl);
    case PollSettles(fl) =>
      if s.phase.action == Rearm {
        SubmitEffect(s, s.phase.obj, fl);
      }
  }

  /** What such an event does to the pool. */
  function PoolAfter(s: State, e: Event): Pool
    requires Enabled(s, e)
  {
    match e
    case StartRequest(kind, stream, fn, _) =>
      Assign(Alloc(s.pool, stream), |s.pool.objs|, kind, AltFor(kind), fn)
    case AcquireSend(stream) => Alloc(s.pool, stream)
    case SubmitSend(o, packet, fn, _) =>
      var kind := if packet then SendWorkPacket else SendStreamData;
      Assign(s.pool, o, kind, AltFor(kind), fn)
    case PollSettles(_) =>
      if s.phase.action == FreeItem && CanFree(s.pool, s.cq[0].id) then Free(s.pool, s.cq[0].id) else s.pool
    case _ => s.pool
  }

  lemma PoolEventEffect(s: State, e: Event)
    requires Enabled(s, e)
    ensures Step(s, e).pool == PoolAfter(s, e)
  {
    match e
    case StartRequest(kind, stream, fn, fl) =>
      SubmitEffect(s.(pool := PoolAfter(s, e)), |s.pool.objs|, fl);
    case SubmitSend(o, packet, fn, fl) =>
      SubmitEffect(s.(pool := PoolAfter(s, e)), o, fl);
    case PollSettles(fl) =>
      if s.phase.action == Rearm {
        SubmitEffect(s, s.phase.obj, fl);
      }
    case _ =>
  }

  /** An unsubmitted live object becomes a request. */
  lemma SubmitKeepsInv(s: State, o: nat, kind: Kind, fn: nat, fl: Flushes)
    requires Inv(s) && s.halt == No && UserTurn(s) && o < |s.pool.objs| && Fits(s.pool.objs[o], kind)
    ensures Inv(AssignAndSubmit(s, o, kind, fn, fl))
  {
    var t := TrafficOf(s);
    var s1 := s.(pool := Assign(s.pool, o, kind, AltFor(kind), fn));
    var t1 := t.(pool := s1.pool);
    AssignTraffic(t, o, kind, fn);
    SubmitEffect(s1, o, fl);
    assert Accounted(t, o) && HomeOk(s.pool, o) && ItemOk(s1.pool.objs[o]);
    assert PendingIn(t1) == PendingIn(t);
    forall x: nat | x < |t1.pool.objs| && x != o
      ensures Accounted(t1, x)
    {
      assert Accounted(t, x);
    }
    EntryTraffic(t1, o);
    var s' := Submit(s1, o, fl);
    assert Waiting(s') == Waiting(s);
    if s'.halt == No {
      assert TrafficOf(s') == t1.(entries := Entries(s'));
    } else {
      assert TrafficOf(s') == t1;
    }
  }

  lemma AcquireKeepsInv(s: State, stream: bool)
    requires Inv(s) && s.halt == No && UserTurn(s)
    ensures Inv(s.(pool := Alloc(s.pool, stream)))
  {
    var s' := s.(pool := Alloc(s.pool, stream));
    AllocOk(s.pool, stream);
    AllocTraffic(TrafficOf(s), stream);
    assert TrafficOf(s') == TrafficOf(s).(pool := s'.pool);
    if s.phase.InCallback? {
      assert s'.pool.objs[s.phase.obj] == s.pool.objs[s.phase.obj];
    }
  }

  lemma PostKeepsInv(s: State, k: nat, res: int, more: bool, data: seq<Byte>)
    requires Inv(s) && s.halt == No
    requires k < |s.kernel| && MayPost(s.kernel[k].op, Exposed(s.ring), res, more, data)
    ensures Inv(Post(s, k, res, more, data))
  {
    var s' := Post(s, k, res, more, data);
    var e := s.kernel[k];
    assert Entries(s)[k] == e && e in Entries(s) && EntryOk(s.pool, e);
    var c := PostEffect(s, k, res, more, data);
    PostTraffic(TrafficOf(s), k, more, c);
    assert TrafficOf(s') == Posted(TrafficOf(s), k, more, c);
  }

  lemma PostEffect(s: State, k: nat, res: int, more: bool, data: seq<Byte>) returns (c: Cqe)
    requires StateOk(s) && PhaseOk(s) && k < |s.kernel| && EntryOk(s.pool, s.kernel[k])
    requires MayPost(s.kernel[k].op, Exposed(s.ring), res, more, data)
    ensures var s' := Post(s, k, res, more, data);
      && c.id == s.kernel[k].id && CompletionOk(s.pool, c)
      && (more ==> Datagram(ItemAt(s.pool, c.id)))
      && StateOk(s') && PhaseOk(s') && s'.pool == s.pool && s'.stranded == s.stranded && s'.halt == s.halt
      && Waiting(s') == Waiting(s) + [c]
      && Entries(s') == if more then Entries(s) else RemoveAt(Entries(s), k)
  {
    var s' := Post(s, k, res, more, data);
    c := s'.cq[|s.cq|];
    assert s'.cq == s.cq + [c];
    PhaseSurvivesPost(s, s', c);
    if !more {
      assert RemoveAt(s.kernel, k) + s.sq == RemoveAt(s.kernel + s.sq, k);
    }
  }

  lemma PhaseSurvivesPost(s: State, s': State, c: Cqe)
    requires PhaseOk(s) && s'.cq == s.cq + [c] && s'.pool == s.pool && s'.phase == s.phase
    ensures PhaseOk(s') && Waiting(s') == Waiting(s) + [c]
  {
  }

  /** The switch touches neither pool nor traffic, and asserts nothing false of a coherent completion. */
  lemma DispatchItemEffect(s: State, o: nat, c: Cqe)
    requires StateOk(s) && s.halt == No && s.phase == Idle && s.cq != [] && c == s.cq[0]
    requires o < |s.pool.objs| && Lookup(s.pool, c.id) == Some(o) && s.pool.objs[o].kind != Unknown
    requires ItemOk(s.pool.objs[o])
    ensures var s' := DispatchItem(s, o, c);
      && s'.(phase := Idle, halt := No, ring := s.ring, log := s.log) == s
      && StateOk(s') && PhaseOk(s') && s'.halt != AssertionFailed && !s'.phase.Settled?
  {
  }

  lemma ItemFrame(s: State, o: nat, c: Cqe)
    requires StateOk(s) && o < |s.pool.objs|
    ensures var s' := DispatchItem(s, o, c);
      s'.(phase := s.phase, halt := s.halt, ring := s.ring, log := s.log) == s && StateOk(s')
  {
  }

  /** Whatever a dispatch finds, it changes neither pool nor queues nor memory. */
  lemma DispatchFrame(s: State)
    requires StateOk(s) && s.cq != []
    ensures var s' := Dispatch(s);
      && s'.(phase := s.phase, halt := s.halt, ring := s.ring, log := s.log,
             dispatched := s.dispatched, stranded := s.stranded) == s
      && StateOk(s')
  {
    var c := s.cq[0];
    var o := Lookup(s.pool, c.id);
    if o.Some? && o.value < |s.pool.objs| {
      ItemFrame(s.(dispatched := s.dispatched + [c]), o.value, c);
    }
  }

  /** Dispatch finds the right item, and its callback has the right type. */
  lemma DispatchKeepsInv(s: State)
    requires Inv(s) && s.halt == No && s.phase == Idle && s.cq != []
    ensures Inv(Dispatch(s))
  {
    var s' := Dispatch(s);
    var c := s.cq[0];
    assert c in Waiting(s) && CompletionOk(s.pool, c);
    var o := s.pool.slots[c.id].value;
    assert SlotOk(s.pool, c.id) && ItemOk(s.pool.objs[o]);
    if c.res == -ENOBUFS {
      StrandTraffic(TrafficOf(s), o);
      assert TrafficOf(s') == TrafficOf(s).(waiting := s.cq[1..], stranded := s.stranded + {o});
    } else {
      DispatchItemEffect(s.(dispatched := s.dispatched + [c]), o, c);
      assert TrafficOf(s') == TrafficOf(s);
    }
  }

  /** A free from a state where the id is pending once, for this very completion, keeps everything. */
  lemma FreeKeepsInv(s: State, fl: Flushes)
    requires Inv(s) && s.halt == No && s.phase.Returned? && s.phase.action == FreeItem
    requires Pending(s)[s.cq[0].id] == 1
    ensures Inv(Settle(s, s.phase.obj, FreeItem, fl))
  {
    var s' := Settle(s, s.phase.obj, FreeItem, fl);
    FreeOk(s.pool, s.cq[0].id);
    FreeTraffic(TrafficOf(s));
    assert TrafficOf(s') == TrafficOf(s).(pool := s'.pool, waiting := s.cq[1..]);
  }

  /** A re-submission replaces the completed reference by a new one for the same item. */
  lemma RearmKeepsInv(s: State, fl: Flushes)
    requires Inv(s) && s.halt == No && s.phase.Returned? && s.phase.action == Rearm
    ensures Inv(Settle(s, s.phase.obj, Rearm, fl))
  {
    var o := s.phase.obj;
    var s' := Settle(s, o, Rearm, fl);
    var it := s.pool.objs[o];
    assert SlotOk(s.pool, s.cq[0].id) && ItemOk(it);
    SubmitEffect(s, o, fl);
    if s'.halt == No {
      RearmTraffic(TrafficOf(s), o);
      assert TrafficOf(s') == TrafficOf(s).(entries := Entries(s) + [Sqe(it.id, OpFor(it))], waiting := s.cq[1..]);
    } else {
      assert TrafficOf(s') == TrafficOf(s);
    }
  }

  // ---------------------------------------------------------------------------------------------
  // The one step that can break routing

  /** The program frees an id that is still queued, armed or completed elsewhere. */
  predicate StaleFree(s: State, e: Event) {
    && e.PollSettles? && s.phase.Returned? && s.phase.action == FreeItem && s.cq != []
    && Pending(s)[s.cq[0].id] > 1
  }

  /** Every other step keeps the invariant. */
  lemma StepKeepsInv(s: State, e: Event)
    requires Inv(s) && Enabled(s, e) && !StaleFree(s, e)
    ensures Inv(Step(s, e))
  {
    var s' := Step(s, e);
    match e
    case StartRequest(kind, stream, fn, fl) =>
      AllocOk(s.pool, stream);
      AcquireKeepsInv(s, stream);
      SubmitKeepsInv(s.(pool := Alloc(s.pool, stream)), |s.pool.objs|, kind, fn, fl);
    case AcquireSend(stream) => AcquireKeepsInv(s, stream);
    case SubmitSend(o, packet, fn, fl) =>
      assert ItemOk(s.pool.objs[o]);
      SubmitKeepsInv(s, o, if packet then SendWorkPacket else SendStreamData, fn, fl);
    case KernelPosts(k, res, more, data) => PostKeepsInv(s, k, res, more, data);
    case PollFails => assert TrafficOf(s') == TrafficOf(s);
    case PollBegins => if s.cq != [] { DispatchKeepsInv(s); }
    case CallbackReturns(answer) => assert TrafficOf(s') == TrafficOf(s);
    case PollSettles(fl) =>
      if s.phase.action == FreeItem {
        CompletionPends(TrafficOf(s), s.cq[0]);
        FreeKeepsInv(s, fl);
      } else {
        RearmKeepsInv(s, fl);
      }
    case PollAdvances => assert TrafficOf(s') == TrafficOf(s);
  }

  /** A stale free really breaks routing: the other reference now names an empty slot. */
  lemma StaleFreeBreaksRouting(s: State, e: Event)
    requires Inv(s) && Enabled(s, e) && StaleFree(s, e)
    ensures !Routed(Step(s, e))
  {
    var s' := Step(s, e);
    var id := s.cq[0].id;
    FreeOk(s.pool, id);
    CompletionIdsTail(s.cq);
    assert TrafficOf(s') == TrafficOf(s).(pool := s'.pool, waiting := s.cq[1..]);
    assert Pending(s) == Pending(s') + multiset{id};
    assert id in Pending(s') && !Names(s'.pool, id);
  }

  /** Only a datagram receive can be freed stale. */
  lemma OnlyDatagramsGoStale(s: State, e: Event)
    requires Inv(s) && StaleFree(s, e)
    ensures Datagram(s.pool.objs[s.phase.obj])
  {
    assert s.cq[0].id in Pending(s);
  }

  lemma InitInv(cap: nat, mem: Memory)
    requires MemoryOk(mem)
    ensures Inv(Init(cap, mem))
  {
    SetupWindow();
    var s := Init(cap, mem);
    assert TrafficOf(s) == Traffic(EMPTY_POOL, [], [], {});
    assert Pending(s) == multiset{};
  }

  // ---------------------------------------------------------------------------------------------
  // Whole runs

  /** No prefix of the run, as far as it is legal, ends in a stale free. */
  ghost predicate Disciplined(s: State, es: seq<Event>)
    decreases |es|
  {
    es == [] ||
    (Disciplined(s, Front(es)) && (Legal(s, es) ==> !StaleFree(Run(s, Front(es)), Last(es))))
  }

  /** Every state along the run is routed. */
  ghost predicate AlwaysRouted(s: State, es: seq<Event>)
    requires Legal(s, es)
    decreases |es|
  {
    Routed(Run(s, es)) && (es == [] || AlwaysRouted(s, Front(es)))
  }

  lemma {:induction false} RunKeepsInv(s: State, es: seq<Event>)
    requires Inv(s) && Legal(s, es) && Disciplined(s, es)
    ensures Inv(Run(s, es))
    decreases |es|
  {
    if es != [] {
      RunKeepsInv(s, Front(es));
      StepKeepsInv(Run(s, Front(es)), Last(es));
    }
  }

  /** Over every run from start-up, completions are routed in every state if and only if no free is stale. */
  lemma {:induction false} RoutedIffDisciplined(cap: nat, mem: Memory, es: seq<Event>)
    requires MemoryOk(mem) && Legal(Init(cap, mem), es)
    ensures AlwaysRouted(Init(cap, mem), es) <==> Disciplined(Init(cap, mem), es)
    decreases |es|
  {
    var s := Init(cap, mem);
    InitInv(cap, mem);
    if es != [] {
      RoutedIffDisciplined(cap, mem, Front(es));
      if Disciplined(s, Front(es)) {
        RunKeepsInv(s, Front(es));
        if StaleFree(Run(s, Front(es)), Last(es)) {
          StaleFreeBreaksRouting(Run(s, Front(es)), Last(es));
        } else {
          StepKeepsInv(Run(s, Front(es)), Last(es));
        }
      }
    }
  }
}
