/**
 * The hostname-request coalescer of src/IOUring.cpp: one outstanding lookup per name, any number of
 * handlers for it, answered together when the lookup's notification arrives.
 */
module Hostnames {
  import opened Basics

  // ---------------------------------------------------------------------------------------------
  // The vector of requests

  /** `request` is the lookup's control block, null once a successful lookup has been answered. */
  datatype Entry = Entry(hostname: string, request: Option<nat>, handlers: seq<nat>)

  /** The argument of a handler. */
  datatype Answer<A> = Addresses(addresses: seq<A>) | ResolveFailed

  /** One invocation of a handler. */
  datatype HandlerCall<A> = HandlerCall(handler: nat, answer: Answer<A>)

  /** What the resolver left in the control block when it notifies: a list of results, or null. */
  datatype Family = Inet | Inet6 | OtherFamily
  datatype AddrInfo<A> = AddrInfo(family: Family, address: A)
  type Lookup<A> = Option<seq<AddrInfo<A>>>

  /** `convert_addresses`: the IPv4 and IPv6 results, in order. */
  function Convert<A>(infos: seq<AddrInfo<A>>): seq<A> {
    if infos == [] then []
    else
      var last := infos[|infos| - 1];
      Convert(infos[..|infos| - 1]) + if last.family == OtherFamily then [] else [last.address]
  }

  predicate Internet<A>(info: AddrInfo<A>) {
    info.family == Inet || info.family == Inet6
  }

  /**
   * The addresses are those of the results of either internet family, of all of them, and in their
   * order: `index` says where each comes from.
   */
  ghost predicate Picked<A>(infos: seq<AddrInfo<A>>, addresses: seq<A>, index: seq<nat>) {
    && |index| == |addresses|
    && (forall k :: 0 <= k < |index| ==>
          index[k] < |infos| && Internet(infos[index[k]]) && addresses[k] == infos[index[k]].address)
    && (forall j, k :: 0 <= j < k < |index| ==> index[j] < index[k])
    && (forall i: nat :: i < |infos| && Internet(infos[i]) ==> i in index)
  }

  /** One more result. */
  lemma PickedNext<A>(infos: seq<AddrInfo<A>>, addresses: seq<A>, index: seq<nat>, info: AddrInfo<A>)
    requires Picked(infos, addresses, index)
    ensures if info.family == Inet || info.family == Inet6
            then Picked(infos + [info], addresses + [info.address], index + [|infos|])
            else Picked(infos + [info], addresses, index)
  {
    forall i: nat | i < |infos| && Internet(infos[i])
      ensures i in index
    {
    }
  }

  /** The conversion picks. */
  lemma {:induction false} ConvertPicks<A>(infos: seq<AddrInfo<A>>) returns (index: seq<nat>)
    ensures Picked(infos, Convert(infos), index)
    decreases |infos|
  {
    index := [];
    if infos != [] {
      var n := |infos| - 1;
      index := ConvertPicks(infos[..n]);
      PickedNext(infos[..n], Convert(infos[..n]), index, infos[n]);
      assert infos == infos[..n] + [infos[n]];
      if infos[n].family == Inet || infos[n].family == Inet6 {
        index := index + [n];
      }
    }
  }

  method ConvertAddresses<A>(infos: seq<AddrInfo<A>>) returns (addresses: seq<A>, ghost index: seq<nat>)
    ensures Picked(infos, addresses, index)
    ensures addresses == Convert(infos)
  {
    addresses := [];
    index := ConvertPicks(infos);
    var i := 0;
    while i < |infos|
      invariant i <= |infos| && addresses == Convert(infos[..i])
    {
      if infos[i].family == Inet {
        addresses := addresses + [infos[i].address];
      } else if infos[i].family == Inet6 {
        addresses := addresses + [infos[i].address];
      }
      assert infos[..i + 1][..i] == infos[..i];
      i := i + 1;
    }
    assert infos[..|infos|] == infos;
  }

  function AnswerOf<A>(lookup: Lookup<A>): Answer<A> {
    match lookup
    case None => ResolveFailed
    case Some(infos) => Addresses(Convert(infos))
  }

  function CallAll<A>(handlers: seq<nat>, answer: Answer<A>): (calls: seq<HandlerCall<A>>)
    ensures |calls| == |handlers|
    ensures forall i :: 0 <= i < |calls| ==> calls[i] == HandlerCall(handlers[i], answer)
  {
    seq(|handlers|, i requires 0 <= i < |handlers| => HandlerCall(handlers[i], answer))
  }

  datatype State<A> = State(entries: seq<Entry>, calls: seq<HandlerCall<A>>)

  /** A request to resolve, with what `IPAddress::parse` makes of the name, or a notification. */
  datatype Op<A> =
    | Resolve(hostname: string, parsed: Option<A>, handler: nat, block: nat)
    | Notify(pointer: nat, lookup: Lookup<A>)

  /** The first entry for a name. */
  function Find(entries: seq<Entry>, hostname: string): (r: Option<nat>)
    ensures r.Some? ==> r.value < |entries| && entries[r.value].hostname == hostname
    ensures r.None? ==> forall i :: 0 <= i < |entries| ==> entries[i].hostname != hostname
  {
    if entries == [] then None
    else if entries[0].hostname == hostname then Some(0)
    else match Find(entries[1..], hostname)
      case None =>
        assert entries == [entries[0]] + entries[1..];
        None
      case Some(i) => Some(i + 1)
  }

  /**
   * `resolve_hostname`; a new control block gets the address `block`. Only a repeated request adds
   * its handler: the code that makes the entry does not (src/IOUring.cpp:942-956).
   */
  function DoResolve<A>(s: State<A>, op: Op<A>): State<A>
    requires op.Resolve?
  {
    match op.parsed
    case Some(a) => s.(calls := s.calls + [HandlerCall(op.handler, Addresses([a]))])
    case None =>
      match Find(s.entries, op.hostname)
      case Some(i) =>
        s.(entries := s.entries[i := s.entries[i].(handlers := s.entries[i].handlers + [op.handler])])
      case None => s.(entries := s.entries + [Entry(op.hostname, Some(op.block), [])])
  }

  /** The loop body of `trigger_hostname_resolve_callbacks` for one entry. */
  function Trigger<A>(e: Entry, pointer: nat, lookup: Lookup<A>): (Entry, seq<HandlerCall<A>>) {
    if e.request != Some(pointer) then (e, [])
    else (if lookup == None then e else e.(request := None), CallAll(e.handlers, AnswerOf(lookup)))
  }

  function TriggerAll<A>(s: State<A>, pointer: nat, lookup: Lookup<A>, n: nat): State<A>
    requires n <= |s.entries|
  {
    if n == 0 then s
    else
      var s1 := TriggerAll(s, pointer, lookup, n - 1);
      if n - 1 < |s1.entries| then
        var (e, calls) := Trigger(s1.entries[n - 1], pointer, lookup);
        State(s1.entries[n - 1 := e], s1.calls + calls)
      else s1
  }

  function Step<A>(s: State<A>, op: Op<A>): State<A> {
    match op
    case Resolve(_, _, _, _) => DoResolve(s, op)
    case Notify(pointer, lookup) => TriggerAll(s, pointer, lookup, |s.entries|)
  }

  /** The allocator hands out no address that is in use. */
  predicate Allowed<A>(s: State<A>, op: Op<A>) {
    op.Resolve? ==> forall i :: 0 <= i < |s.entries| ==> s.entries[i].request != Some(op.block)
  }

  predicate Legal<A>(ops: seq<Op<A>>)
    decreases |ops|, 0
  {
    ops == [] || (Legal(ops[..|ops| - 1]) && Allowed(Run(ops[..|ops| - 1]), ops[|ops| - 1]))
  }

  function Run<A>(ops: seq<Op<A>>): State<A>
    requires Legal(ops)
    decreases |ops|, 1
  {
    if ops == [] then State([], []) else Step(Run(ops[..|ops| - 1]), ops[|ops| - 1])
  }

  // ---------------------------------------------------------------------------------------------
  // One entry per name, one name per control block

  ghost predicate Coalesced(entries: seq<Entry>) {
    && (forall i, j :: 0 <= i < j < |entries| ==> entries[i].hostname != entries[j].hostname)
    && (forall i, j :: 0 <= i < j < |entries| && entries[i].request.Some? ==> entries[i].request != entries[j].request)
  }

  /** What a notification does, all entries taken together. */
  lemma {:induction false} TriggerEffect<A>(s: State<A>, pointer: nat, lookup: Lookup<A>, n: nat)
    requires n <= |s.entries|
    ensures var s' := TriggerAll(s, pointer, lookup, n);
      && |s'.entries| == |s.entries|
      && forall i :: 0 <= i < |s.entries| ==>
           s'.entries[i] == if i < n then Trigger(s.entries[i], pointer, lookup).0 else s.entries[i]
  {
    if n > 0 {
      TriggerEffect(s, pointer, lookup, n - 1);
    }
  }

  /** A pointer no entry below `n` holds calls nobody below `n`. */
  lemma {:induction false} NobodyCalled<A>(s: State<A>, pointer: nat, lookup: Lookup<A>, n: nat)
    requires n <= |s.entries| && forall i :: 0 <= i < n ==> s.entries[i].request != Some(pointer)
    ensures TriggerAll(s, pointer, lookup, n).calls == s.calls
  {
    if n > 0 {
      NobodyCalled(s, pointer, lookup, n - 1);
      TriggerEffect(s, pointer, lookup, n - 1);
    }
  }

  /** The one entry that holds the pointer has its handlers called, in order, and nobody else's. */
  lemma {:induction false} OneEntryCalled<A>(s: State<A>, pointer: nat, lookup: Lookup<A>, n: nat, k: nat)
    requires k < n <= |s.entries| && s.entries[k].request == Some(pointer)
    requires forall i :: 0 <= i < n && i != k ==> s.entries[i].request != Some(pointer)
    ensures TriggerAll(s, pointer, lookup, n).calls == s.calls + CallAll(s.entries[k].handlers, AnswerOf(lookup))
  {
    TriggerEffect(s, pointer, lookup, n - 1);
    if k == n - 1 {
      NobodyCalled(s, pointer, lookup, n - 1);
    } else {
      OneEntryCalled(s, pointer, lookup, n - 1, k);
    }
  }

  lemma ResolveKeepsCoalesced<A>(s: State<A>, op: Op<A>)
    requires Coalesced(s.entries) && op.Resolve? && Allowed(s, op)
    ensures Coalesced(DoResolve(s, op).entries)
  {
  }

  lemma NotifyKeepsCoalesced<A>(s: State<A>, op: Op<A>)
    requires Coalesced(s.entries) && op.Notify?
    ensures Coalesced(Step(s, op).entries)
  {
    TriggerEffect(s, op.pointer, op.lookup, |s.entries|);
    var entries, entries' := s.entries, Step(s, op).entries;
    forall i, j | 0 <= i < j < |entries'|
      ensures entries'[i].hostname != entries'[j].hostname
      ensures entries'[i].request.Some? ==> entries'[i].request != entries'[j].request
    {
      assert entries[i].hostname != entries[j].hostname;
      assert entries[i].request.Some? ==> entries[i].request != entries[j].request;
    }
  }

  lemma StepKeepsCoalesced<A>(s: State<A>, op: Op<A>)
    requires Coalesced(s.entries) && Allowed(s, op)
    ensures Coalesced(Step(s, op).entries)
  {
    if op.Resolve? {
      ResolveKeepsCoalesced(s, op);
    } else {
      NotifyKeepsCoalesced(s, op);
    }
  }

  lemma {:induction false} RunKeepsCoalesced<A>(ops: seq<Op<A>>)
    requires Legal(ops)
    ensures Coalesced(Run(ops).entries)
    decreases |ops|
  {
    if ops != [] {
      RunKeepsCoalesced(ops[..|ops| - 1]);
      StepKeepsCoalesced(Run(ops[..|ops| - 1]), ops[|ops| - 1]);
    }
  }

  // ---------------------------------------------------------------------------------------------
  // Who is called, told from the history alone

  /** The handlers given for a name, in order; a name that parses as an address is answered at once. */
  function Requested<A>(ops: seq<Op<A>>, hostname: string): seq<nat>
    decreases |ops|
  {
    if ops == [] then []
    else
      var last := ops[|ops| - 1];
      Requested(ops[..|ops| - 1], hostname) +
      if last.Resolve? && last.parsed == None && last.hostname == hostname then [last.handler] else []
  }

  function ButFirst(s: seq<nat>): seq<nat> {
    if s == [] then [] else s[1..]
  }

  /** The handlers a notification will call: all but the one that came with the first request. */
  function Registered<A>(ops: seq<Op<A>>, hostname: string): seq<nat> {
    ButFirst(Requested(ops, hostname))
  }

  /** The name a control block was last allocated for, if it is still waiting. */
  function Owner<A>(ops: seq<Op<A>>, pointer: nat): Option<string>
    decreases |ops|
  {
    if ops == [] then None
    else
      var before, last := ops[..|ops| - 1], ops[|ops| - 1];
      match last
      case Resolve(hostname, parsed, _, block) =>
        if block == pointer && parsed == None && Requested(before, hostname) == [] then Some(hostname)
        else Owner(before, pointer)
      case Notify(p, lookup) =>
        if p == pointer && lookup != None then None else Owner(before, pointer)
  }

  /** The reference: which calls a history causes, with no vector of entries at all. */
  function Expected<A>(ops: seq<Op<A>>): seq<HandlerCall<A>>
    decreases |ops|
  {
    if ops == [] then []
    else
      var before, last := ops[..|ops| - 1], ops[|ops| - 1];
      Expected(before) +
      match last
      case Resolve(_, Some(a), handler, _) => [HandlerCall(handler, Addresses([a]))]
      case Resolve(_, None, _, _) => []
      case Notify(pointer, lookup) =>
        match Owner(before, pointer)
        case None => []
        case Some(hostname) => CallAll(Registered(before, hostname), AnswerOf(lookup))
  }

  predicate HasName(entries: seq<Entry>, hostname: string) {
    exists i :: 0 <= i < |entries| && entries[i].hostname == hostname
  }

  predicate HasBlock(entries: seq<Entry>, pointer: nat) {
    exists i :: 0 <= i < |entries| && entries[i].request == Some(pointer)
  }

  /** An entry holds its name's handlers, and owns the block it waits for. */
  predicate EntryOk<A>(ops: seq<Op<A>>, e: Entry) {
    && Requested(ops, e.hostname) != [] && e.handlers == Registered(ops, e.hostname)
    && (e.request.Some? ==> Owner(ops, e.request.value) == Some(e.hostname))
  }

  /** The entries say what the history says. */
  ghost predicate Faithful<A>(ops: seq<Op<A>>, entries: seq<Entry>) {
    && (forall i :: 0 <= i < |entries| ==> EntryOk(ops, entries[i]))
    && (forall h: string :: Requested(ops, h) != [] ==> HasName(entries, h))
    && (forall p: nat :: Owner(ops, p).Some? ==> HasBlock(entries, p))
  }

  /** No entry, no registration. */
  lemma AbsentNotRegistered<A>(ops: seq<Op<A>>, entries: seq<Entry>, hostname: string)
    requires Faithful(ops, entries)
    ensures Find(entries, hostname) == None <==> Requested(ops, hostname) == []
  {
    match Find(entries, hostname)
    case None => assert !HasName(entries, hostname);
    case Some(i) => assert EntryOk(ops, entries[i]);
  }

  /** Entries keep their names and places; new ones come behind. */
  predicate NamesKept(entries: seq<Entry>, entries': seq<Entry>) {
    |entries| <= |entries'| && forall i :: 0 <= i < |entries| ==> entries'[i].hostname == entries[i].hostname
  }

  lemma NameStays(entries: seq<Entry>, entries': seq<Entry>, hostname: string)
    requires NamesKept(entries, entries') && HasName(entries, hostname)
    ensures HasName(entries', hostname)
  {
    var i :| 0 <= i < |entries| && entries[i].hostname == hostname;
    assert entries'[i].hostname == hostname;
  }

  /** What an operation adds to the history of a name and of a block. */
  lemma HistoryStep<A>(ops: seq<Op<A>>, op: Op<A>, hostname: string, pointer: nat)
    ensures Requested(ops + [op], hostname) ==
            Requested(ops, hostname) +
            (if op.Resolve? && op.parsed == None && op.hostname == hostname then [op.handler] else [])
    ensures Owner(ops + [op], pointer) ==
            match op
            case Resolve(h, parsed, _, block) =>
              if block == pointer && parsed == None && Requested(ops, h) == [] then Some(h) else Owner(ops, pointer)
            case Notify(p, lookup) => if p == pointer && lookup != None then None else Owner(ops, pointer)
  {
    assert (ops + [op])[..|ops|] == ops;
  }

  /** An address answered at once, or a request for another name, leaves an entry as good as it was. */
  lemma EntryUntouched<A>(ops: seq<Op<A>>, op: Op<A>, e: Entry)
    requires EntryOk(ops, e) && op.Resolve? && e.request != Some(op.block)
    requires op.parsed.Some? || op.hostname != e.hostname
    ensures EntryOk(ops + [op], e)
  {
    HistoryStep(ops, op, e.hostname, if e.request.Some? then e.request.value else 0);
  }

  /** A repeated request joins the entry. */
  lemma EntryJoined<A>(ops: seq<Op<A>>, op: Op<A>, e: Entry)
    requires EntryOk(ops, e) && op.Resolve? && op.parsed == None && op.hostname == e.hostname
    ensures EntryOk(ops + [op], e.(handlers := e.handlers + [op.handler]))
  {
    HistoryStep(ops, op, e.hostname, if e.request.Some? then e.request.value else 0);
    var before := Requested(ops, e.hostname);
    assert (before + [op.handler])[1..] == before[1..] + [op.handler];
  }

  lemma EntryMade<A>(ops: seq<Op<A>>, op: Op<A>)
    requires op.Resolve? && op.parsed == None && Requested(ops, op.hostname) == []
    ensures EntryOk(ops + [op], Entry(op.hostname, Some(op.block), []))
  {
    HistoryStep(ops, op, op.hostname, op.block);
  }

  /** With names distinct, the entry found is the only one. */
  lemma FindOnly(entries: seq<Entry>, hostname: string, k: nat)
    requires Coalesced(entries) && k < |entries| && entries[k].hostname == hostname
    ensures Find(entries, hostname) == Some(k)
  {
  }

  lemma ResolveEntry<A>(ops: seq<Op<A>>, s: State<A>, op: Op<A>, i: nat)
    requires Faithful(ops, s.entries) && Coalesced(s.entries) && op.Resolve? && Allowed(s, op)
    requires i < |DoResolve(s, op).entries|
    ensures EntryOk(ops + [op], DoResolve(s, op).entries[i])
  {
    AbsentNotRegistered(ops, s.entries, op.hostname);
    if i == |s.entries| {
      EntryMade(ops, op);
    } else {
      var e := s.entries[i];
      assert EntryOk(ops, e);
      if op.parsed == None && e.hostname == op.hostname {
        FindOnly(s.entries, op.hostname, i);
        EntryJoined(ops, op, e);
      } else {
        EntryUntouched(ops, op, e);
      }
    }
  }

  lemma ResolveKeepsFaithful<A>(ops: seq<Op<A>>, s: State<A>, op: Op<A>)
    requires Faithful(ops, s.entries) && Coalesced(s.entries) && op.Resolve? && Allowed(s, op)
    ensures Faithful(ops + [op], DoResolve(s, op).entries)
  {
    var ops', entries, entries' := ops + [op], s.entries, DoResolve(s, op).entries;
    AbsentNotRegistered(ops, entries, op.hostname);
    forall i | 0 <= i < |entries'|
      ensures EntryOk(ops', entries'[i])
    {
      ResolveEntry(ops, s, op, i);
    }
    forall h: string | Requested(ops', h) != []
      ensures HasName(entries', h)
    {
      HistoryStep(ops, op, h, 0);
      if Requested(ops, h) != [] {
        NameStays(entries, entries', h);
      } else {
        assert entries'[|entries|].hostname == h;
      }
    }
    forall p: nat | Owner(ops', p).Some?
      ensures HasBlock(entries', p)
    {
      HistoryStep(ops, op, op.hostname, p);
      if Owner(ops, p).Some? {
        var i :| 0 <= i < |entries| && entries[i].request == Some(p);
        assert entries'[i].request == Some(p);
      } else {
        assert entries'[|entries|].request == Some(p);
      }
    }
  }

  lemma NotifyEntry<A>(ops: seq<Op<A>>, op: Op<A>, e: Entry)
    requires op.Notify? && EntryOk(ops, e)
    ensures EntryOk(ops + [op], Trigger(e, op.pointer, op.lookup).0)
  {
    HistoryStep(ops, op, e.hostname, if e.request.Some? then e.request.value else 0);
  }

  lemma NotifyKeepsFaithful<A>(ops: seq<Op<A>>, s: State<A>, op: Op<A>)
    requires Faithful(ops, s.entries) && op.Notify?
    ensures Faithful(ops + [op], Step(s, op).entries)
  {
    var ops', entries, entries' := ops + [op], s.entries, Step(s, op).entries;
    TriggerEffect(s, op.pointer, op.lookup, |entries|);
    forall i | 0 <= i < |entries'|
      ensures EntryOk(ops', entries'[i])
    {
      NotifyEntry(ops, op, entries[i]);
    }
    forall h: string | Requested(ops', h) != []
      ensures HasName(entries', h)
    {
      HistoryStep(ops, op, h, 0);
      NameStays(entries, entries', h);
    }
    forall p: nat | Owner(ops', p).Some?
      ensures HasBlock(entries', p)
    {
      NotifyBlock(ops, s, op, p);
    }
  }

  lemma NotifyBlock<A>(ops: seq<Op<A>>, s: State<A>, op: Op<A>, p: nat)
    requires op.Notify? && Owner(ops + [op], p).Some? && (Owner(ops, p).Some? ==> HasBlock(s.entries, p))
    ensures HasBlock(Step(s, op).entries, p)
  {
    HistoryStep(ops, op, "", p);
    TriggerEffect(s, op.pointer, op.lookup, |s.entries|);
    var i :| 0 <= i < |s.entries| && s.entries[i].request == Some(p);
    assert Step(s, op).entries[i].request == Some(p);
  }

  lemma StepKeepsFaithful<A>(ops: seq<Op<A>>, s: State<A>, op: Op<A>)
    requires Faithful(ops, s.entries) && Coalesced(s.entries) && Allowed(s, op)
    ensures Faithful(ops + [op], Step(s, op).entries)
  {
    if op.Resolve? {
      ResolveKeepsFaithful(ops, s, op);
    } else {
      NotifyKeepsFaithful(ops, s, op);
    }
  }

  lemma StepCalls<A>(ops: seq<Op<A>>, s: State<A>, op: Op<A>)
    requires Faithful(ops, s.entries) && Coalesced(s.entries) && s.calls == Expected(ops)
    ensures Step(s, op).calls == Expected(ops + [op])
  {
    assert (ops + [op])[..|ops|] == ops;
    if op.Notify? {
      match Owner(ops, op.pointer)
      case None =>
        assert forall i :: 0 <= i < |s.entries| ==> EntryOk(ops, s.entries[i]);
        NobodyCalled(s, op.pointer, op.lookup, |s.entries|);
      case Some(h) =>
        assert HasBlock(s.entries, op.pointer);
        var k :| 0 <= k < |s.entries| && s.entries[k].request == Some(op.pointer);
        assert EntryOk(ops, s.entries[k]);
        OneEntryCalled(s, op.pointer, op.lookup, |s.entries|, k);
    }
  }

  /** One operation more. */
  lemma CallsNext<A>(ops: seq<Op<A>>, op: Op<A>)
    requires Legal(ops) && Allowed(Run(ops), op)
    requires Run(ops).calls == Expected(ops) && Coalesced(Run(ops).entries) && Faithful(ops, Run(ops).entries)
    ensures Legal(ops + [op]) && Run(ops + [op]).calls == Expected(ops + [op])
    ensures Faithful(ops + [op], Run(ops + [op]).entries)
  {
    RunStep(ops, op);
    StepCalls(ops, Run(ops), op);
    StepKeepsFaithful(ops, Run(ops), op);
  }

  /**
   * Coalescing over runs. A notification of a name's outstanding lookup calls, once each and in
   * order, the handlers given for that name so far but for the first; a name that parses as an
   * address is answered at once; nothing else is called.
   */
  lemma {:induction false} CallsAsRegistered<A>(ops: seq<Op<A>>)
    requires Legal(ops)
    ensures Run(ops).calls == Expected(ops)
    ensures Coalesced(Run(ops).entries) && Faithful(ops, Run(ops).entries)
    decreases |ops|
  {
    RunKeepsCoalesced(ops);
    if ops != [] {
      var before, last := ops[..|ops| - 1], ops[|ops| - 1];
      CallsAsRegistered(before);
      CallsNext(before, last);
      assert ops == before + [last];
    }
  }

  // ---------------------------------------------------------------------------------------------
  // The handler that is never called

  /** What callers would expect: every handler given for the name so far is called. */
  function Promised<A>(ops: seq<Op<A>>): seq<HandlerCall<A>>
    decreases |ops|
  {
    if ops == [] then []
    else
      var before, last := ops[..|ops| - 1], ops[|ops| - 1];
      Promised(before) +
      match last
      case Resolve(_, Some(a), handler, _) => [HandlerCall(handler, Addresses([a]))]
      case Resolve(_, None, _, _) => []
      case Notify(pointer, lookup) =>
        match Owner(before, pointer)
        case None => []
        case Some(hostname) => CallAll(Requested(before, hostname), AnswerOf(lookup))
  }

  /** How many notifications found a lookup waiting. */
  function Answered<A>(ops: seq<Op<A>>): nat
    decreases |ops|
  {
    if ops == [] then 0
    else
      var before, last := ops[..|ops| - 1], ops[|ops| - 1];
      Answered(before) + if last.Notify? && Owner(before, last.pointer).Some? then 1 else 0
  }

  lemma {:induction false} OwnersWereRequested<A>(ops: seq<Op<A>>, pointer: nat)
    requires Owner(ops, pointer).Some?
    ensures Requested(ops, Owner(ops, pointer).value) != []
    decreases |ops|
  {
    var before := ops[..|ops| - 1];
    if Owner(before, pointer).Some? {
      OwnersWereRequested(before, pointer);
    }
  }

  /** Each answered lookup falls one call short. */
  lemma {:induction false} OneCallLostPerAnswer<A>(ops: seq<Op<A>>)
    ensures |Promised(ops)| == |Expected(ops)| + Answered(ops)
    ensures Answered(ops) == 0 ==> Promised(ops) == Expected(ops)
    decreases |ops|
  {
    if ops != [] {
      var before, last := ops[..|ops| - 1], ops[|ops| - 1];
      OneCallLostPerAnswer(before);
      if last.Notify? && Owner(before, last.pointer).Some? {
        OwnersWereRequested(before, last.pointer);
      }
    }
  }

  /** Every handler is called as callers would expect if and only if no lookup was ever answered. */
  lemma AllHandlersCalledIff<A>(ops: seq<Op<A>>)
    requires Legal(ops)
    ensures Run(ops).calls == Promised(ops) <==> Answered(ops) == 0
  {
    CallsAsRegistered(ops);
    OneCallLostPerAnswer(ops);
  }

  lemma RunStep<A>(ops: seq<Op<A>>, op: Op<A>)
    requires Legal(ops) && Allowed(Run(ops), op)
    ensures Legal(ops + [op]) && Run(ops + [op]) == Step(Run(ops), op)
  {
    assert (ops + [op])[..|ops|] == ops;
  }

  /** The handlers in the entry for a name, if there is one. */
  function HandlersFor(entries: seq<Entry>, hostname: string): seq<nat> {
    match Find(entries, hostname)
    case None => []
    case Some(i) => entries[i].handlers
  }

  /**
   * Over every run, a request for a name leaves an entry for it whose handlers end in the new one if
   * and only if the name was asked for before; if it was not, the entry has no handler at all.
   */
  lemma HandlerKeptIff<A>(ops: seq<Op<A>>, op: Op<A>)
    requires Legal(ops) && Allowed(Run(ops), op) && op.Resolve? && op.parsed == None
    ensures Legal(ops + [op])
    ensures var entries := Run(ops + [op]).entries; var handlers := HandlersFor(entries, op.hostname);
      && Find(entries, op.hostname).Some?
      && (handlers != [] && handlers[|handlers| - 1] == op.handler <==> Requested(ops, op.hostname) != [])
      && (Requested(ops, op.hostname) == [] ==> handlers == [])
      && (Requested(ops, op.hostname) != [] ==> |handlers| == |Requested(ops, op.hostname)|)
  {
    RunStep(ops, op);
    CallsAsRegistered(ops);
    CallsAsRegistered(ops + [op]);
    HistoryStep(ops, op, op.hostname, 0);
    var entries := Run(ops + [op]).entries;
    AbsentNotRegistered(ops + [op], entries, op.hostname);
    assert EntryOk(ops + [op], entries[Find(entries, op.hostname).value]);
  }

  /** Later operations add their handlers behind. */
  lemma {:induction false} RequestedGrows<A>(ops: seq<Op<A>>, later: seq<Op<A>>, hostname: string)
    returns (rest: seq<nat>)
    ensures Requested(ops + later, hostname) == Requested(ops, hostname) + rest
    decreases |later|
  {
    if later == [] {
      assert ops + later == ops;
      rest := [];
    } else {
      var n := |later| - 1;
      assert (ops + later)[..|ops| + n] == ops + later[..n] && (ops + later)[|ops| + n] == later[n];
      rest := RequestedGrows(ops, later[..n], hostname);
      HistoryStep(ops + later[..n], later[n], hostname, 0);
      assert ops + later == ops + later[..n] + [later[n]];
      var op := later[n];
      rest := rest + if op.Resolve? && op.parsed == None && op.hostname == hostname then [op.handler] else [];
    }
  }

  /** What one notification of a name's outstanding lookup calls, after any run. */
  lemma NotificationCalls<A>(ops: seq<Op<A>>, hostname: string, pointer: nat, lookup: Lookup<A>)
    requires Legal(ops) && Owner(ops, pointer) == Some(hostname)
    ensures var next := ops + [Notify(pointer, lookup)];
      Legal(next) && Run(next).calls == Run(ops).calls + CallAll(Registered(ops, hostname), AnswerOf(lookup))
  {
    var op := Notify(pointer, lookup);
    RunStep(ops, op);
    CallsAsRegistered(ops);
    CallsAsRegistered(ops + [op]);
    assert (ops + [op])[..|ops|] == ops;
  }

  /** The calls a notification adds: one for each handler, in order, all with the same answer. */
  ghost predicate AddsCalls<A>(calls: seq<HandlerCall<A>>, calls': seq<HandlerCall<A>>, handlers: seq<nat>,
                               answer: Answer<A>) {
    && |calls'| == |calls| + |handlers| && calls'[..|calls|] == calls
    && forall i :: 0 <= i < |handlers| ==> calls'[|calls| + i] == HandlerCall(handlers[i], answer)
  }

  lemma CallAllAdds<A>(calls: seq<HandlerCall<A>>, handlers: seq<nat>, answer: Answer<A>)
    ensures AddsCalls(calls, calls + CallAll(handlers, answer), handlers, answer)
  {
  }

  /**
   * After any run: when the lookup of a name fails, each handler due is told of the failure, once and
   * in order, and the entry goes on waiting for the same block.
   */
  lemma FailureIsTold<A>(ops: seq<Op<A>>, hostname: string, pointer: nat)
    requires Legal(ops) && Owner(ops, pointer) == Some(hostname)
    ensures var next := ops + [Notify(pointer, None)];
      && Legal(next)
      && AddsCalls(Run(ops).calls, Run(next).calls, Registered(ops, hostname), ResolveFailed)
      && Run(next).entries == Run(ops).entries
      && Owner(next, pointer) == Some(hostname)
  {
    var op: Op<A> := Notify(pointer, None);
    NotificationCalls(ops, hostname, pointer, op.lookup);
    CallAllAdds(Run(ops).calls, Registered(ops, hostname), ResolveFailed);
    HistoryStep(ops, op, hostname, pointer);
    RunStep(ops, op);
    TriggerEffect(Run(ops), pointer, op.lookup, |Run(ops).entries|);
  }

  /**
   * When it succeeds, each handler due is told the addresses picked from the results, and the entry
   * waits no more.
   */
  lemma AddressesAreTold<A>(ops: seq<Op<A>>, hostname: string, pointer: nat, infos: seq<AddrInfo<A>>)
    returns (addresses: seq<A>, index: seq<nat>)
    requires Legal(ops) && Owner(ops, pointer) == Some(hostname)
    ensures Picked(infos, addresses, index)
    ensures var next := ops + [Notify(pointer, Some(infos))];
      && Legal(next)
      && AddsCalls(Run(ops).calls, Run(next).calls, Registered(ops, hostname), Addresses(addresses))
      && Owner(next, pointer) == None
      && forall i :: 0 <= i < |Run(next).entries| ==> Run(next).entries[i].request != Some(pointer)
  {
    var op: Op<A> := Notify(pointer, Some(infos));
    addresses := Convert(infos);
    index := ConvertPicks(infos);
    NotificationCalls(ops, hostname, pointer, op.lookup);
    CallAllAdds(Run(ops).calls, Registered(ops, hostname), Addresses(addresses));
    HistoryStep(ops, op, hostname, pointer);
    RunStep(ops, op);
    TriggerEffect(Run(ops), pointer, op.lookup, |Run(ops).entries|);
  }

  /**
   * Whatever is asked for, and answered, between a request and the notification of the lookup it
   * waits for: the notification calls the handlers of earlier requests but the first, then this
   * one's, then those of the later ones, if and only if the name was asked for before. Otherwise it
   * calls the later ones' only.
   */
  lemma HandlerCalledIff<A>(ops: seq<Op<A>>, op: Op<A>, later: seq<Op<A>>, pointer: nat, lookup: Lookup<A>)
    returns (rest: seq<nat>)
    requires op.Resolve? && op.parsed == None
    requires Legal(ops + [op] + later) && Owner(ops + [op] + later, pointer) == Some(op.hostname)
    ensures var until := ops + [op] + later; var next := until + [Notify(pointer, lookup)];
      var earlier := Requested(ops, op.hostname);
      && Legal(next)
      && Requested(until, op.hostname) == earlier + [op.handler] + rest
      && (Run(next).calls == Run(until).calls + CallAll(ButFirst(earlier) + [op.handler] + rest, AnswerOf(lookup))
          <==> earlier != [])
      && (earlier == [] ==> Run(next).calls == Run(until).calls + CallAll(rest, AnswerOf(lookup)))
  {
    var until, earlier := ops + [op] + later, Requested(ops, op.hostname);
    rest := RequestedGrows(ops + [op], later, op.hostname);
    HistoryStep(ops, op, op.hostname, 0);
    NotificationCalls(until, op.hostname, pointer, lookup);
    if earlier != [] {
      assert ButFirst(earlier + [op.handler] + rest) == ButFirst(earlier) + [op.handler] + rest;
    } else {
      assert ButFirst([op.handler] + rest) == rest;
      assert |CallAll([op.handler] + rest, AnswerOf(lookup))| == 1 + |CallAll(rest, AnswerOf(lookup))|;
    }
  }

  /** One request, from the start. */
  lemma FirstRequest<A>(op: Op<A>)
    requires op.Resolve? && op.parsed == None
    ensures Legal([op]) && Run([op]).calls == [] && Promised([op]) == []
    ensures Requested([op], op.hostname) == [op.handler] && Owner([op], op.block) == Some(op.hostname)
  {
    var none: seq<Op<A>> := [];
    assert none + [op] == [op] && [op][..0] == none;
    RunStep(none, op);
    HistoryStep(none, op, op.hostname, op.block);
  }

  /** What a notification adds to the promised calls. */
  lemma PromisedNext<A>(ops: seq<Op<A>>, hostname: string, pointer: nat, lookup: Lookup<A>)
    requires Owner(ops, pointer) == Some(hostname)
    ensures Promised(ops + [Notify(pointer, lookup)]) ==
            Promised(ops) + CallAll(Requested(ops, hostname), AnswerOf(lookup))
  {
    assert (ops + [Notify(pointer, lookup)])[..|ops|] == ops;
  }

  /** One request and its successful lookup, from the start: the handler is not called. */
  lemma FirstHandlerNotCalled<A>(hostname: string, handler: nat, block: nat, infos: seq<AddrInfo<A>>)
    ensures var ops := [Resolve(hostname, None, handler, block)] + [Notify(block, Some(infos))];
      && Legal(ops) && Run(ops).calls == []
      && Promised(ops) == [HandlerCall(handler, Addresses(Convert(infos)))]
  {
    var op: Op<A> := Resolve(hostname, None, handler, block);
    FirstRequest(op);
    NotificationCalls([op], hostname, block, Some(infos));
    PromisedNext([op], hostname, block, Some(infos));
    assert Registered([op], hostname) == [];
    assert CallAll([handler], AnswerOf(Some(infos))) == [HandlerCall(handler, Addresses(Convert(infos)))];
  }

  // ---------------------------------------------------------------------------------------------

  /** One operation leaves an answered entry answered, under the same name. */
  lemma StepKeepsAnswered<A>(s: State<A>, op: Op<A>, i: nat)
    requires i < |s.entries| && s.entries[i].request == None
    ensures var s' := Step(s, op);
      i < |s'.entries| && s'.entries[i].hostname == s.entries[i].hostname && s'.entries[i].request == None
  {
    if op.Notify? {
      TriggerEffect(s, op.pointer, op.lookup, |s.entries|);
    }
  }

  /** An answered entry's name waits for no block: by the reference, no notification calls its handlers. */
  lemma AnsweredOwnsNothing<A>(ops: seq<Op<A>>, entries: seq<Entry>, i: nat, p: nat)
    requires Faithful(ops, entries) && Coalesced(entries) && i < |entries| && entries[i].request == None
    ensures Owner(ops, p) != Some(entries[i].hostname)
  {
    if Owner(ops, p) == Some(entries[i].hostname) {
      assert HasBlock(entries, p);
      var k :| 0 <= k < |entries| && entries[k].request == Some(p);
      OwnerIsUnique(ops, entries, i, k);
    }
  }

  lemma OwnerIsUnique<A>(ops: seq<Op<A>>, entries: seq<Entry>, i: nat, k: nat)
    requires Faithful(ops, entries) && Coalesced(entries) && i < |entries| && k < |entries|
    requires entries[k].request.Some? && Owner(ops, entries[k].request.value) == Some(entries[i].hostname)
    ensures i == k
  {
    assert EntryOk(ops, entries[k]);
  }

  /** After a successful lookup its name's entry stays answered: no later operation calls its handlers. */
  lemma {:induction false} AnsweredForGood<A>(ops: seq<Op<A>>, later: seq<Op<A>>, i: nat)
    requires Legal(ops + later) && Legal(ops) && i < |Run(ops).entries| && Run(ops).entries[i].request == None
    ensures var s, s' := Run(ops), Run(ops + later);
      && i < |s'.entries| && s'.entries[i].hostname == s.entries[i].hostname && s'.entries[i].request == None
      && forall p: nat :: Owner(ops + later, p) != Some(s.entries[i].hostname)
    decreases |later|
  {
    if later == [] {
      assert ops + later == ops;
    } else {
      var n := |later| - 1;
      assert (ops + later)[..|ops + later| - 1] == ops + later[..n] && (ops + later)[|ops + later| - 1] == later[n];
      AnsweredForGood(ops, later[..n], i);
      StepKeepsAnswered(Run(ops + later[..n]), later[n], i);
    }
    CallsAsRegistered(ops + later);
    forall p: nat
      ensures Owner(ops + later, p) != Some(Run(ops).entries[i].hostname)
    {
      AnsweredOwnsNothing(ops + later, Run(ops + later).entries, i, p);
    }
  }

  // ---------------------------------------------------------------------------------------------
  // The imperative resolver

  class RequestInfo {
    var hostname: string
    var request: Option<nat>
    var allRequests: Option<nat>
    var handlers: seq<nat>

    ghost function Value(): Entry
      reads this
    {
      Entry(hostname, request, handlers)
    }

    constructor (hostname: string, block: nat)
      ensures Value() == Entry(hostname, Some(block), []) && allRequests == request
    {
      this.hostname := hostname;
      request, allRequests, handlers := Some(block), Some(block), [];
    }

    /** The move constructor: the new object takes everything over, the old one lets go of its block. */
    constructor Move(arg: RequestInfo)
      modifies arg
      ensures Value() == old(arg.Value()) && allRequests == request
      ensures arg.request == None && arg.allRequests == None
    {
      hostname := arg.hostname;
      handlers := arg.handlers;
      request := arg.request;
      allRequests := arg.request;
      new;
      arg.hostname, arg.handlers := "", [];
      arg.request := None;
      arg.allRequests := None;
    }
  }

  ghost function EntriesOf(requests: seq<RequestInfo>): (r: seq<Entry>)
    reads requests
    ensures |r| == |requests|
    ensures forall i :: 0 <= i < |r| ==> r[i] == requests[i].Value()
  {
    seq(|requests|, i requires 0 <= i < |requests| reads requests => requests[i].Value())
  }

  class HostnameResolver<A> {
    var requests: seq<RequestInfo>
    var capacity: nat
    ghost var calls: seq<HandlerCall<A>>

    ghost predicate Valid()
      reads this
    {
      forall i, j :: 0 <= i < j < |requests| ==> requests[i] != requests[j]
    }

    ghost function Value(): State<A>
      reads this, requests
    {
      State(EntriesOf(requests), calls)
    }

    constructor ()
      ensures Valid() && Value() == State([], [])
    {
      requests, capacity, calls := [], 0, [];
    }

    /** The vector grows: every entry is moved into new storage, and none is changed by it. */
    method Grow()
      requires Valid()
      modifies this`requests, this`capacity, requests
      ensures Valid() && Value() == old(Value()) && capacity > |requests|
      ensures forall i :: 0 <= i < |requests| ==> fresh(requests[i])
    {
      var before := requests;
      var moved: seq<RequestInfo> := [];
      var i := 0;
      while i < |before|
        invariant i <= |before| && |moved| == i && requests == before
        invariant forall k :: 0 <= k < i ==> fresh(moved[k])
        invariant forall j, k :: 0 <= j < k < i ==> moved[j] != moved[k]
        invariant forall k :: 0 <= k < i ==> moved[k].Value() == old(before[k].Value())
        invariant forall k :: i <= k < |before| ==> before[k].Value() == old(before[k].Value())
      {
        var info := new RequestInfo.Move(before[i]);
        moved := moved + [info];
        i := i + 1;
      }
      requests := moved;
      capacity := 2 * |moved| + 1;
      assert EntriesOf(requests) == old(EntriesOf(requests));
    }

    /** `resolve_hostname`. */
    method ResolveHostname(hostname: string, parsed: Option<A>, handler: nat, block: nat)
      requires Valid()
      modifies this, requests
      ensures Valid() && Value() == DoResolve(old(Value()), Resolve(hostname, parsed, handler, block))
    {
      if parsed.Some? {
        calls := calls + [HandlerCall(handler, Addresses([parsed.value]))];
        return;
      }
      ghost var entries := EntriesOf(requests);
      var i := 0;
      while i < |requests|
        invariant i <= |requests|
        invariant forall k :: 0 <= k < i ==> entries[k].hostname != hostname
      {
        if requests[i].hostname == hostname {
          FindFirst(entries, hostname, i);
          requests[i].handlers := requests[i].handlers + [handler];
          assert EntriesOf(requests) == entries[i := entries[i].(handlers := entries[i].handlers + [handler])];
          return;
        }
        i := i + 1;
      }
      EmplaceBack(hostname, block);
      assert Find(entries, hostname) == None;
    }

    /** `emplace_back`: a new entry behind the others, which may have to move for it. */
    method EmplaceBack(hostname: string, block: nat)
      requires Valid()
      modifies this`requests, this`capacity, requests
      ensures Valid() && calls == old(calls)
      ensures EntriesOf(requests) == old(EntriesOf(requests)) + [Entry(hostname, Some(block), [])]
    {
      if |requests| == capacity {
        Grow();
      }
      ghost var entries := Value().entries;
      var info := new RequestInfo(hostname, block);
      requests := requests + [info];
      assert EntriesOf(requests) == entries + [info.Value()];
    }

    /** `trigger_hostname_resolve_callbacks`: every entry is looked at, one is expected to match. */
    method TriggerHostnameCallbacks(pointer: nat, lookup: Lookup<A>)
      requires Valid()
      modifies this`calls, requests
      ensures Valid() && Value() == TriggerAll(old(Value()), pointer, lookup, |old(requests)|)
    {
      ghost var s := Value();
      var i := 0;
      while i < |requests|
        invariant i <= |requests|
        invariant Value() == TriggerAll(s, pointer, lookup, i)
      {
        TriggerEffect(s, pointer, lookup, i);
        TriggerEntry(i, pointer, lookup);
        i := i + 1;
      }
    }

    /** The body of the loop. */
    method TriggerEntry(i: nat, pointer: nat, lookup: Lookup<A>)
      requires Valid() && i < |requests|
      modifies this`calls, requests
      ensures requests == old(requests) && Valid()
      ensures var (e, more) := Trigger(old(Value()).entries[i], pointer, lookup);
        Value() == State(old(Value()).entries[i := e], old(calls) + more)
    {
      ghost var s := Value();
      var it := requests[i];
      if it.request == Some(pointer) {
        var answer: Answer<A> := ResolveFailed;
        if lookup.Some? {
          var addresses, _ := ConvertAddresses(lookup.value);
          answer := Addresses(addresses);
          it.request := None;
        }
        CallHandlers(it, answer);
        assert EntriesOf(requests) == s.entries[i := Trigger(s.entries[i], pointer, lookup).0];
      } else {
        assert s.entries[i := s.entries[i]] == s.entries;
        assert s.calls + [] == s.calls;
      }
    }

    /** The inner loop: each handler of the entry, in order. */
    method CallHandlers(it: RequestInfo, answer: Answer<A>)
      modifies this`calls
      ensures calls == old(calls) + CallAll(it.handlers, answer)
    {
      var k := 0;
      while k < |it.handlers|
        invariant k <= |it.handlers|
        invariant calls == old(calls) + CallAll(it.handlers[..k], answer)
      {
        calls := calls + [HandlerCall(it.handlers[k], answer)];
        assert CallAll(it.handlers[..k + 1], answer)
               == CallAll(it.handlers[..k], answer) + [HandlerCall(it.handlers[k], answer)];
        k := k + 1;
      }
      assert it.handlers[..|it.handlers|] == it.handlers;
    }
  }

  /** The first entry with the name is the one `Find` finds. */
  lemma {:induction false} FindFirst(entries: seq<Entry>, hostname: string, i: nat)
    requires i < |entries| && entries[i].hostname == hostname
    requires forall k :: 0 <= k < i ==> entries[k].hostname != hostname
    ensures Find(entries, hostname) == Some(i)
  {
    if i > 0 {
      FindFirst(entries[1..], hostname, i - 1);
    }
  }
}
