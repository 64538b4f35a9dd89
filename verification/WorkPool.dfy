/**
 * The recycled-id work-item pool of src/WorkPool.cpp and the per-request state of src/WorkItem.hpp.
 *
 * A work item is identified to the kernel by its slot index only. Its identity in memory is another
 * matter: every allocation makes a new object. The specification numbers objects by the order of
 * their allocation, so that slot `id` holding object `o` reads `slots[id] == Some(o)`.
 */
module WorkPools {
  import opened Basics

  datatype Kind = Unknown | Accept | SendStreamData | SendWorkPacket | Recv | Connect | Close

  /** The alternatives of the stored callback variant. */
  datatype Alternative = ConnectFn | AcceptFn | RecvFn | SendFn | CloseFn

  /** `fn` stands for the stored function; 0 is the empty one a fresh variant holds. */
  datatype Item = Item(id: nat, inUse: bool, kind: Kind, stream: bool, alt: Alternative, fn: nat)

  datatype Pool = Pool(slots: seq<Option<nat>>, freeIds: seq<nat>, objs: seq<Item>)

  const EMPTY_POOL := Pool([], [], [])

  function FreshItem(id: nat, stream: bool): Item {
    Item(id, true, Unknown, stream, ConnectFn, 0)
  }

  /** `internal_alloc_work_item`: pop a free id, or grow the slot vector; the new object is `|p.objs|`. */
  function Alloc(p: Pool, stream: bool): Pool {
    var o := |p.objs|;
    if p.freeIds == [] then
      Pool(p.slots + [Some(o)], p.freeIds, p.objs + [FreshItem(|p.slots|, stream)])
    else
      var id := p.freeIds[|p.freeIds| - 1];
      Pool(if id < |p.slots| then p.slots[id := Some(o)] else p.slots,
           p.freeIds[..|p.freeIds| - 1],
           p.objs + [FreshItem(id, stream)])
  }

  /** The object in slot `id`, if the slot exists and is not null. */
  function Lookup(p: Pool, id: nat): Option<nat> {
    if id < |p.slots| then p.slots[id] else None
  }

  /** No assertion of `free_work_item` fires. */
  predicate CanFree(p: Pool, id: nat) {
    match Lookup(p, id)
    case None => false
    case Some(o) => o < |p.objs| && p.objs[o].inUse
  }

  /** `free_work_item`: mark the item free, clear the slot, push the id. */
  function Free(p: Pool, id: nat): Pool
    requires CanFree(p, id)
  {
    var o := p.slots[id].value;
    Pool(p.slots[id := None], p.freeIds + [id], p.objs[o := p.objs[o].(inUse := false)])
  }

  /** The assignments of the `WorkItem::submit` overloads, made together. */
  function Assign(p: Pool, o: nat, kind: Kind, alt: Alternative, fn: nat): Pool
    requires o < |p.objs|
  {
    p.(objs := p.objs[o := p.objs[o].(kind := kind, alt := alt, fn := fn)])
  }

  // ---------------------------------------------------------------------------------------------
  // The representation invariant

  /** The free stack lists each null slot once and nothing else. */
  ghost predicate FreeStackExact(p: Pool) {
    && Distinct(p.freeIds)
    && (forall k :: 0 <= k < |p.freeIds| ==> p.freeIds[k] < |p.slots| && p.slots[p.freeIds[k]] == None)
    && (forall id :: 0 <= id < |p.slots| && p.slots[id] == None ==> id in p.freeIds)
  }

  /** Slot `id` holds an in-use object that knows it is number `id`. */
  predicate SlotOk(p: Pool, id: nat)
    requires id < |p.slots|
  {
    p.slots[id].Some? ==>
      p.slots[id].value < |p.objs| && p.objs[p.slots[id].value].id == id && p.objs[p.slots[id].value].inUse
  }

  /** An in-use object sits in the slot it names. */
  predicate HomeOk(p: Pool, o: nat)
    requires o < |p.objs|
  {
    p.objs[o].inUse ==> Lookup(p, p.objs[o].id) == Some(o)
  }

  ghost predicate PoolOk(p: Pool) {
    && FreeStackExact(p)
    && (forall id: nat :: id < |p.slots| ==> SlotOk(p, id))
    && HomesOk(p)
  }

  ghost predicate HomesOk(p: Pool) {
    forall o: nat :: o < |p.objs| ==> HomeOk(p, o)
  }

  /** Allocation keeps the invariant; the id it hands out was not in any live slot. */
  lemma AllocOk(p: Pool, stream: bool)
    requires PoolOk(p)
    ensures var p' := Alloc(p, stream); var o := |p.objs|;
      && PoolOk(p')
      && |p'.objs| == o + 1
      && p'.objs[..o] == p.objs
      && p'.objs[o] == FreshItem(p'.objs[o].id, stream)
      && Lookup(p, p'.objs[o].id) == None
      && Lookup(p', p'.objs[o].id) == Some(o)
      && (forall id: nat :: id != p'.objs[o].id ==> Lookup(p', id) == Lookup(p, id))
  {
    var p' := Alloc(p, stream);
    var o := |p.objs|;
    if p.freeIds != [] {
      var top := p.freeIds[|p.freeIds| - 1];
      assert p.slots[top] == None;
      forall id | 0 <= id < |p'.slots| && p'.slots[id] == None
        ensures id in p'.freeIds
      {
        assert id in p.freeIds;
      }
    }
    forall x: nat | x < |p'.objs|
      ensures HomeOk(p', x)
    {
      if x < o {
        assert HomeOk(p, x);
      }
    }
    forall id: nat | id < |p'.slots|
      ensures SlotOk(p', id)
    {
      if id < |p.slots| {
        assert SlotOk(p, id);
      }
    }
  }

  /** Freeing keeps the invariant and clears exactly one slot. */
  lemma FreeOk(p: Pool, id: nat)
    requires PoolOk(p) && Lookup(p, id).Some?
    ensures CanFree(p, id)
    ensures var p' := Free(p, id);
      && PoolOk(p')
      && |p'.objs| == |p.objs|
      && Lookup(p', id) == None
      && (forall k: nat :: k != id ==> Lookup(p', k) == Lookup(p, k))
      && (forall o: nat :: o < |p.objs| ==>
            p'.objs[o] == if Lookup(p, id) == Some(o) then p.objs[o].(inUse := false) else p.objs[o])
  {
    assert SlotOk(p, id);
    var p' := Free(p, id);
    var o := p.slots[id].value;
    assert forall k :: 0 <= k < |p.freeIds| ==> p.freeIds[k] != id;
    forall k | 0 <= k < |p'.slots| && p'.slots[k] == None
      ensures k in p'.freeIds
    {
      if k != id {
        assert k in p.freeIds;
      }
      assert p'.freeIds[|p.freeIds|] == id;
    }
    forall k: nat | k < |p'.slots|
      ensures SlotOk(p', k)
    {
      assert SlotOk(p, k);
    }
    forall x: nat | x < |p'.objs|
      ensures HomeOk(p', x)
    {
      assert HomeOk(p, x);
    }
  }

  /** The stack is last-in first-out: an id just freed is the next one handed out, to a new object. */
  lemma FreedIdIsNext(p: Pool, id: nat, stream: bool)
    requires PoolOk(p) && Lookup(p, id).Some? && CanFree(p, id)
    ensures var p' := Alloc(Free(p, id), stream);
      && Lookup(p', id) == Some(|p.objs|)
      && p'.objs[|p.objs|].id == id
      && p'.freeIds == p.freeIds && |p'.slots| == |p.slots|
      && Lookup(p', id) != Lookup(p, id)
  {
  }

  lemma AssignOk(p: Pool, o: nat, kind: Kind, alt: Alternative, fn: nat)
    requires PoolOk(p) && o < |p.objs|
    ensures PoolOk(Assign(p, o, kind, alt, fn))
  {
    var p' := Assign(p, o, kind, alt, fn);
    forall x: nat | x < |p'.objs|
      ensures HomeOk(p', x)
    {
      assert HomeOk(p, x);
    }
    forall id: nat | id < |p'.slots|
      ensures SlotOk(p', id)
    {
      assert SlotOk(p, id);
    }
  }

  /** The number of live items. */
  function Live(p: Pool): int {
    |p.slots| - |p.freeIds|
  }

  /** The objects now in use. */
  ghost function LiveObjects(p: Pool): set<nat> {
    set o: nat | o < |p.objs| && p.objs[o].inUse
  }

  ghost function UsedIds(p: Pool): set<nat> {
    Elems(Iota(|p.slots|)) - Elems(p.freeIds)
  }

  lemma UsedIdsExact(p: Pool, id: nat)
    requires PoolOk(p)
    ensures id in UsedIds(p) <==> Lookup(p, id).Some?
  {
    if id < |p.slots| {
      assert Iota(|p.slots|)[id] == id;
      if p.slots[id] == None {
        assert id in p.freeIds;
      }
    }
  }

  lemma UsedIdsCount(p: Pool)
    requires PoolOk(p)
    ensures |UsedIds(p)| == Live(p)
  {
    var ids := Elems(Iota(|p.slots|));
    DistinctCount(Iota(|p.slots|));
    DistinctCount(p.freeIds);
    forall id | id in p.freeIds
      ensures id in ids
    {
      assert Iota(|p.slots|)[id] == id;
    }
    assert Elems(p.freeIds) <= ids;
    assert ids == UsedIds(p) + Elems(p.freeIds);
  }

  /** What the count counts: `Live` is the number of in-use objects, whatever their history. */
  lemma LiveCounts(p: Pool)
    requires PoolOk(p)
    ensures Live(p) == |LiveObjects(p)|
  {
    UsedIdsCount(p);
    forall id | id in UsedIds(p)
      ensures Lookup(p, id).Some? && Lookup(p, id).value in LiveObjects(p)
    {
      UsedIdsExact(p, id);
      assert SlotOk(p, id);
    }
    forall o | o in LiveObjects(p)
      ensures p.objs[o].id in UsedIds(p)
    {
      assert HomeOk(p, o);
      UsedIdsExact(p, p.objs[o].id);
    }
    Bijection(p, UsedIds(p), LiveObjects(p));
  }

  lemma {:induction false} Bijection(p: Pool, ids: set<nat>, objs: set<nat>)
    requires PoolOk(p)
    requires forall id :: id in ids ==> Lookup(p, id).Some? && Lookup(p, id).value in objs
    requires forall o :: o in objs ==> o < |p.objs| && p.objs[o].inUse && p.objs[o].id in ids
    ensures |ids| == |objs|
    decreases ids
  {
    if ids == {} {
      assert objs == {};
    } else {
      var id :| id in ids;
      var o := Lookup(p, id).value;
      assert SlotOk(p, id);
      forall x | x in objs - {o}
        ensures p.objs[x].id in ids - {id}
      {
        assert HomeOk(p, x);
      }
      forall k | k in ids - {id}
        ensures Lookup(p, k).value in objs - {o}
      {
        assert SlotOk(p, k);
      }
      Bijection(p, ids - {id}, objs - {o});
    }
  }

  // ---------------------------------------------------------------------------------------------
  // The imperative pool

  class WorkItem {
    const id: nat
    const stream: bool
    var inUse: bool
    var kind: Kind
    var alt: Alternative
    var fn: nat
    /** The allocation number of this object: its identity. */
    const serial: nat

    constructor (id: nat, stream: bool, serial: nat)
      ensures Value() == FreshItem(id, stream) && this.serial == serial
    {
      this.id, this.stream, this.serial := id, stream, serial;
      inUse, kind, alt, fn := true, Unknown, ConnectFn, 0;
    }

    ghost function Value(): Item
      reads this
    {
      Item(id, inUse, kind, stream, alt, fn)
    }

    predicate IsFree()
      reads this
    {
      !inUse
    }

    method MarkIsFree()
      requires inUse
      modifies this`inUse
      ensures Value() == old(Value()).(inUse := false)
    {
      inUse := false;
    }

    /** The part of every `submit` overload that comes before entering the ring. */
    method Prepare(kind: Kind, alt: Alternative, fn: nat)
      modifies this`kind, this`alt, this`fn
      ensures Value() == old(Value()).(kind := kind, alt := alt, fn := fn)
    {
      this.alt, this.fn := alt, fn;
      this.kind := kind;
    }
  }

  /** Which object each slot points to. */
  ghost function SlotValues(items: seq<WorkItem?>): (r: seq<Option<nat>>)
    ensures |r| == |items|
    ensures forall i :: 0 <= i < |r| ==>
              r[i] == var item := items[i]; if item == null then None else Some(item.serial)
  {
    seq(|items|, i requires 0 <= i < |items| =>
      var item := items[i]; if item == null then None else Some(item.serial))
  }

  lemma SlotValuesAppend(items: seq<WorkItem?>, item: WorkItem)
    ensures SlotValues(items + [item]) == SlotValues(items) + [Some(item.serial)]
  {
  }

  lemma SlotValuesUpdate(items: seq<WorkItem?>, id: nat, item: WorkItem)
    requires id < |items|
    ensures SlotValues(items[id := item]) == SlotValues(items)[id := Some(item.serial)]
  {
  }

  ghost function ItemValues(all: seq<WorkItem>): (r: seq<Item>)
    reads all
    ensures |r| == |all|
    ensures forall o :: 0 <= o < |r| ==> r[o] == all[o].Value()
  {
    seq(|all|, o requires 0 <= o < |all| reads all => all[o].Value())
  }

  class WorkPool {
    var items: seq<WorkItem?>
    var freeIds: seq<nat>
    /** Every item ever allocated, in order of allocation: the references users may still hold. */
    var all: seq<WorkItem>

    /** The object graph behind the specification value: who is where. */
    ghost predicate Graph()
      reads this
    {
      && (forall o :: 0 <= o < |all| ==> all[o].serial == o)
      && (forall id :: 0 <= id < |items| && items[id] != null ==>
            items[id].serial < |all| && all[items[id].serial] == items[id])
    }

    ghost predicate Valid()
      reads this, all
    {
      Graph() && PoolOk(Value())
    }

    ghost function Value(): Pool
      reads this, all
    {
      Pool(SlotValues(items), freeIds, ItemValues(all))
    }

    constructor ()
      ensures Valid() && all == [] && Value() == EMPTY_POOL
    {
      items, freeIds, all := [], [], [];
    }

    /** `get_work_item`. The source asserts only `id <= size`; its callers keep `id < size`. */
    method GetWorkItem(id: nat) returns (item: WorkItem?)
      requires Valid() && id < |items|
      ensures match Lookup(Value(), id)
              case None => item == null
              case Some(o) => o < |all| && item == all[o] && !item.IsFree() && item.id == id
    {
      item := items[id];
      assert SlotOk(Value(), id);
    }

    /** `free_work_item`, called on a live slot: a second call for the same id is an assertion failure. */
    method FreeWorkItem(id: nat)
      requires Valid() && Lookup(Value(), id).Some?
      modifies this, all
      ensures Valid() && all == old(all)
      ensures CanFree(old(Value()), id)
      ensures Value() == Free(old(Value()), id)
    {
      ghost var was := Value();
      FreeOk(was, id);
      var item := items[id];
      item.MarkIsFree();
      items := items[id := null];
      freeIds := freeIds + [id];
      ghost var now := Value();
      assert now.slots == Free(was, id).slots;
      assert now.objs == Free(was, id).objs;
    }

    /** The new object, recorded as allocated; no slot points to it yet. */
    method MakeItem(id: nat, stream: bool) returns (item: WorkItem)
      modifies this`all
      ensures fresh(item) && all == old(all) + [item] && item.serial == |old(all)|
      ensures item.Value() == FreshItem(id, stream) && item.id == id
      ensures ItemValues(all) == old(ItemValues(all)) + [FreshItem(id, stream)]
    {
      item := new WorkItem(id, stream, |all|);
      all := all + [item];
    }

    method InternalAlloc(stream: bool) returns (item: WorkItem)
      requires Valid()
      modifies this
      ensures Valid() && fresh(item) && all == old(all) + [item]
      ensures Value() == Alloc(old(Value()), stream)
      ensures item.serial == |old(all)| && item.id == Value().objs[item.serial].id
    {
      ghost var was := Value();
      ghost var next := Alloc(was, stream);
      assert PoolOk(next) by { AllocOk(was, stream); }
      if |freeIds| == 0 {
        item := MakeItem(|items|, stream);
        SlotValuesAppend(items, item);
        items := items + [item];
      } else {
        var id := freeIds[|freeIds| - 1];
        assert was.freeIds[|freeIds| - 1] == id && was.slots[id] == None;
        freeIds := freeIds[..|freeIds| - 1];
        item := MakeItem(id, stream);
        SlotValuesUpdate(items, id, item);
        items := items[id := item];
      }
      assert SlotValues(items) == next.slots;
      assert freeIds == next.freeIds;
      assert ItemValues(all) == next.objs;
    }
  }
}
