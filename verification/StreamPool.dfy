/**
 The fixed pool of snapserver pipe streams (src/audio/snapcast_router.rs).
 Slot `k` stands for the stream `as-k` and the FIFO sink behind it, so a stream id
 is the index of its slot.
 */
module StreamPools {
  import opened Wrappers

  type ZoneId = Id

  const STREAM_POOL_SIZE: nat := 16

  /** Which zone, if any, every slot is allocated to. */
  type Allocation = seq<Option<ZoneId>>

  /** No zone holds two slots. */
  ghost predicate Injective(slots: Allocation) {
    forall i, j :: 0 <= i < |slots| && 0 <= j < |slots| && slots[i].Some? && slots[i] == slots[j] ==> i == j
  }

  /** Slot `k` exists and is allocated to `zone`. */
  predicate Holds(slots: Allocation, k: int, zone: ZoneId) {
    0 <= k < |slots| && slots[k] == Some(zone)
  }

  /** The first slot whose content is `content`. */
  function Find(slots: Allocation, content: Option<ZoneId>): (r: Option<nat>)
    ensures r.Some? ==> r.value < |slots| && slots[r.value] == content && content !in slots[..r.value]
    ensures r.None? ==> content !in slots
  {
    if slots == [] then None
    else if slots[0] == content then Some(0)
    else
      match Find(slots[1..], content)
      case None => None
      case Some(k) =>
        assert slots[..k + 1] == [slots[0]] + slots[1..][..k];
        Some(k + 1)
  }

  function Allocated(slots: Allocation, zone: ZoneId): (r: (Allocation, Option<nat>))
  {
    match Find(slots, Some(zone))
    case Some(k) => (slots, Some(k))
    case None =>
      match Find(slots, None)
      case None => (slots, None)
      case Some(k) => (slots[k := Some(zone)], Some(k))
  }

  function Released(slots: Allocation, zone: ZoneId): (r: Allocation)
    ensures |r| == |slots|
    ensures Some(zone) !in r
    ensures forall k :: 0 <= k < |slots| && slots[k] != Some(zone) ==> r[k] == slots[k]
  {
    seq(|slots|, k requires 0 <= k < |slots| => if slots[k] == Some(zone) then None else slots[k])
  }

  /**
   What an allocation promises its callers: the zone ends up with exactly one slot, a slot it
   already held is returned again, else it is the first free one, no other zone's slot moves, and
   the only failure is a pool whose every slot is held by some other zone.
   */
  lemma {:induction false} AllocateGrants(slots: Allocation, zone: ZoneId)
    requires Injective(slots)
    ensures var (slots', k) := Allocated(slots, zone);
            && |slots'| == |slots|
            && Injective(slots')
            && (k.Some? ==> Holds(slots', k.value, zone))
            && (forall j, z :: z != zone ==> (Holds(slots', j, z) <==> Holds(slots, j, z)))
            && (forall j :: Holds(slots, j, zone) ==> k == Some(j) && slots' == slots)
            && (Some(zone) !in slots && k.Some? ==> slots[k.value] == None && None !in slots[..k.value])
            && (k.None? <==> forall j :: 0 <= j < |slots| ==> slots[j].Some? && slots[j] != Some(zone))
            && (k.None? ==> slots' == slots)
  {
    var (slots', k) := Allocated(slots, zone);
    forall j | Holds(slots, j, zone) ensures k == Some(j) && slots' == slots {
      assert Some(zone) in slots;
    }
  }

  /** A release undoes an allocation: the pool is as if `zone` had never asked. */
  lemma {:induction false} ReleaseUndoesAllocate(slots: Allocation, zone: ZoneId)
    requires Injective(slots) && Some(zone) !in slots
    ensures Released(Allocated(slots, zone).0, zone) == slots
    ensures Injective(Released(slots, zone))
  {
    AllocateGrants(slots, zone);
  }

  /** Releasing keeps the pool injective and takes nothing from any other zone. */
  lemma {:induction false} ReleaseTakesOnlyOwn(slots: Allocation, zone: ZoneId)
    requires Injective(slots)
    ensures Injective(Released(slots, zone))
    ensures forall j, z :: Holds(Released(slots, zone), j, z) <==> z != zone && Holds(slots, j, z)
  {
    var slots' := Released(slots, zone);
    forall j, z ensures Holds(slots', j, z) <==> z != zone && Holds(slots, j, z) {
      if Holds(slots, j, zone) {
        assert slots'[j] in slots';
      }
    }
    forall i, j | 0 <= i < |slots'| && 0 <= j < |slots'| && slots'[i].Some? && slots'[i] == slots'[j]
      ensures i == j
    {
      assert Holds(slots', i, slots'[i].value) && Holds(slots', j, slots'[i].value);
    }
  }

  /** The pool as the router mutates it: one cell per slot, updated in place. */
  class StreamPool {
    const slots: array<Option<ZoneId>>

    constructor (size: nat)
      ensures fresh(slots) && slots.Length == size
      ensures forall k :: 0 <= k < size ==> slots[k] == None
    {
      slots := new Option<ZoneId>[size](_ => None);
    }

    method FindSlot(content: Option<ZoneId>) returns (r: Option<nat>)
      ensures r == Find(slots[..], content)
    {
      var k := 0;
      while k < slots.Length
        invariant 0 <= k <= slots.Length
        invariant content !in slots[..k]
      {
        if slots[k] == content {
          FirstIsFind(slots[..], content, k);
          return Some(k);
        }
        k := k + 1;
      }
      assert slots[..] == slots[..k];
      return None;
    }

    method Allocate(zone: ZoneId) returns (slot: Option<nat>)
      modifies slots
      ensures (slots[..], slot) == Allocated(old(slots[..]), zone)
    {
      slot := FindSlot(Some(zone));
      if slot.Some? {
        return;
      }
      slot := FindSlot(None);
      if slot.Some? {
        slots[slot.value] := Some(zone);
      }
    }

    method Release(zone: ZoneId)
      modifies slots
      ensures slots[..] == Released(old(slots[..]), zone)
    {
      for k := 0 to slots.Length
        invariant forall i :: 0 <= i < k ==> slots[i] == if old(slots[i]) == Some(zone) then None else old(slots[i])
        invariant forall i :: k <= i < slots.Length ==> slots[i] == old(slots[i])
      {
        if slots[k] == Some(zone) {
          slots[k] := None;
        }
      }
    }

    method StreamFor(zone: ZoneId) returns (stream: Option<nat>)
      ensures stream == Find(slots[..], Some(zone))
    {
      stream := FindSlot(Some(zone));
    }
  }

  lemma {:induction false} FirstIsFind(slots: Allocation, content: Option<ZoneId>, k: nat)
    requires k < |slots| && slots[k] == content && content !in slots[..k]
    ensures Find(slots, content) == Some(k)
  {
    assert content in slots;
  }
}
