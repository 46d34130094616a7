/** The single-flight remote segment cache (crates/server/src/backup.rs,
    RemoteSegmentCache): lock-protected steps as methods, and every interleaving of
    threads as runs of a transition system. */
module SegmentCache {
  import opened Common

  type Bytes = seq<nat>

  /** `loading` maps a key to the token of the load in flight; a token stands for the
      (Mutex<bool>, Condvar) pair the waiters share. */
  datatype Cache = Cache(
    entries: map<string, Bytes>, order: seq<string>, bytes: nat, hits: nat, misses: nat, loading: map<string, nat>)

  const EMPTY := Cache(map[], [], 0, 0, 0, map[])

  datatype Lookup = Hit(value: Bytes) | Wait(token: nat) | Load

  /** The first critical section of `get`; `token` is the one a new load would get. */
  function LookupStep(c: Cache, key: string, token: nat): (Cache, Lookup) {
    if key in c.entries then (c.(hits := c.hits + 1), Hit(c.entries[key]))
    else if key in c.loading then (c, Wait(c.loading[key]))
    else (c.(misses := c.misses + 1, loading := c.loading[key := token]), Load)
  }

  /** Total size of the listed entries. */
  function Sum(order: seq<string>, entries: map<string, Bytes>): nat
    requires forall k :: k in order ==> k in entries
  {
    if order == [] then 0 else |entries[order[0]]| + Sum(order[1..], entries)
  }

  /** The eviction queue is a duplicate-free ordering of the cached keys, the byte count
      is their total size and within capacity, and no cached key is being loaded. */
  ghost predicate Inv(c: Cache, capacity: nat) {
    && (forall k :: k in c.order <==> k in c.entries)
    && (forall i, j :: 0 <= i < j < |c.order| ==> c.order[i] != c.order[j])
    && c.bytes == Sum(c.order, c.entries) <= capacity
    && (forall k :: k in c.loading ==> k !in c.entries)
  }

  lemma {:induction false} SumFrame(order: seq<string>, a: map<string, Bytes>, b: map<string, Bytes>)
    requires forall k :: k in order ==> k in a && k in b && a[k] == b[k]
    ensures Sum(order, a) == Sum(order, b)
  {
    if order != [] { SumFrame(order[1..], a, b); }
  }

  lemma {:induction false} SumAppend(order: seq<string>, key: string, entries: map<string, Bytes>)
    requires key in entries && forall k :: k in order ==> k in entries
    ensures Sum(order + [key], entries) == Sum(order, entries) + |entries[key]|
  {
    if order == [] {
      assert [key][1..] == [];
    } else {
      SumAppend(order[1..], key, entries);
      assert (order + [key])[1..] == order[1..] + [key];
    }
  }

  /** One turn of the eviction loop. */
  function DropOldest(c: Cache, capacity: nat): (c': Cache)
    requires Inv(c, capacity) && c.order != []
    ensures Inv(c', capacity)
  {
    DropFits(c, capacity);
    var oldest := c.order[0];
    c.(entries := c.entries - {oldest}, order := c.order[1..], bytes := c.bytes - |c.entries[oldest]|)
  }

  lemma DropFits(c: Cache, capacity: nat)
    requires Inv(c, capacity) && c.order != []
    ensures c.order[0] in c.entries && c.bytes >= |c.entries[c.order[0]]|
    ensures Inv(c.(entries := c.entries - {c.order[0]}, order := c.order[1..],
                   bytes := c.bytes - |c.entries[c.order[0]]|), capacity)
  {
    var oldest, tail := c.order[0], c.order[1..];
    var rest := c.entries - {oldest};
    assert oldest in c.order && c.order == [oldest] + tail;
    assert forall k :: k in tail <==> k in rest;
    SumFrame(tail, c.entries, rest);
  }

  /** Eviction of the oldest entries until `size` more bytes fit. */
  function Evict(c: Cache, size: nat, capacity: nat): (c': Cache)
    requires Inv(c, capacity) && size <= capacity
    ensures Inv(c', capacity) && c'.bytes + size <= capacity && c'.loading == c.loading
    ensures forall k :: k in c'.entries ==> k in c.entries && c'.entries[k] == c.entries[k]
    decreases |c.order|
  {
    if c.bytes + size <= capacity then c else Evict(DropOldest(c, capacity), size, capacity)
  }

  /** The second critical section of `get`: the load has ended with the given result. */
  function FinishStep(c: Cache, key: string, result: Option<Bytes>, capacity: nat): Cache
    requires Inv(c, capacity)
  {
    var c' := c.(loading := c.loading - {key});
    if result.None? || |result.value| > capacity then c'
    else
      var room := Evict(c', |result.value|, capacity);
      room.(entries := room.entries[key := result.value], order := room.order + [key],
            bytes := room.bytes + |result.value|)
  }

  lemma AddKeepsInv(c: Cache, key: string, value: Bytes, capacity: nat)
    requires Inv(c, capacity) && key !in c.entries && key !in c.loading && c.bytes + |value| <= capacity
    ensures Inv(c.(entries := c.entries[key := value], order := c.order + [key], bytes := c.bytes + |value|), capacity)
  {
    var entries := c.entries[key := value];
    SumFrame(c.order, c.entries, entries);
    SumAppend(c.order, key, entries);
  }

  lemma FinishKeepsInv(c: Cache, key: string, result: Option<Bytes>, capacity: nat)
    requires Inv(c, capacity) && key in c.loading
    ensures Inv(FinishStep(c, key, result, capacity), capacity)
  {
    if result.Some? && |result.value| <= capacity {
      var room := Evict(c.(loading := c.loading - {key}), |result.value|, capacity);
      AddKeepsInv(room, key, result.value, capacity);
    }
  }

  /** The total size of the entries from a point of the queue on. */
  function Weight(c: Cache, capacity: nat, from: nat): nat
    requires Inv(c, capacity) && from <= |c.order|
  {
    Sum(c.order[from..], c.entries)
  }

  lemma WholeWeight(c: Cache, capacity: nat)
    requires Inv(c, capacity)
    ensures Weight(c, capacity, 0) == c.bytes
  {
    assert c.order[0..] == c.order;
  }

  lemma DroppedWeight(c: Cache, capacity: nat, from: nat)
    requires Inv(c, capacity) && 1 <= from <= |c.order|
    ensures Weight(c, capacity, from) == Weight(DropOldest(c, capacity), capacity, from - 1)
  {
    var c' := DropOldest(c, capacity);
    assert c'.order[from - 1..] == c.order[from..];
    SumFrame(c.order[from..], c.entries, c'.entries);
  }

  lemma EvictStep(c: Cache, size: nat, capacity: nat)
    requires Inv(c, capacity) && size <= capacity && c.bytes + size > capacity
    ensures c.order != [] && DropOldest(c, capacity).order == c.order[1..]
    ensures Evict(c, size, capacity) == Evict(DropOldest(c, capacity), size, capacity)
  {
  }

  /** Eviction keeps as much as it can: what remains is a suffix of the queue, and one
      more of the evicted entries would not have fitted. */
  lemma {:induction false} EvictionIsMinimal(c: Cache, size: nat, capacity: nat) returns (n: nat)
    requires Inv(c, capacity) && size <= capacity
    ensures n <= |c.order| && Evict(c, size, capacity).order == c.order[n..]
    ensures forall m :: 0 <= m < n ==> Weight(c, capacity, m) + size > capacity
    decreases |c.order|
  {
    WholeWeight(c, capacity);
    if c.bytes + size <= capacity {
      n := 0;
    } else {
      EvictStep(c, size, capacity);
      hide Inv, DropOldest, Evict, Weight;
      var c' := DropOldest(c, capacity);
      var k := EvictionIsMinimal(c', size, capacity);
      n := k + 1;
      assert c.order[1..][k..] == c.order[n..];
      forall m | 1 <= m < n ensures Weight(c, capacity, m) + size > capacity { DroppedWeight(c, capacity, m); }
    }
  }

  // ----- the object behind the lock -----

  class RemoteSegmentCache {
    const capacity: nat
    var entries: map<string, Bytes>
    var order: seq<string>
    var bytes: nat
    var hits: nat
    var misses: nat
    var loading: map<string, nat>

    function View(): Cache
      reads this
    {
      Cache(entries, order, bytes, hits, misses, loading)
    }

    ghost predicate Valid()
      reads this
    {
      Inv(View(), capacity)
    }

    constructor (capacity: nat)
      ensures Valid() && View() == EMPTY && this.capacity == capacity
    {
      this.capacity := capacity;
      entries, order, bytes, hits, misses, loading := map[], [], 0, 0, 0, map[];
    }

    method BeginGet(key: string, token: nat) returns (r: Lookup)
      requires Valid()
      modifies this`hits, this`misses, this`loading
      ensures Valid()
      ensures (View(), r) == LookupStep(old(View()), key, token)
    {
      if key in entries {
        hits := hits + 1;
        return Hit(entries[key]);
      }
      if key in loading { return Wait(loading[key]); }
      misses := misses + 1;
      loading := loading[key := token];
      r := Load;
    }

    /** The eviction loop; its fallback for an empty queue is never taken. */
    method MakeRoom(size: nat)
      requires Valid() && size <= capacity
      modifies this`entries, this`order, this`bytes
      ensures Valid() && View() == Evict(old(View()), size, capacity)
    {
      while bytes + size > capacity
        invariant Valid()
        invariant Evict(View(), size, capacity) == Evict(old(View()), size, capacity)
        decreases |order|
      {
        if order == [] {
          assert false;
          break;
        }
        DropFirst();
      }
    }

    method DropFirst()
      requires Valid() && order != []
      modifies this`entries, this`order, this`bytes
      ensures Valid() && View() == DropOldest(old(View()), capacity)
    {
      ghost var dropped := DropOldest(View(), capacity);
      var oldest := order[0];
      order := order[1..];
      if oldest in entries {
        bytes := bytes - |entries[oldest]|;
        entries := entries - {oldest};
      }
      assert View() == dropped;
    }

    method FinishGet(key: string, result: Option<Bytes>)
      requires Valid() && key in loading
      modifies this`entries, this`order, this`bytes, this`loading
      ensures Valid()
      ensures View() == FinishStep(old(View()), key, result, capacity)
    {
      FinishKeepsInv(View(), key, result, capacity);
      loading := loading - {key};
      if result.Some? && |result.value| <= capacity {
        MakeRoom(|result.value|);
        bytes := bytes + |result.value|;
        entries := entries[key := result.value];
        order := order + [key];
      }
    }
  }
}
