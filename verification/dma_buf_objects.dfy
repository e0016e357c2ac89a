/** The pool and its leases as objects whose methods update them in place. */
module DmaBufObjects {
  import opened Wrappers
  import opened DmaBufPools
  import opened DmaBufLaws

  class DmaBufPool {
    var heap: map<nat, Buffer>
    var buffers: seq<nat>
    var freeBuffers: seq<nat>
    var generation: nat
    var bufferSize: nat

    function View(): Pool
      reads this
    {
      Pool(heap, buffers, freeBuffers, generation, bufferSize)
    }

    ghost predicate Valid()
      reads this
    {
      PoolOk(View())
    }

    constructor ()
      ensures View() == NEW_POOL && Valid()
    {
      heap := map[];
      buffers := [];
      freeBuffers := [];
      generation := 0;
      bufferSize := 0;
    }

    /** Marks every buffer as not acquired, then forgets them all. */
    method Clear(size: nat)
      requires Valid()
      modifies this
      ensures View() == Emptied(old(View()), size) && Valid()
    {
      var i := 0;
      while i < |buffers|
        invariant 0 <= i <= |buffers| && buffers == old(buffers) && generation == old(generation)
        invariant heap.Keys == old(heap.Keys)
        invariant forall k :: 0 <= k < i ==> !heap[buffers[k]].acquired
      {
        heap := heap[buffers[i] := heap[buffers[i]].(acquired := false)];
        i := i + 1;
      }
      generation := generation + 1;
      heap := map[];
      buffers := [];
      freeBuffers := [];
      bufferSize := size;
    }

    /** placed lists the addresses at which the allocator puts the buffers it can provide. */
    method Initialize(size: nat, count: nat, placed: seq<nat>) returns (ok: bool)
      requires Valid() && Distinct(placed)
      modifies this
      ensures Valid()
      ensures View() == InitializePool(old(View()), size, count, placed[..if count <= |placed| then count else |placed|])
      ensures ok <==> size != 0 && count != 0 && count <= |placed|
      ensures ok ==> FilledWith(View(), size, count)
      ensures !ok ==> freeBuffers == if size == 0 || count == 0 then old(freeBuffers) else []
    {
      if size == 0 || count == 0 {
        return false;
      }
      Clear(size);
      ok := Allocate(count, placed);
    }

    /** Fills an empty pool; when one allocation fails, the pool stays empty. */
    method Allocate(count: nat, placed: seq<nat>) returns (ok: bool)
      requires heap == map[] && buffers == freeBuffers == [] && Distinct(placed)
      modifies this`heap, this`buffers, this`freeBuffers
      ensures Valid() && (ok <==> count <= |placed|)
      ensures buffers == freeBuffers == if ok then placed[..count] else []
      ensures heap == if ok then (map a | a in placed[..count] :: Buffer(bufferSize, false)) else map[]
    {
      var i := 0;
      while i < count
        invariant 0 <= i <= count && i <= |placed|
        invariant buffers == freeBuffers == placed[..i]
        invariant heap == map a | a in placed[..i] :: Buffer(bufferSize, false)
      {
        if i >= |placed| {
          heap := map[];
          buffers := [];
          freeBuffers := [];
          return false;
        }
        heap := heap[placed[i] := Buffer(bufferSize, false)];
        freeBuffers := freeBuffers + [placed[i]];
        buffers := buffers + [placed[i]];
        i := i + 1;
      }
      return true;
    }

    method Acquire() returns (lease: DmaBufLease)
      requires Valid()
      modifies this
      ensures Valid() && View() == AcquirePool(old(View())).0
      ensures fresh(lease) && lease.Valid() && lease.View() == AcquirePool(old(View())).1
      ensures lease.pool == if old(freeBuffers) == [] then null else this
    {
      AcquirePoolOk(View());
      if freeBuffers == [] {
        lease := new DmaBufLease();
        return;
      }
      var a := freeBuffers[0];
      assert a in freeBuffers;
      freeBuffers := freeBuffers[1..];
      heap := heap[a := heap[a].(acquired := true)];
      lease := new DmaBufLease.Of(this, a, generation);
    }

    method Release(address: nat, gen: nat)
      requires Valid()
      modifies this
      ensures Valid() && View() == ReleasePool(old(View()), address, gen)
    {
      if gen != generation {
        return;
      }
      ResetPoolOk(View(), Lease(Some(address), gen));
      var belongs := false;
      for i := 0 to |buffers|
        invariant belongs <==> address in buffers[..i]
      {
        if buffers[i] == address { belongs := true; }
      }
      assert buffers[..|buffers|] == buffers;
      if !belongs || !heap[address].acquired {
        return;
      }
      heap := heap[address := heap[address].(acquired := false)];
      freeBuffers := freeBuffers + [address];
    }

    method Close()
      requires Valid()
      modifies this
      ensures Valid() && View() == ClosePool(old(View()))
    {
      Clear(0);
    }

    method Available() returns (n: nat)
      ensures n == |View().free|
    {
      n := |freeBuffers|;
    }

    method Capacity() returns (n: nat)
      ensures n == |View().buffers|
    {
      n := |buffers|;
    }
  }

  class DmaBufLease {
    var pool: DmaBufPool?
    var buffer: Option<nat>
    var generation: nat

    function View(): Lease
      reads this
    {
      Lease(buffer, generation)
    }

    /** A lease without a buffer is empty. */
    predicate Valid()
      reads this
    {
      if buffer.None? then pool == null && View() == EMPTY_LEASE else pool != null
    }

    constructor ()
      ensures Valid() && View() == EMPTY_LEASE && pool == null
    {
      pool := null;
      buffer := None;
      generation := 0;
    }

    constructor Of(pool: DmaBufPool, address: nat, generation: nat)
      ensures Valid() && View() == Lease(Some(address), generation) && this.pool == pool
    {
      this.pool := pool;
      buffer := Some(address);
      this.generation := generation;
    }

    /** Takes over what the other lease holds and leaves it empty. */
    constructor MoveFrom(other: DmaBufLease)
      requires other.Valid()
      modifies other
      ensures Valid() && View() == old(other.View()) && pool == old(other.pool)
      ensures other.Valid() && other.View() == EMPTY_LEASE
    {
      pool := other.pool;
      buffer := other.buffer;
      generation := other.generation;
      new;
      other.Clear();
    }

    method Clear()
      modifies this
      ensures Valid() && View() == EMPTY_LEASE
    {
      pool := null;
      buffer := None;
      generation := 0;
    }

    method Reset()
      requires Valid() && (pool != null ==> pool.Valid())
      modifies this, pool
      ensures Valid() && View() == EMPTY_LEASE
      ensures old(pool) != null ==>
                old(pool).Valid() && old(pool).View() == ResetPool(old(pool.View()), old(View()))
    {
      if pool != null && buffer.Some? {
        pool.Release(buffer.value, generation);
      }
      Clear();
    }

    /** Gives back what this lease holds before taking over the other; a self-assignment does nothing. */
    method MoveAssign(other: DmaBufLease)
      requires Valid() && (pool != null ==> pool.Valid()) && other.Valid()
      modifies this, other, pool
      ensures Valid() && other.Valid()
      ensures other == this ==> View() == old(View()) && pool == old(pool) && (pool != null ==> pool.View() == old(pool.View()))
      ensures other != this ==> View() == old(other.View()) && pool == old(other.pool) && other.View() == EMPTY_LEASE
      ensures other != this && old(pool) != null ==>
                old(pool).Valid() && old(pool).View() == ResetPool(old(pool.View()), old(View()))
    {
      if other == this {
        return;
      }
      Reset();
      pool := other.pool;
      buffer := other.buffer;
      generation := other.generation;
      other.Clear();
    }
  }
}
