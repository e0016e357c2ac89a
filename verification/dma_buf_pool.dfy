/** A pool of dma-bufs handed out by leases that may outlive a re-initialisation of the pool. Buffers
    are known by address, and an address may be reused once its buffer is gone. */
module DmaBufPools {
  import opened Wrappers

  datatype Buffer = Buffer(size: nat, acquired: bool)

  /** heap holds the buffers the pool owns, buffers their addresses, free the queue of those that no
      lease has. */
  datatype Pool = Pool(
    heap: map<nat, Buffer>,
    buffers: seq<nat>,
    free: seq<nat>,
    generation: nat,
    bufferSize: nat)

  /** The contents of one lease variable; an empty lease has no buffer and generation 0. */
  datatype Lease = Lease(buffer: Option<nat>, generation: nat)

  const EMPTY_LEASE := Lease(None, 0)

  const NEW_POOL := Pool(map[], [], [], 0, 0)

  /** A pool and every lease variable of the program. */
  datatype Leasing = Leasing(pool: Pool, leases: map<nat, Lease>)

  /** The addresses at which the allocator has placed new buffers, one for each attempt that
      succeeded; the first failure ends the allocation. */
  datatype Event =
    | Initialize(size: nat, count: nat, placed: seq<nat>)
    | Acquire(into: nat)
    | MoveConstruct(from: nat, into: nat)
    | MoveAssign(from: nat, into: nat)
    | Reset(lease: nat)
    | Close

  predicate Distinct(s: seq<nat>) {
    forall i, j :: 0 <= i < j < |s| ==> s[i] != s[j]
  }

  /* ---------------------------------- the pool ---------------------------------- */

  /** Everything the pool owned is gone, and leases of the generation before are stale. */
  function Emptied(p: Pool, size: nat): Pool {
    Pool(map[], [], [], p.generation + 1, size)
  }

  function InitializePool(p: Pool, size: nat, count: nat, placed: seq<nat>): Pool {
    if size == 0 || count == 0 then p
    else if |placed| < count then Emptied(p, size)
    else Emptied(p, size).(heap := map a | a in placed :: Buffer(size, false), buffers := placed, free := placed)
  }

  function AcquirePool(p: Pool): (Pool, Lease) {
    if p.free == [] then (p, EMPTY_LEASE)
    else
      var a := p.free[0];
      (p.(free := p.free[1..], heap := if a in p.heap then p.heap[a := p.heap[a].(acquired := true)] else p.heap),
       Lease(Some(a), p.generation))
  }

  function ReleasePool(p: Pool, address: nat, generation: nat): Pool {
    if generation != p.generation || address !in p.buffers || address !in p.heap || !p.heap[address].acquired then p
    else p.(heap := p.heap[address := p.heap[address].(acquired := false)], free := p.free + [address])
  }

  function ClosePool(p: Pool): Pool {
    Emptied(p, 0)
  }

  /** Gives back what the lease holds, if anything. */
  function ResetPool(p: Pool, lease: Lease): Pool {
    if lease.buffer.None? then p else ReleasePool(p, lease.buffer.value, lease.generation)
  }

  /* ---------------------------------- runs ---------------------------------- */

  /** The allocator places new buffers at addresses that are not in use; a lease variable is
      constructed once. Addresses of buffers that are gone may come back. */
  predicate Admissible(s: Leasing, e: Event) {
    match e
    case Initialize(size, count, placed) => |placed| <= count && Distinct(placed)
    case Acquire(into) => into !in s.leases
    case MoveConstruct(from, into) => from in s.leases && into !in s.leases
    case MoveAssign(from, into) => from in s.leases && into in s.leases
    case Reset(lease) => lease in s.leases
    case Close => true
  }

  function Next(s: Leasing, e: Event): Leasing
    requires Admissible(s, e)
  {
    match e
    case Initialize(size, count, placed) => s.(pool := InitializePool(s.pool, size, count, placed))
    case Acquire(into) =>
      var (pool, lease) := AcquirePool(s.pool);
      Leasing(pool, s.leases[into := lease])
    case MoveConstruct(from, into) => s.(leases := s.leases[into := s.leases[from]][from := EMPTY_LEASE])
    case MoveAssign(from, into) =>
      if from == into then s
      else Leasing(ResetPool(s.pool, s.leases[into]), s.leases[into := s.leases[from]][from := EMPTY_LEASE])
    case Reset(lease) => Leasing(ResetPool(s.pool, s.leases[lease]), s.leases[lease := EMPTY_LEASE])
    case Close => s.(pool := ClosePool(s.pool))
  }

  predicate AdmissibleRun(s: Leasing, events: seq<Event>)
    decreases |events|
  {
    events == [] || (Admissible(s, events[0]) && AdmissibleRun(Next(s, events[0]), events[1..]))
  }

  function Run(s: Leasing, events: seq<Event>): Leasing
    requires AdmissibleRun(s, events)
    decreases |events|
  {
    if events == [] then s else Run(Next(s, events[0]), events[1..])
  }

  /* ---------------------------------- invariant ---------------------------------- */

  /** The lease holds a buffer of the current generation. */
  predicate Live(s: Leasing, id: nat) {
    id in s.leases && s.leases[id].buffer.Some? && s.leases[id].generation == s.pool.generation
  }

  /** The lease holds a buffer of an earlier generation. */
  predicate Stale(s: Leasing, id: nat) {
    id in s.leases && s.leases[id].buffer.Some? && s.leases[id].generation < s.pool.generation
  }

  function LiveLeases(s: Leasing): set<nat> {
    set id | id in s.leases && Live(s, id)
  }

  /** The free queue lists, each once, the buffers that are not acquired. */
  ghost predicate PoolOk(p: Pool) {
    && Distinct(p.buffers) && Distinct(p.free)
    && (forall a :: a in p.buffers <==> a in p.heap)
    && (forall a :: a in p.free <==> a in p.heap && !p.heap[a].acquired)
  }

  /** No lease is ahead of the pool, and live leases hold different acquired buffers. */
  ghost predicate LeasesOk(s: Leasing) {
    && (forall id :: id in s.leases ==> s.leases[id].generation <= s.pool.generation)
    && (forall id :: Live(s, id) ==> s.leases[id].buffer.value in s.pool.heap
                                     && s.pool.heap[s.leases[id].buffer.value].acquired)
    && (forall i, j :: Live(s, i) && Live(s, j) && s.leases[i].buffer == s.leases[j].buffer ==> i == j)
  }

  /** Every acquired buffer is held by a live lease. */
  ghost predicate NothingLost(s: Leasing) {
    forall a :: a in s.pool.heap && s.pool.heap[a].acquired ==> HeldByLease(s, a)
  }

  ghost predicate HeldByLease(s: Leasing, a: nat) {
    exists id :: Live(s, id) && s.leases[id].buffer == Some(a)
  }

  /** available() and the live leases together make up capacity(). */
  predicate Counted(s: Leasing) {
    |s.pool.free| + |LiveLeases(s)| == |s.pool.buffers|
  }

  ghost predicate Inv(s: Leasing) {
    PoolOk(s.pool) && LeasesOk(s) && NothingLost(s) && Counted(s)
  }

  function NewLeasing(): Leasing {
    Leasing(NEW_POOL, map[])
  }

  lemma NewInv()
    ensures Inv(NewLeasing())
  {
    assert LiveLeases(NewLeasing()) == {};
  }

  /* ---------------------------------- steps ---------------------------------- */

  /** The pool starts over: every lease there was is stale. */
  lemma StartOver(s: Leasing, s': Leasing)
    requires LeasesOk(s) && s'.leases == s.leases && s'.pool.generation == s.pool.generation + 1
    requires PoolOk(s'.pool) && s'.pool.free == s'.pool.buffers
    ensures Inv(s')
  {
    assert LiveLeases(s') == {};
    forall a | a in s'.pool.heap ensures !s'.pool.heap[a].acquired {
      assert a in s'.pool.free;
    }
  }

  lemma InitializeKeepsInv(s: Leasing, size: nat, count: nat, placed: seq<nat>)
    requires Inv(s) && Distinct(placed)
    ensures Inv(s.(pool := InitializePool(s.pool, size, count, placed)))
  {
    if size != 0 && count != 0 {
      StartOver(s, s.(pool := InitializePool(s.pool, size, count, placed)));
    } else {
      assert s.(pool := s.pool) == s;
    }
  }

  lemma AcquirePoolOk(p: Pool)
    requires PoolOk(p)
    ensures PoolOk(AcquirePool(p).0)
  {
    var (p', _) := AcquirePool(p);
    if p.free != [] {
      forall a ensures a in p'.free <==> a in p'.heap && !p'.heap[a].acquired {
        assert a in p'.free <==> a in p.free && a != p.free[0];
      }
    }
  }

  lemma AcquireLeases(s: Leasing, into: nat)
    requires PoolOk(s.pool) && LeasesOk(s) && into !in s.leases
    ensures LeasesOk(Next(s, Acquire(into)))
  {
    if s.pool.free != [] {
      assert s.pool.free[0] in s.pool.free;
    }
  }

  lemma AcquireHeld(s: Leasing, into: nat)
    requires PoolOk(s.pool) && NothingLost(s) && into !in s.leases
    ensures NothingLost(Next(s, Acquire(into)))
  {
    var s' := Next(s, Acquire(into));
    forall a | a in s'.pool.heap && s'.pool.heap[a].acquired ensures HeldByLease(s', a) {
      if s.pool.free != [] && a == s.pool.free[0] {
        assert Live(s', into);
      } else {
        assert HeldByLease(s, a);
        var id: nat :| Live(s, id) && s.leases[id].buffer == Some(a);
        assert Live(s', id);
      }
    }
  }

  /** A new live lease, on a buffer that no lease held. */
  lemma AcquireKeepsInv(s: Leasing, into: nat)
    requires Inv(s) && into !in s.leases
    ensures Inv(Next(s, Acquire(into)))
  {
    AcquirePoolOk(s.pool);
    AcquireLeases(s, into);
    AcquireHeld(s, into);
    hide PoolOk, LeasesOk, NothingLost;
    AcquireCounted(s, into);
  }

  lemma AcquireCounted(s: Leasing, into: nat)
    requires Counted(s) && into !in s.leases
    ensures Counted(Next(s, Acquire(into)))
  {
    var s' := Next(s, Acquire(into));
    if s.pool.free == [] {
      assert LiveLeases(s') == LiveLeases(s);
    } else {
      assert s'.pool.free == s.pool.free[1..] && s'.pool.buffers == s.pool.buffers;
      assert Live(s', into);
      assert LiveLeases(s') == LiveLeases(s) + {into} && into !in LiveLeases(s);
    }
  }

  function Given(s: Leasing, id: nat): Leasing
    requires id in s.leases
  {
    Leasing(ResetPool(s.pool, s.leases[id]), s.leases[id := EMPTY_LEASE])
  }

  lemma ResetPoolOk(p: Pool, lease: Lease)
    requires PoolOk(p)
    ensures PoolOk(ResetPool(p, lease))
  {
  }

  lemma ResetLeases(s: Leasing, id: nat)
    requires PoolOk(s.pool) && LeasesOk(s) && id in s.leases
    ensures LeasesOk(Given(s, id))
  {
    hide PoolOk;
    var s' := Given(s, id);
    forall k | Live(s', k) ensures Live(s, k) && s'.leases[k] == s.leases[k] && k != id {
    }
  }

  lemma ResetHeld(s: Leasing, id: nat)
    requires PoolOk(s.pool) && NothingLost(s) && id in s.leases
    ensures NothingLost(Given(s, id))
  {
    var s' := Given(s, id);
    forall b | b in s'.pool.heap && s'.pool.heap[b].acquired ensures HeldByLease(s', b) {
      assert HeldByLease(s, b);
      var k: nat :| Live(s, k) && s.leases[k].buffer == Some(b);
      assert Live(s', k);
    }
  }

  /** Emptying a lease after giving back what it holds. */
  lemma ResetKeepsInv(s: Leasing, id: nat)
    requires Inv(s) && id in s.leases
    ensures Inv(Given(s, id))
  {
    ResetPoolOk(s.pool, s.leases[id]);
    ResetLeases(s, id);
    ResetHeld(s, id);
    if Live(s, id) {
      assert s.leases[id].buffer.value in s.pool.buffers;
      assert ResetPool(s.pool, s.leases[id]).free != s.pool.free;
    }
    hide PoolOk, LeasesOk, NothingLost;
    ResetCounted(s, id);
  }

  lemma ResetCounted(s: Leasing, id: nat)
    requires Counted(s) && id in s.leases
    requires Live(s, id) ==> ResetPool(s.pool, s.leases[id]) != s.pool
    ensures Counted(Given(s, id))
  {
    var s' := Given(s, id);
    if Live(s, id) {
      assert s'.pool.free == s.pool.free + [s.leases[id].buffer.value];
      assert LiveLeases(s') == LiveLeases(s) - {id};
    } else {
      assert LiveLeases(s') == LiveLeases(s);
    }
  }

  function Moved(s: Leasing, from: nat, into: nat): Leasing
    requires from in s.leases
  {
    s.(leases := s.leases[into := s.leases[from]][from := EMPTY_LEASE])
  }

  lemma MoveLeases(s: Leasing, from: nat, into: nat)
    requires LeasesOk(s) && from in s.leases && from != into && !Live(s, into)
    ensures LeasesOk(Moved(s, from, into))
  {
    var s' := Moved(s, from, into);
    forall k | Live(s', k) ensures k != from && Live(s, if k == into then from else k)
                                   && s'.leases[k] == s.leases[if k == into then from else k] {
    }
  }

  lemma MoveHeld(s: Leasing, from: nat, into: nat)
    requires NothingLost(s) && from in s.leases && from != into && !Live(s, into)
    ensures NothingLost(Moved(s, from, into))
  {
    var s' := Moved(s, from, into);
    forall a | a in s'.pool.heap && s'.pool.heap[a].acquired ensures HeldByLease(s', a) {
      assert HeldByLease(s, a);
      var k: nat :| Live(s, k) && s.leases[k].buffer == Some(a);
      assert Live(s', if k == from then into else k);
    }
  }

  /** Moving a lease into a variable that holds nothing. */
  lemma MoveKeepsInv(s: Leasing, from: nat, into: nat)
    requires Inv(s) && from in s.leases && from != into
    requires into !in s.leases || s.leases[into] == EMPTY_LEASE
    ensures Inv(Moved(s, from, into))
  {
    MoveLeases(s, from, into);
    MoveHeld(s, from, into);
    MoveCounted(s, from, into);
    hide PoolOk, LeasesOk, NothingLost, Counted;
  }

  lemma MoveCounted(s: Leasing, from: nat, into: nat)
    requires Counted(s) && from in s.leases && from != into && !Live(s, into)
    ensures Counted(Moved(s, from, into))
  {
    var s' := Moved(s, from, into);
    assert LiveLeases(s') == if Live(s, from) then LiveLeases(s) - {from} + {into} else LiveLeases(s);
  }

  lemma NextKeepsInv(s: Leasing, e: Event)
    requires Inv(s) && Admissible(s, e)
    ensures Inv(Next(s, e))
  {
    hide Inv, ResetPool, InitializePool;
    match e
    case Initialize(size, count, placed) => InitializeKeepsInv(s, size, count, placed);
    case Acquire(into) => AcquireKeepsInv(s, into);
    case MoveConstruct(from, into) => MoveKeepsInv(s, from, into);
    case MoveAssign(from, into) =>
      if from != into {
        ResetKeepsInv(s, into);
        var emptied := Given(s, into);
        MoveKeepsInv(emptied, from, into);
        assert emptied.leases[into := emptied.leases[from]][from := EMPTY_LEASE]
            == s.leases[into := s.leases[from]][from := EMPTY_LEASE];
      }
    case Reset(id) => ResetKeepsInv(s, id);
    case Close => CloseKeepsInv(s);
  }

  lemma CloseKeepsInv(s: Leasing)
    requires Inv(s)
    ensures Inv(s.(pool := ClosePool(s.pool)))
  {
    StartOver(s, s.(pool := ClosePool(s.pool)));
  }

  /* ---------------------------------- main results ---------------------------------- */

  lemma {:induction false} RunKeepsInv(s: Leasing, events: seq<Event>)
    requires Inv(s) && AdmissibleRun(s, events)
    ensures Inv(Run(s, events))
    decreases |events|
  {
    hide Inv, Admissible, Next;
    if events != [] {
      NextKeepsInv(s, events[0]);
      RunKeepsInv(Next(s, events[0]), events[1..]);
    }
  }

  /** After any sequence of operations: a buffer is free exactly when it is not acquired and is
      listed free once, different live leases hold different buffers, and the free buffers and the
      live leases together make up the capacity. */
  lemma PoolIsAccounted(events: seq<Event>)
    requires AdmissibleRun(NewLeasing(), events)
    ensures var s := Run(NewLeasing(), events);
            && |s.pool.free| + |LiveLeases(s)| == |s.pool.buffers|
            && Distinct(s.pool.free)
            && (forall a :: a in s.pool.buffers ==> a in s.pool.heap && (a in s.pool.free <==> !s.pool.heap[a].acquired))
            && (forall i, j :: Live(s, i) && Live(s, j) && s.leases[i].buffer == s.leases[j].buffer ==> i == j)
  {
    NewInv();
    RunKeepsInv(NewLeasing(), events);
  }

  /** In a reachable state, giving back a live lease always frees its buffer: the two other guards of
      release never refuse it. */
  lemma LiveLeaseIsGivenBack(s: Leasing, id: nat)
    requires Inv(s) && Live(s, id)
    ensures var s' := Next(s, Reset(id));
            var a := s.leases[id].buffer.value;
            && s'.pool.free == s.pool.free + [a] && a !in s.pool.free
            && !Live(s', id) && |LiveLeases(s')| == |LiveLeases(s)| - 1
  {
    var s' := Next(s, Reset(id));
    assert s.leases[id].buffer.value in s.pool.buffers;
    assert LiveLeases(s') == LiveLeases(s) - {id};
  }

  /** Only the generation protects a buffer whose address has come back: after any sequence of
      operations, whether giving back a lease changes the pool is decided by its generation alone. */
  lemma ResetChangesPoolExactlyWhenLive(events: seq<Event>, id: nat)
    requires AdmissibleRun(NewLeasing(), events) && id in Run(NewLeasing(), events).leases
    ensures var s := Run(NewLeasing(), events);
            ResetPool(s.pool, s.leases[id]) != s.pool <==> Live(s, id)
  {
    var s := Run(NewLeasing(), events);
    NewInv();
    RunKeepsInv(NewLeasing(), events);
    if Live(s, id) {
      LiveLeaseIsGivenBack(s, id);
    }
  }

  lemma GenerationGrows(s: Leasing, e: Event)
    requires Admissible(s, e)
    ensures s.pool.generation <= Next(s, e).pool.generation
  {
  }

  lemma {:induction false} StaleForever(s: Leasing, events: seq<Event>, lease: Lease)
    requires AdmissibleRun(s, events) && lease.generation < s.pool.generation
    ensures lease.generation < Run(s, events).pool.generation
    decreases |events|
  {
    if events != [] {
      GenerationGrows(s, events[0]);
      StaleForever(Next(s, events[0]), events[1..], lease);
    }
  }

  /** A lease of an earlier generation never changes the pool again, whatever happens in between,
      also when its address has been given to a new buffer that another lease now holds. */
  lemma StaleLeaseNeverChangesThePool(s: Leasing, events: seq<Event>, lease: Lease)
    requires AdmissibleRun(s, events) && lease.generation < s.pool.generation
    ensures ResetPool(Run(s, events).pool, lease) == Run(s, events).pool
  {
    StaleForever(s, events, lease);
  }

  /** After initialize or close every lease there is holds a stale generation. */
  lemma StartingOverMakesStale(s: Leasing, e: Event, id: nat)
    requires Inv(s) && Admissible(s, e) && id in s.leases && s.leases[id].buffer.Some?
    requires e.Close? || (e.Initialize? && e.size != 0 && e.count != 0)
    ensures Stale(Next(s, e), id)
  {
  }

  /** Lease 0 gives its address back as if it were of the current generation. */
  ghost predicate SafeWithoutGeneration(s: Leasing)
    requires 0 in s.leases && s.leases[0].buffer.Some?
  {
    LeasesOk(s.(pool := ReleasePool(s.pool, s.leases[0].buffer.value, s.pool.generation)))
  }

  const REUSE: seq<Event> := [Initialize(8, 1, [5]), Acquire(0), Initialize(8, 1, [5]), Acquire(1)]

  /** Addresses do come back, and without the comparison of generations the stale lease would free
      the buffer that the second lease holds. */
  lemma ReusedAddressNeedsTheGeneration()
    ensures AdmissibleRun(NewLeasing(), REUSE)
    ensures var s := Run(NewLeasing(), REUSE);
            && Stale(s, 0) && Live(s, 1) && s.leases[0].buffer == s.leases[1].buffer
            && !SafeWithoutGeneration(s)
  {
    var s1 := Next(NewLeasing(), REUSE[0]);
    var s2 := Next(s1, REUSE[1]);
    var s3 := Next(s2, REUSE[2]);
    var s4 := Next(s3, REUSE[3]);
    assert s1.pool == Pool(map[5 := Buffer(8, false)], [5], [5], 1, 8);
    assert s2.leases == map[0 := Lease(Some(5), 1)];
    assert s3.pool == Pool(map[5 := Buffer(8, false)], [5], [5], 2, 8);
    assert s4.leases == map[0 := Lease(Some(5), 1), 1 := Lease(Some(5), 2)];
    assert s4.pool == Pool(map[5 := Buffer(8, true)], [5], [], 2, 8);
    assert REUSE[1..][1..][1..] == [REUSE[3]] && REUSE[1..][1..] == [REUSE[2], REUSE[3]];
    assert AdmissibleRun(s3, [REUSE[3]]) && Run(s3, [REUSE[3]]) == s4;
    assert AdmissibleRun(s2, REUSE[1..][1..]) && Run(s2, REUSE[1..][1..]) == s4;
    assert AdmissibleRun(s1, REUSE[1..]) && Run(s1, REUSE[1..]) == s4;
    var unsafe := s4.(pool := ReleasePool(s4.pool, 5, 2));
    assert Live(unsafe, 1) && !unsafe.pool.heap[5].acquired;
  }
}
