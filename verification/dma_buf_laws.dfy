/** What the operations of the pool give their callers: buffers of the size asked for, in the order in which
    they became free. */
module DmaBufLaws {
  import opened Wrappers
  import opened DmaBufPools

  /* ---------------------------------- initialize ---------------------------------- */

  /** The pool has this many different buffers of this size, all free. */
  ghost predicate FilledWith(p: Pool, size: nat, count: nat) {
    && p.bufferSize == size
    && |p.buffers| == count && Distinct(p.buffers) && p.free == p.buffers
    && (forall a :: a in p.heap <==> a in p.buffers)
    && (forall a :: a in p.heap ==> p.heap[a].size == size && !p.heap[a].acquired)
  }

  predicate IsEmpty(p: Pool) {
    p.buffers == [] && p.free == [] && p.heap == map[]
  }

  /** initialize without a size or a count changes nothing; when every allocation succeeds, the pool holds
      exactly that many different free buffers of that size; when one fails, it is empty. In both cases every
      lease there was is of an earlier generation, and the size is remembered. */
  lemma InitializeFillsThePool(s: Leasing, size: nat, count: nat, placed: seq<nat>)
    requires Admissible(s, Initialize(size, count, placed))
    ensures var p := Next(s, Initialize(size, count, placed)).pool;
            if size == 0 || count == 0 then p == s.pool
            else
              && p.generation == s.pool.generation + 1 && p.bufferSize == size
              && if |placed| == count then FilledWith(p, size, count) && p.buffers == placed else IsEmpty(p)
  {
  }

  lemma CloseEmptiesThePool(s: Leasing)
    ensures var p := Next(s, Close).pool;
            IsEmpty(p) && p.bufferSize == 0 && p.generation == s.pool.generation + 1
  {
  }

  /* ---------------------------------- sizes over runs ---------------------------------- */

  /** The size of the last initialize past its argument checks, if no close came after it. */
  function LastSize(events: seq<Event>): nat {
    if events == [] then 0
    else
      match events[|events| - 1]
      case Initialize(size, count, _) => if size == 0 || count == 0 then LastSize(events[..|events| - 1]) else size
      case Close => 0
      case _ => LastSize(events[..|events| - 1])
  }

  predicate SizesOk(s: Leasing, size: nat) {
    s.pool.bufferSize == size && forall a :: a in s.pool.heap ==> s.pool.heap[a].size == size
  }

  lemma NextSizes(s: Leasing, e: Event, size: nat)
    requires SizesOk(s, size) && Admissible(s, e)
    ensures SizesOk(Next(s, e), match e
                                case Initialize(new_, count, _) => if new_ == 0 || count == 0 then size else new_
                                case Close => 0
                                case _ => size)
  {
  }

  lemma {:induction false} RunLast(s: Leasing, events: seq<Event>)
    requires AdmissibleRun(s, events) && events != []
    ensures var front := events[..|events| - 1];
            && AdmissibleRun(s, front) && Admissible(Run(s, front), events[|events| - 1])
            && Run(s, events) == Next(Run(s, front), events[|events| - 1])
    decreases |events|
  {
    hide Next, Admissible;
    if |events| == 1 {
      assert events[1..] == [] && events[..0] == [];
      assert AdmissibleRun(s, events[..0]) && Run(s, events[..0]) == s;
    } else {
      var rest := events[1..];
      RunLast(Next(s, events[0]), rest);
      assert rest[..|rest| - 1] == events[..|events| - 1][1..];
    }
  }

  lemma {:induction false} RunSizes(events: seq<Event>)
    requires AdmissibleRun(NewLeasing(), events)
    ensures SizesOk(Run(NewLeasing(), events), LastSize(events))
    decreases |events|
  {
    if events != [] {
      var front, last := events[..|events| - 1], events[|events| - 1];
      RunLast(NewLeasing(), events);
      RunSizes(front);
      NextSizes(Run(NewLeasing(), front), last, LastSize(front));
      hide Next, AdmissibleRun, SizesOk, Run;
    }
  }

  /** After any sequence of operations every buffer of the pool, and so the buffer of every live lease, has
      the size of the last initialize that passed its argument checks. */
  lemma EveryBufferHasTheSizeAskedFor(events: seq<Event>, id: nat)
    requires AdmissibleRun(NewLeasing(), events)
    ensures var s := Run(NewLeasing(), events);
            && s.pool.bufferSize == LastSize(events)
            && (forall a :: a in s.pool.buffers ==> a in s.pool.heap && s.pool.heap[a].size == LastSize(events))
            && (Live(s, id) ==>
                  var a := s.leases[id].buffer.value;
                  a in s.pool.heap && s.pool.heap[a].size == LastSize(events))
  {
    RunSizes(events);
    NewInv();
    RunKeepsInv(NewLeasing(), events);
  }

  /* ---------------------------------- acquire ---------------------------------- */

  /** After any sequence of operations acquire gives a buffer that no live lease holds, exactly when fewer
      leases are live than the pool has buffers, and otherwise an empty lease. */
  lemma AcquireSucceedsExactlyWhen(events: seq<Event>, into: nat)
    requires AdmissibleRun(NewLeasing(), events) && into !in Run(NewLeasing(), events).leases
    ensures var s := Run(NewLeasing(), events);
            var s' := Next(s, Acquire(into));
            && (Live(s', into) <==> |LiveLeases(s)| < |s.pool.buffers|)
            && (Live(s', into) ==>
                  && s'.leases[into].buffer.value in s.pool.buffers
                  && forall id :: Live(s, id) ==> s.leases[id].buffer != s'.leases[into].buffer)
            && (!Live(s', into) ==> s'.leases[into] == EMPTY_LEASE && s'.pool == s.pool)
  {
    var s := Run(NewLeasing(), events);
    NewInv();
    RunKeepsInv(NewLeasing(), events);
    if s.pool.free != [] {
      assert s.pool.free[0] in s.pool.free;
    }
  }

  /** Acquiring n times in a row, into the fresh lease variables from on. */
  function AcquireMany(from: nat, n: nat): (events: seq<Event>)
    ensures |events| == n
    decreases n
  {
    if n == 0 then [] else [Acquire(from)] + AcquireMany(from + 1, n - 1)
  }

  predicate FreshFrom(s: Leasing, from: nat) {
    forall id :: id in s.leases ==> id < from
  }

  /** The k-th of these lease variables holds this buffer of the current generation. */
  predicate Got(s: Leasing, from: nat, k: nat, address: nat) {
    from + k in s.leases && s.leases[from + k] == Lease(Some(address), s.pool.generation)
  }

  /** The buffers come out in the order of the free queue. */
  lemma {:induction false} AcquiredInOrder(s: Leasing, from: nat, n: nat)
    requires FreshFrom(s, from) && n <= |s.pool.free|
    ensures AdmissibleRun(s, AcquireMany(from, n))
    ensures var s' := Run(s, AcquireMany(from, n));
            && s'.pool.free == s.pool.free[n..] && s'.pool.generation == s.pool.generation
            && (forall k :: 0 <= k < n ==> Got(s', from, k, s.pool.free[k]))
            && forall id :: id in s.leases ==> id in s'.leases && s'.leases[id] == s.leases[id]
    decreases n
  {
    if n > 0 {
      var s1 := Next(s, Acquire(from));
      assert AcquireMany(from, n)[1..] == AcquireMany(from + 1, n - 1);
      AcquiredInOrder(s1, from + 1, n - 1);
      var s' := Run(s1, AcquireMany(from + 1, n - 1));
      assert s1.pool.free == s.pool.free[1..];
      assert from in s1.leases && s1.leases[from] == Lease(Some(s.pool.free[0]), s.pool.generation);
      hide Next, AcquireMany;
      forall k | 0 <= k < n ensures Got(s', from, k, s.pool.free[k]) {
        if k > 0 {
          assert Got(s', from + 1, k - 1, s1.pool.free[k - 1]);
        }
      }
    }
  }

  /** A buffer that is given back is leased again after exactly the buffers that were free before it. */
  lemma BuffersAreFirstInFirstOut(s: Leasing, id: nat, from: nat)
    requires Inv(s) && Live(s, id) && FreshFrom(s, from)
    ensures var n := |s.pool.free|;
            var s1 := Next(s, Reset(id));
            && AdmissibleRun(s1, AcquireMany(from, n + 1))
            && var s2 := Run(s1, AcquireMany(from, n + 1));
               && (forall k :: 0 <= k < n ==> Got(s2, from, k, s.pool.free[k]))
               && Got(s2, from, n, s.leases[id].buffer.value)
  {
    LiveLeaseIsGivenBack(s, id);
    GivenBackStaysFresh(s, id, from);
    hide Next, Inv, Got, AdmissibleRun, Run;
    var n := |s.pool.free|;
    var s1 := Next(s, Reset(id));
    AcquiredInOrder(s1, from, n + 1);
    var s2 := Run(s1, AcquireMany(from, n + 1));
    forall k | 0 <= k < n ensures Got(s2, from, k, s.pool.free[k]) {
      assert s1.pool.free[k] == s.pool.free[k];
    }
    assert Got(s2, from, n, s1.pool.free[n]);
  }

  lemma GivenBackStaysFresh(s: Leasing, id: nat, from: nat)
    requires id in s.leases && FreshFrom(s, from)
    ensures FreshFrom(Next(s, Reset(id)), from)
  {
  }

  /* ---------------------------------- moves ---------------------------------- */

  /** A move hands over what the one lease holds and leaves it empty; a move assignment first gives back what
      the other held, and to itself does nothing. No other lease is touched, and a construction leaves the
      pool alone. */
  lemma MovesHandOver(s: Leasing, from: nat, into: nat)
    requires from in s.leases
    ensures into !in s.leases ==>
              var s' := Next(s, MoveConstruct(from, into));
              s'.pool == s.pool && HandedOver(s, s', from, into)
    ensures into in s.leases ==>
              var s' := Next(s, MoveAssign(from, into));
              if from == into then s' == s
              else s'.pool == Next(s, Reset(into)).pool && HandedOver(s, s', from, into)
  {
  }

  predicate HandedOver(s: Leasing, s': Leasing, from: nat, into: nat)
    requires from in s.leases
  {
    && s'.leases.Keys == s.leases.Keys + {into}
    && s'.leases[into] == s.leases[from] && s'.leases[from] == EMPTY_LEASE
    && forall id :: id in s.leases && id != from && id != into ==> s'.leases[id] == s.leases[id]
  }
}
