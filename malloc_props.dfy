/** What `DbMallocRaw` and `sqlite3DbRealloc` promise, proved about the
    functions of `MallocSpec` (and so, through the postconditions of the
    methods of `Malloc`, about the in-place allocator). */
module MallocProps {
  import opened Common
  import opened MallocSpec

  // -----------------------------------------------------------------------
  // DbMallocRaw, one call at a time
  // -----------------------------------------------------------------------

  /** A latched connection gets nil back, and neither its pool nor the heap
      is touched. */
  lemma MallocLatchedIsInert(c: Conn, h: HeapState, n: int, reply: Option<Addr>)
    requires ConnValid(c) && c.mallocFailed
    ensures MallocRaw(Some(c), h, n, reply) == Outcome(Some(c), h, None)
  {
  }

  /** A request larger than a slot bumps only the too-large counter and goes
      to the heap. */
  lemma MallocTooLarge(c: Conn, h: HeapState, n: int, reply: Option<Addr>)
    requires ConnValid(c) && !c.mallocFailed && c.lookaside.bEnabled && n > c.lookaside.sz
    ensures var r := MallocRaw(Some(c), h, n, reply);
      var l, l' := c.lookaside, r.db.value.lookaside;
      && l'.free == l.free && l'.nOut == l.nOut && l'.mxOut == l.mxOut
      && l'.anStat[TooLarge] == l.anStat[TooLarge] + 1
      && l'.anStat[Hit] == l.anStat[Hit] && l'.anStat[Empty] == l.anStat[Empty]
      && r.heap.calls == h.calls + 1
      && (reply.Some? ==> r.p == Some(HeapBlock(reply.value)) && reply.value in r.heap.live)
  {
  }

  /** A request that fits when no slot is free bumps only the pool-empty
      counter and goes to the heap. */
  lemma MallocPoolEmpty(c: Conn, h: HeapState, n: int, reply: Option<Addr>)
    requires ConnValid(c) && !c.mallocFailed && c.lookaside.bEnabled
    requires n <= c.lookaside.sz && c.lookaside.free == []
    ensures var r := MallocRaw(Some(c), h, n, reply);
      var l, l' := c.lookaside, r.db.value.lookaside;
      && l'.free == l.free && l'.nOut == l.nOut && l'.mxOut == l.mxOut
      && l'.anStat[Empty] == l.anStat[Empty] + 1
      && l'.anStat[Hit] == l.anStat[Hit] && l'.anStat[TooLarge] == l.anStat[TooLarge]
      && r.heap.calls == h.calls + 1
      && (reply.Some? ==> r.p == Some(HeapBlock(reply.value)) && reply.value in r.heap.live)
  {
  }

  /** A request that fits when a slot is free gets the head slot, which
      leaves the free list; the outstanding count and hit counter go up by
      one, the high-water mark follows, and the heap is not asked. */
  lemma MallocPoolHit(c: Conn, h: HeapState, n: int, reply: Option<Addr>)
    requires ConnValid(c) && !c.mallocFailed && c.lookaside.bEnabled
    requires n <= c.lookaside.sz && c.lookaside.free != []
    ensures var r := MallocRaw(Some(c), h, n, reply);
      var l, l' := c.lookaside, r.db.value.lookaside;
      && r.p == Some(Slot(l.free[0]))
      && l.free[0] !in l'.free && l'.free == l.free[1..]
      && l'.nOut == l.nOut + 1 && l'.mxOut == Max(l.mxOut, l'.nOut) && l'.mxOut >= l'.nOut
      && l'.anStat[Hit] == l.anStat[Hit] + 1
      && l'.anStat[TooLarge] == l.anStat[TooLarge] && l'.anStat[Empty] == l.anStat[Empty]
      && r.heap == h && !r.db.value.mallocFailed
  {
  }

  /** Whether a call of `DbMallocRaw` on a live connection goes to the heap. */
  predicate GoesToHeap(c: Conn, n: int)
  {
    !c.lookaside.bEnabled || n > c.lookaside.sz || c.lookaside.free == []
  }

  /** A heap failure latches a connection; it latches nothing when there is
      no connection. Either way the caller gets nil. */
  lemma MallocHeapFailure(db: Option<Conn>, h: HeapState, n: int)
    requires db.Some? ==> ConnValid(db.value) && !db.value.mallocFailed && GoesToHeap(db.value, n)
    ensures var r := MallocRaw(db, h, n, None);
      && r.p.None? && r.heap == HeapState(h.live, h.calls + 1)
      && (db.Some? ==> r.db.value.mallocFailed)
      && (db.None? ==> r.db.None?)
  {
  }

  /** A heap success hands the new block to the caller and leaves the latch
      alone; with no connection there is no pool to consult. */
  lemma MallocHeapSuccess(db: Option<Conn>, h: HeapState, n: int, a: Addr)
    requires db.Some? ==> ConnValid(db.value) && !db.value.mallocFailed && GoesToHeap(db.value, n)
    ensures var r := MallocRaw(db, h, n, Some(a));
      && r.p == Some(HeapBlock(a)) && r.heap == HeapState(h.live + {a}, h.calls + 1)
      && (db.Some? ==> !r.db.value.mallocFailed)
      && (db.None? ==> r.db.None?)
  {
  }

  // -----------------------------------------------------------------------
  // sqlite3DbRealloc, one call at a time
  // -----------------------------------------------------------------------

  /** A latched connection gets nil back and the heap is not asked. */
  lemma ReallocLatchedIsInert(c: Conn, h: HeapState, p: Option<Block>, n: int, reply: Option<Addr>)
    requires ConnValid(c) && c.mallocFailed
    ensures DbRealloc(c, h, p, n, reply) == Outcome(Some(c), h, None)
  {
  }

  /** Resizing nil is allocating: same result, same effect, pool included. */
  lemma ReallocOfNilIsMalloc(c: Conn, h: HeapState, n: int, reply: Option<Addr>)
    requires ConnValid(c)
    ensures DbRealloc(c, h, None, n, reply) == MallocRaw(Some(c), h, n, reply)
  {
  }

  /** A failed resize returns nil and latches the connection; nothing is
      freed, so the original block stays with the caller. */
  lemma ReallocFailureKeepsBlock(c: Conn, h: HeapState, b: Block, n: int)
    requires ConnValid(c) && !c.mallocFailed
    ensures var r := DbRealloc(c, h, Some(b), n, None);
      && r.p.None? && r.db == Some(c.(mallocFailed := true))
      && r.heap.live == h.live && r.heap.calls == h.calls + 1
      && (b.HeapBlock? && b.addr in h.live ==> b.addr in r.heap.live)
  {
  }

  /** A successful resize hands back the new heap block, takes back the old
      one, and leaves the connection as it was. */
  lemma ReallocSuccess(c: Conn, h: HeapState, b: Block, n: int, a: Addr)
    requires ConnValid(c) && !c.mallocFailed
    ensures var r := DbRealloc(c, h, Some(b), n, Some(a));
      && r.p == Some(HeapBlock(a)) && r.db == Some(c)
      && a in r.heap.live && r.heap.calls == h.calls + 1
      && (b.HeapBlock? && b.addr != a ==> b.addr !in r.heap.live)
  {
  }

  // -----------------------------------------------------------------------
  // Chains of calls on one connection
  // -----------------------------------------------------------------------

  /** One call a caller makes on a connection. */
  datatype Request = Alloc(n: int, reply: Option<Addr>) | Resize(p: Option<Block>, n: int, reply: Option<Addr>)

  function Serve(c: Conn, h: HeapState, rq: Request): (r: Outcome)
    requires ConnValid(c)
    ensures r.db.Some? && ConnValid(r.db.value)
    ensures c.mallocFailed ==> r == Outcome(Some(c), h, None)
    ensures r.p.None? ==> r.db.value.mallocFailed
  {
    match rq
    case Alloc(n, reply) => MallocRaw(Some(c), h, n, reply)
    case Resize(p, n, reply) => DbRealloc(c, h, p, n, reply)
  }

  /** The connection, heap and results after a chain of calls. */
  datatype Run = Run(db: Conn, heap: HeapState, results: seq<Option<Block>>)

  function RunRequests(c: Conn, h: HeapState, rqs: seq<Request>): (r: Run)
    requires ConnValid(c)
    ensures ConnValid(r.db) && |r.results| == |rqs|
    decreases rqs
  {
    if rqs == [] then Run(c, h, [])
    else
      var o := Serve(c, h, rqs[0]);
      var rest := RunRequests(o.db.value, o.heap, rqs[1..]);
      Run(rest.db, rest.heap, [o.p] + rest.results)
  }

  /** Once latched, a connection answers every later call with nil and
      never touches the heap again. */
  lemma {:induction false} LatchedRunIsInert(c: Conn, h: HeapState, rqs: seq<Request>)
    requires ConnValid(c) && c.mallocFailed
    ensures var r := RunRequests(c, h, rqs);
      r.db == c && r.heap == h && forall i :: 0 <= i < |r.results| ==> r.results[i].None?
    decreases rqs
  {
    if rqs != [] {
      LatchedRunIsInert(c, h, rqs[1..]);
    }
  }

  /** Failure is sticky: after a call returns nil, every later call on the
      same connection returns nil too. */
  lemma {:induction false} FailureIsSticky(c: Conn, h: HeapState, rqs: seq<Request>, i: nat)
    requires ConnValid(c) && i < |rqs|
    requires RunRequests(c, h, rqs).results[i].None?
    ensures forall j :: i <= j < |rqs| ==> RunRequests(c, h, rqs).results[j].None?
    decreases rqs
  {
    var o := Serve(c, h, rqs[0]);
    var rest := RunRequests(o.db.value, o.heap, rqs[1..]);
    assert RunRequests(c, h, rqs).results == [o.p] + rest.results;
    if i == 0 {
      LatchedRunIsInert(o.db.value, o.heap, rqs[1..]);
    } else {
      FailureIsSticky(o.db.value, o.heap, rqs[1..], i - 1);
    }
  }

  /** The caller's shortcut: when a later allocation on a connection
      succeeded, every earlier one succeeded too. */
  lemma LaterSuccessMeansEarlierSuccess(c: Conn, h: HeapState, rqs: seq<Request>, i: nat, j: nat)
    requires ConnValid(c) && i < j < |rqs|
    requires RunRequests(c, h, rqs).results[j].Some?
    ensures RunRequests(c, h, rqs).results[i].Some?
  {
    if RunRequests(c, h, rqs).results[i].None? {
      FailureIsSticky(c, h, rqs, i);
    }
  }

  /** Every request is an allocation of at most `sz` bytes. */
  predicate SmallAllocs(rqs: seq<Request>, sz: int)
  {
    forall i :: 0 <= i < |rqs| ==> rqs[i].Alloc? && rqs[i].n <= sz
  }

  /** While free slots last, small allocations are served from the pool, in
      free-list order, without asking the heap: each is a hit, and the
      high-water mark reaches the outstanding count. */
  lemma {:induction false} PoolServesFreeSlotsFirst(c: Conn, h: HeapState, rqs: seq<Request>)
    requires ConnValid(c) && !c.mallocFailed && c.lookaside.bEnabled
    requires |rqs| <= |c.lookaside.free| && SmallAllocs(rqs, c.lookaside.sz)
    ensures var r := RunRequests(c, h, rqs);
      var l, l', k := c.lookaside, r.db.lookaside, |rqs|;
      && r.heap == h && !r.db.mallocFailed && l'.bEnabled && l'.sz == l.sz
      && (forall i :: 0 <= i < k ==> r.results[i] == Some(Slot(l.free[i])))
      && l'.free == l.free[k..]
      && l'.nOut == l.nOut + k && l'.mxOut == Max(l.mxOut, l'.nOut)
      && l'.anStat[Hit] == l.anStat[Hit] + k
      && l'.anStat[TooLarge] == l.anStat[TooLarge] && l'.anStat[Empty] == l.anStat[Empty]
    decreases rqs
  {
    if rqs != [] {
      var o := Serve(c, h, rqs[0]);
      assert rqs[0].Alloc? && rqs[0].n <= c.lookaside.sz;
      MallocPoolHit(c, h, rqs[0].n, rqs[0].reply);
      var c' := o.db.value;
      assert SmallAllocs(rqs[1..], c'.lookaside.sz) by {
        forall i | 0 <= i < |rqs[1..]| ensures rqs[1..][i].Alloc? && rqs[1..][i].n <= c'.lookaside.sz {
          assert rqs[1..][i] == rqs[i + 1];
        }
      }
      PoolServesFreeSlotsFirst(c', o.heap, rqs[1..]);
      assert c.lookaside.free[1..][|rqs| - 1..] == c.lookaside.free[|rqs|..];
      forall i | 1 <= i < |rqs|
        ensures c'.lookaside.free[i - 1] == c.lookaside.free[i]
      {
      }
    }
  }

  /** Lookaside exhaustion: on a fresh pool of eight 64-byte slots, eight
      64-byte allocations are hits (hit counter 8, high-water mark 8) and the
      heap is never asked; a ninth goes to the heap and bumps the pool-empty
      counter; a 100-byte allocation bypasses the pool whatever is free. */
  lemma LookasideExhaustion(h: HeapState, reply: Option<Addr>)
    ensures var c := Conn(false, FreshPool(true, 64, 8));
      var eight := seq(8, _ => Alloc(64, reply));
      var r := RunRequests(c, h, eight);
      && r.heap == h
      && r.db.lookaside.anStat[Hit] == 8 && r.db.lookaside.mxOut == 8 && r.db.lookaside.free == []
      && MallocRaw(Some(r.db), h, 64, reply).db.value.lookaside.anStat[Empty] == 1
      && MallocRaw(Some(r.db), h, 64, reply).heap.calls == h.calls + 1
      && MallocRaw(Some(c), h, 100, reply).db.value.lookaside.anStat[TooLarge] == 1
      && MallocRaw(Some(c), h, 100, reply).db.value.lookaside.free == c.lookaside.free
  {
    var c := Conn(false, FreshPool(true, 64, 8));
    var eight := seq(8, _ => Alloc(64, reply));
    PoolServesFreeSlotsFirst(c, h, eight);
  }
}
