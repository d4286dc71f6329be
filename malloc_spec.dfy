/** The per-connection allocator as values: a connection's failure latch and
    lookaside pool, the general heap seen from outside, and the effect of
    `DbMallocRaw` and `sqlite3DbRealloc` on them. The heap is an oracle:
    each call takes the address `sqlite3Malloc` or `sqlite3_realloc` would
    hand back (`None` for a failure) as a parameter. */
module MallocSpec {
  import opened Common

  /** A heap address; the heap never hands out nil. */
  type Addr = a: nat | a != 0 witness 1

  /** A block handed to the caller: a lookaside slot (by its index in the
      pool's arena) or a heap block. */
  datatype Block = Slot(index: nat) | HeapBlock(addr: Addr)

  /** The lookaside pool of one connection. `free` lists the free slots in
      free-list order, head first; `anStat` holds the hit, too-large and
      pool-empty counters at indices 0, 1 and 2. */
  datatype Pool = Pool(bEnabled: bool, sz: int, nSlot: nat, free: seq<nat>,
                       nOut: int, mxOut: int, anStat: seq<int>)

  /** The allocator's view of a connection. */
  datatype Conn = Conn(mallocFailed: bool, lookaside: Pool)

  /** The general heap: the addresses it has handed out and not taken back,
      and how many times it has been asked for memory. */
  datatype HeapState = HeapState(live: set<Addr>, calls: nat)

  /** What one allocator call leaves behind: the connection (if any), the
      heap, and the block handed back (`None` for nil). */
  datatype Outcome = Outcome(db: Option<Conn>, heap: HeapState, p: Option<Block>)

  const Hit: nat := 0
  const TooLarge: nat := 1
  const Empty: nat := 2

  /** The pool's bookkeeping is consistent: three counters, every slot is
      either free or outstanding, free slots are distinct slots of the
      arena, and the high-water mark is at least the outstanding count. */
  predicate PoolValid(l: Pool)
  {
    && |l.anStat| == 3
    && 0 <= l.nOut <= l.mxOut
    && l.nOut + |l.free| == l.nSlot
    && (forall k :: 0 <= k < |l.free| ==> l.free[k] < l.nSlot)
    && (forall j, k :: 0 <= j < k < |l.free| ==> l.free[j] != l.free[k])
  }

  predicate ConnValid(c: Conn)
  {
    PoolValid(c.lookaside)
  }

  /** A pool of `nSlot` slots of `sz` bytes as set up for a new
      connection: every slot free, in arena order, and all counters zero. */
  function FreshPool(enabled: bool, sz: int, nSlot: nat): (r: Pool)
    ensures PoolValid(r) && |r.free| == nSlot && r.nOut == 0
  {
    Pool(enabled, sz, nSlot, seq(nSlot, i => i), 0, 0, [0, 0, 0])
  }

  /** Adds one to counter `i`. */
  function Bump(s: seq<int>, i: nat): (r: seq<int>)
    requires i < |s|
    ensures |r| == |s| && r[i] == s[i] + 1
    ensures forall k :: 0 <= k < |s| && k != i ==> r[k] == s[k]
  {
    s[i := s[i] + 1]
  }

  /** A pool hit: the head slot leaves the free list and becomes
      outstanding, and the hit counter and high-water mark follow. */
  function TakeSlot(l: Pool): (r: Pool)
    requires PoolValid(l) && l.free != []
    ensures PoolValid(r)
    ensures l.free[0] !in r.free && multiset(r.free) + multiset{l.free[0]} == multiset(l.free)
  {
    assert l.free == [l.free[0]] + l.free[1..];
    var nOut := l.nOut + 1;
    l.(free := l.free[1..], nOut := nOut, anStat := Bump(l.anStat, Hit), mxOut := Max(l.mxOut, nOut))
  }

  /** `sqlite3Malloc(n)`, answered by `reply`. */
  function HeapMalloc(h: HeapState, n: int, reply: Option<Addr>): (r: HeapState)
    ensures r.calls == h.calls + 1
    ensures reply.None? ==> r.live == h.live
    ensures reply.Some? ==> r.live == h.live + {reply.value}
  {
    HeapState(if reply.Some? then h.live + {reply.value} else h.live, h.calls + 1)
  }

  /** `sqlite3_realloc(p, n)`, answered by `reply`: on success the old heap
      block is taken back and the new one handed out; on failure nothing
      is freed. */
  function HeapRealloc(h: HeapState, p: Block, n: int, reply: Option<Addr>): (r: HeapState)
    ensures r.calls == h.calls + 1
    ensures reply.None? ==> r.live == h.live
    ensures reply.Some? && p.HeapBlock? ==> r.live == (h.live - {p.addr}) + {reply.value}
    ensures reply.Some? && p.Slot? ==> r.live == h.live + {reply.value}
  {
    var kept := if p.HeapBlock? then h.live - {p.addr} else h.live;
    HeapState(if reply.Some? then kept + {reply.value} else h.live, h.calls + 1)
  }

  /** The heap path of `DbMallocRaw`: ask the heap, and latch the
      connection's failure flag if the heap says no. */
  function HeapFallback(db: Option<Conn>, h: HeapState, n: int, reply: Option<Addr>): (r: Outcome)
    ensures r.heap == HeapMalloc(h, n, reply)
    ensures r.p.Some? <==> reply.Some?
    ensures reply.Some? ==> r.p == Some(HeapBlock(reply.value)) && r.db == db
    ensures reply.None? && db.Some? ==> r.db == Some(db.value.(mallocFailed := true))
    ensures db.None? ==> r.db.None?
  {
    var latched := if reply.None? && db.Some? then Some(db.value.(mallocFailed := true)) else db;
    Outcome(latched, HeapMalloc(h, n, reply),
            if reply.Some? then Some(HeapBlock(reply.value)) else None)
  }

  /** What the lookaside attempt leaves: the pool, and the slot taken. */
  datatype PoolTry = PoolTry(pool: Pool, slot: Option<nat>)

  /** The lookaside attempt of `DbMallocRaw` on a connection that is not
      latched: a disabled pool is skipped; otherwise the request is counted
      as too large, as a miss on an empty pool, or served from the head of
      the free list. */
  function TryLookaside(l: Pool, n: int): (r: PoolTry)
    requires PoolValid(l)
    ensures PoolValid(r.pool)
  {
    if !l.bEnabled then PoolTry(l, None)
    else if n > l.sz then PoolTry(l.(anStat := Bump(l.anStat, TooLarge)), None)
    else if l.free == [] then PoolTry(l.(anStat := Bump(l.anStat, Empty)), None)
    else PoolTry(TakeSlot(l), Some(l.free[0]))
  }

  /** `DbMallocRaw(db, n)` with `sqlite3Malloc` answering `reply`. */
  function MallocRaw(db: Option<Conn>, h: HeapState, n: int, reply: Option<Addr>): (r: Outcome)
    requires db.Some? ==> ConnValid(db.value)
    ensures db.Some? <==> r.db.Some?
    ensures db.Some? ==> ConnValid(r.db.value)
    ensures db.Some? && db.value.mallocFailed ==> r.db.value.mallocFailed
    ensures r.p.None? && db.Some? ==> r.db.value.mallocFailed
  {
    if db.None? then HeapFallback(None, h, n, reply)
    else if db.value.mallocFailed then Outcome(db, h, None)
    else
      var t := TryLookaside(db.value.lookaside, n);
      var c := db.value.(lookaside := t.pool);
      if t.slot.Some? then Outcome(Some(c), h, Some(Slot(t.slot.value)))
      else HeapFallback(Some(c), h, n, reply)
  }

  /** `sqlite3DbRealloc(db, p, n)` with the heap answering `reply`. The
      connection is never nil here. */
  function DbRealloc(c: Conn, h: HeapState, p: Option<Block>, n: int, reply: Option<Addr>): (r: Outcome)
    requires ConnValid(c)
    ensures r.db.Some? && ConnValid(r.db.value)
    ensures c.mallocFailed ==> r.db.value.mallocFailed
    ensures r.p.None? ==> r.db.value.mallocFailed
  {
    if c.mallocFailed then
      Outcome(Some(c), h, None)
    else if p.None? then
      MallocRaw(Some(c), h, n, reply)
    else
      var h' := HeapRealloc(h, p.value, n, reply);
      if reply.None? then Outcome(Some(c.(mallocFailed := true)), h', None)
      else Outcome(Some(c), h', Some(HeapBlock(reply.value)))
  }
}
