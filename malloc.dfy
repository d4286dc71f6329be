/** The per-connection allocator as the objects it updates in place: the
    lookaside pool with its slot arena, whose free list is threaded through
    an index-based `next` array; the connection with its failure latch; and
    the general heap, an oracle told what to answer. `DbMallocRaw` and
    `DbRealloc` are proved to leave exactly the state that the functions of
    `MallocSpec` describe. */
module Malloc {
  import opened Common
  import opened MallocSpec

  /** The end of the free list. */
  const Nil: int := -1

  /** `head` starts a chain through `next` that visits exactly the slots of
      `free`, in order, and ends in `Nil`. */
  ghost predicate Chain(head: int, free: seq<nat>, next: seq<int>)
  {
    && (forall k :: 0 <= k < |free| ==> free[k] < |next|)
    && head == (if free == [] then Nil else free[0])
    && (forall j, k :: 0 <= j && j + 1 == k < |free| ==> next[free[j]] == free[k])
    && (free != [] ==> next[free[|free| - 1]] == Nil)
  }

  /** Following the head's link leaves a chain over the rest of the list. */
  lemma ChainPop(head: int, free: seq<nat>, next: seq<int>)
    requires Chain(head, free, next) && head != Nil
    ensures free != [] && 0 <= head < |next| && head == free[0]
    ensures Chain(next[head], free[1..], next)
  {
    if 1 < |free| {
      assert next[free[0]] == free[1];
    }
    forall j, k | 0 <= j && j + 1 == k < |free| - 1
      ensures next[free[1..][j]] == free[1..][k]
    {
      assert free[1..][j] == free[j + 1] && free[1..][k] == free[k + 1];
    }
  }

  /** The lookaside pool of one connection. */
  class Lookaside {
    var bEnabled: bool
    var sz: int
    var pFree: int
    var nOut: int
    var mxOut: int
    const anStat: array<int>
    const next: array<int>
    ghost var free: seq<nat>

    ghost predicate Valid()
      reads this, anStat, next
    {
      && anStat.Length == 3
      && anStat != next
      && Chain(pFree, free, next[..])
      && PoolValid(View())
    }

    ghost function View(): Pool
      reads this, anStat, next
    {
      Pool(bEnabled, sz, next.Length, free, nOut, mxOut, anStat[..])
    }

    /** A pool of `nSlot` slots of `sz` bytes, all free, in arena order. */
    constructor (enabled: bool, sz: int, nSlot: nat)
      ensures Valid() && fresh(anStat) && fresh(next)
      ensures View() == FreshPool(enabled, sz, nSlot)
    {
      bEnabled := enabled;
      this.sz := sz;
      nOut, mxOut := 0, 0;
      pFree := if nSlot == 0 then Nil else 0;
      anStat := new int[3](_ => 0);
      next := new int[nSlot](i => if i + 1 < nSlot then i + 1 else Nil);
      free := seq(nSlot, i => i);
      new;
      assert anStat[..] == [0, 0, 0];
    }

    /** The lookaside attempt of `DbMallocRaw`. */
    method Try(n: int) returns (slot: Option<nat>)
      requires Valid()
      modifies this, anStat
      ensures Valid()
      ensures PoolTry(View(), slot) == TryLookaside(old(View()), n)
    {
      slot := None;
      if bEnabled {
        if n > sz {
          anStat[TooLarge] := anStat[TooLarge] + 1;
          assert anStat[..] == Bump(old(anStat[..]), TooLarge);
        } else if pFree == Nil {
          anStat[Empty] := anStat[Empty] + 1;
          assert anStat[..] == Bump(old(anStat[..]), Empty);
        } else {
          var s := Pop();
          slot := Some(s);
        }
      }
    }

    /** Takes the head slot off the free list. */
    method Pop() returns (slot: nat)
      requires Valid() && pFree != Nil
      modifies this, anStat
      ensures Valid()
      ensures slot == old(pFree) && pFree == old(next[pFree])
      ensures old(View()).free != [] && View() == TakeSlot(old(View()))
    {
      ghost var v := View();
      ChainPop(pFree, free, next[..]);
      slot := pFree;
      pFree := next[slot];
      free := free[1..];
      nOut := nOut + 1;
      anStat[Hit] := anStat[Hit] + 1;
      if nOut > mxOut {
        mxOut := nOut;
      }
      assert anStat[..] == Bump(v.anStat, Hit);
      assert View() == TakeSlot(v);
    }
  }

  /** A database connection, as far as the allocator sees it. */
  class Connection {
    var mallocFailed: bool
    // The source embeds the pool in the connection; here it is a reference,
    // which two connections could share, though the source never does.
    const lookaside: Lookaside

    ghost predicate Valid()
      reads this, lookaside, lookaside.anStat, lookaside.next
    {
      lookaside.Valid()
    }

    ghost function View(): Conn
      reads this, lookaside, lookaside.anStat, lookaside.next
    {
      Conn(mallocFailed, lookaside.View())
    }

    /** A connection over a ready pool, not latched. */
    constructor (pool: Lookaside)
      requires pool.Valid()
      ensures lookaside == pool && Valid() && View() == Conn(false, pool.View())
    {
      mallocFailed := false;
      lookaside := pool;
    }
  }

  /** The general heap, answering each request as told. */
  class Heap {
    var live: set<Addr>
    var calls: nat

    function View(): HeapState
      reads this
    {
      HeapState(live, calls)
    }

    /** `sqlite3Malloc`. */
    method Malloc(n: int, reply: Option<Addr>) returns (p: Option<Addr>)
      modifies this
      ensures p == reply && View() == HeapMalloc(old(View()), n, reply)
    {
      calls := calls + 1;
      if reply.Some? {
        live := live + {reply.value};
      }
      p := reply;
    }

    /** `sqlite3_realloc`. */
    method Realloc(b: Block, n: int, reply: Option<Addr>) returns (p: Option<Addr>)
      modifies this
      ensures p == reply && View() == HeapRealloc(old(View()), b, n, reply)
    {
      calls := calls + 1;
      if reply.Some? {
        if b.HeapBlock? {
          live := live - {b.addr};
        }
        live := live + {reply.value};
      }
      p := reply;
    }
  }

  /** The connection a call works on, or `None` for a nil connection. */
  ghost function Observe(db: Connection?): Option<Conn>
    reads if db == null then {} else {db, db.lookaside, db.lookaside.anStat, db.lookaside.next}
  {
    if db == null then None else Some(db.View())
  }

  /** `DbMallocRaw`. */
  method DbMallocRaw(db: Connection?, heap: Heap, n: int, reply: Option<Addr>) returns (p: Option<Block>)
    requires db != null ==> db.Valid()
    modifies heap
    modifies if db == null then {} else {db, db.lookaside, db.lookaside.anStat}
    ensures db != null ==> db.Valid()
    ensures Outcome(Observe(db), heap.View(), p) == MallocRaw(old(Observe(db)), old(heap.View()), n, reply)
  {
    if db != null {
      if db.mallocFailed {
        return None;
      }
      var slot := db.lookaside.Try(n);
      if slot.Some? {
        return Some(Slot(slot.value));
      }
    }
    ghost var tried := Observe(db);
    var a := heap.Malloc(n, reply);
    if a.None? && db != null {
      db.mallocFailed := true;
    }
    p := if a.Some? then Some(HeapBlock(a.value)) else None;
    assert Outcome(Observe(db), heap.View(), p) == HeapFallback(tried, old(heap.View()), n, reply);
  }

  /** `sqlite3DbRealloc`. */
  method DbRealloc(db: Connection, heap: Heap, p: Option<Block>, n: int, reply: Option<Addr>)
    returns (pNew: Option<Block>)
    requires db.Valid()
    modifies heap, db, db.lookaside, db.lookaside.anStat
    ensures db.Valid()
    ensures Outcome(Some(db.View()), heap.View(), pNew) == MallocSpec.DbRealloc(old(db.View()), old(heap.View()), p, n, reply)
  {
    pNew := None;
    if !db.mallocFailed {
      if p.None? {
        pNew := DbMallocRaw(db, heap, n, reply);
        return;
      }
      var a := heap.Realloc(p.value, n, reply);
      if a.None? {
        db.mallocFailed := true;
      } else {
        pNew := Some(HeapBlock(a.value));
      }
    }
  }
}
