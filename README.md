# SQLite bootstrap and connection allocator, in Dafny

This project models two sequential state machines from a Go transliteration
of SQLite's library bootstrap and per-connection allocator.

**The process-wide configuration record `sqlite3Config`.** It is driven by three entry points:

- `sqlite3_initialize` brings the subsystems up in order:
  - mutex;
  - heap and the recursive init mutex, under the master mutex, with a reference count on the init mutex;
  - the bootstrap body under the init mutex: built-in function registration, page-cache init, OS init, and the page-cache buffer.
  - It then gives its init-mutex reference back.
- `sqlite3_shutdown` tears the subsystems down in reverse.
- `sqlite3_config` is a setter dispatched on an opcode. It works only while the library is not initialized.

`Setup.GlobalConfig` is a class whose fields these methods update in place. Each method is proved to leave exactly the state, and return exactly the code, that a function in `SetupSpec` describes. `SetupProps` proves what the source promises about those functions. `SetupTrace` proves the order of the collaborator calls and the failure codes.

The reference functions of `SetupSpec` carry no contract of their own: `Initialize`, `EnterMaster`, `ReferenceInitMutex`, `Bootstrap`, `RunOsInit`, `LeaveMaster`, `Shutdown` with its `End*` steps, `Configure` and `Dispatch`. In the table below, each appears through the method row proved equal to it and the lemmas about it. Of the functions of `MallocSpec`, the allocator operations (`MallocRaw`, `DbRealloc`) and the pool and heap-fallback steps (`TakeSlot`, `TryLookaside`, `HeapFallback`) have rows of their own. The heap oracles `HeapMalloc` and `HeapRealloc`, the counter helper `Bump` and the fresh-pool constructor `FreshPool` are helpers without rows.

**Collaborators are oracles.** The collaborators are `sqlite3MutexInit`, `sqlite3MallocInit`, the recursive-mutex allocator, `sqlite3PcacheInitialize` and `sqlite3OsInit`.
- Their answers come in an `InitEnv`.
- `sqlite3OsInit` may call `sqlite3_initialize` again. That nested call is the optional `InitEnv.reentry`, which carries its own answers.
- Every collaborator call is appended to a trace (`calls`). Properties like "registers once" and "runs the hook only for a set flag" are then statements about that trace.

**The connection allocator.**
- `DbMallocRaw` first honours the connection's sticky `mallocFailed` latch.
- It then tries the connection's lookaside pool:
  - a request too large for a slot bumps counter 1;
  - a request that fits when the free list is empty bumps counter 2;
  - a hit pops the head of the free list, bumps counter 0 and `nOut`, and raises the `mxOut` high-water mark.
- Otherwise it falls back to the heap, and latches the connection when the heap fails.
- `sqlite3DbRealloc` honours the latch, passes a nil block on to `DbMallocRaw`, and latches on a failed resize.

The pool, connection and heap are classes in `Malloc`. The free list is threaded through an index-based `next` array over the slot arena, and `Chain` ties it to a ghost list of free slots. `MallocSpec` describes the same calls on values. `MallocProps` proves the source's promises about them, including runs of many calls on one connection.

The heap is an oracle: each call takes, as a parameter, the address `sqlite3Malloc` or `sqlite3_realloc` would return (`None` for failure). The model also fixes what each answer does to the heap's set of live blocks (`HeapMalloc`, `HeapRealloc`): a new address becomes live, a successful resize takes the old heap block back, and a nil answer frees nothing.

## Model

| member | source | states |
|---|---|---|
| Setup.GlobalConfig.Initialize | setup.go:24-135 | leaves exactly the state and result code that `SetupSpec.Initialize` gives for the old state and the collaborators' answers |
| Setup.GlobalConfig.EnterMaster | setup.go:47-65 | the first master section: state and code equal `SetupSpec.EnterMaster` |
| Setup.GlobalConfig.Bootstrap | setup.go:82-101 | the guarded bootstrap body: state and code equal `SetupSpec.Bootstrap` |
| Setup.GlobalConfig.RunOsInit | setup.go:93 | the OS-init call, with its optional nested `sqlite3_initialize`: state equals `SetupSpec.RunOsInit`, and the code is the OS layer's answer |
| Setup.GlobalConfig.LeaveMaster | setup.go:104-111 | the second master section: state equals `SetupSpec.LeaveMaster` |
| Setup.GlobalConfig.Shutdown | setup.go:142-173 | returns OK and leaves the state `SetupSpec.Shutdown` gives |
| Setup.GlobalConfig.Config | setup.go:180-186 | state, code and fetched table equal `SetupSpec.Configure` (MISUSE gate, then dispatch) |
| Setup.GlobalConfig.Dispatch | setup.go:189-278 | the opcode switch writes only the tunables; its tunables, code and fetched table equal `SetupSpec.Dispatch` |
| SetupSpec.MmapLimits | setup.go:262-275 | the clamped mmap limits satisfy 0 <= szMmap <= mxMmap <= MaxMmapSize; mxMmap is kept when it lies in range; a negative szMmap becomes the default before the final min |
| SetupProps.EnterMasterOutcome | setup.go:47-71 | the first master section fails exactly when malloc init fails, or core mutexing is on and the init mutex cannot be made; only success adds a reference; an existing init mutex is kept |
| SetupProps.EnterMasterCalls | setup.go:50-60 | the exact calls of the first master section: malloc init only when the heap is uninitialized, then a recursive-mutex request only when the heap is up and no init mutex exists |
| SetupProps.EnterMasterTrace | setup.go:47-65 | the first master section makes none of the bootstrap body's calls |
| SetupProps.LeaveMasterFrame | setup.go:104-111 | the second master section drops one reference, touches only the count, the handle and the trace, and makes no bootstrap call |
| SetupProps.LeaveMasterFreesAtZero | setup.go:105-110 | the init mutex is freed, once, and cleared exactly when the count reaches 0; otherwise handle and trace are unchanged |
| SetupProps.NestedInitializeSkipsBootstrap | setup.go:83-100 | a call made while a bootstrap is in progress skips the body: no registration, no page-cache or OS init, and isInit is unchanged |
| SetupProps.NestedIgnoresReentry | setup.go:83-93 | a call made while a bootstrap is in progress behaves the same whatever re-entrant call its OS init would make, since it never reaches `sqlite3OsInit` |
| SetupProps.RunOsInitFrame | setup.go:83-100 | OS init, called from inside the body, leaves the body's flags as they were and makes no second registration |
| SetupProps.BootstrapOutcome | setup.go:83-100 | a body that runs registers the functions once, sets isInit exactly when page-cache init (if needed) and OS init succeed, and always clears inProgress |
| SetupProps.InitializeFastPath | setup.go:27-29 | once initialized, `sqlite3_initialize` returns OK and changes nothing |
| SetupProps.InitializeMutexInitFailure | setup.go:40-42 | a failing mutex init is returned unchanged, and nothing else is touched |
| SetupProps.InitializeInitMutexFailure | setup.go:55-71 | with core mutexing on and no recursive mutex, the result is NOMEM, the reference count is not incremented, and the bootstrap does not run |
| SetupProps.InitializeBalancesRefCount | setup.go:62-64 | every call ends with the init-mutex count where it started |
| SetupProps.InitializeKeepsQuiescent | setup.go:104-111 | from a state where nobody holds the init mutex, a call leaves the count at 0 and the handle freed, with no bootstrap in progress |
| SetupProps.InitializeKeepsHeldInitMutex | setup.go:104-111 | a call never frees an init mutex on which an outer call still holds a reference |
| SetupProps.InitializeSucceedsIff | setup.go:88-98 | from a quiescent, uninitialized state, isInit is set exactly when every collaborator succeeds, and the result is then OK |
| SetupProps.InitializeRegistersOnce | setup.go:83-87 | an outermost call registers the built-in functions at most once, exactly once when it completes initialization, and not at all on an initialized library |
| SetupProps.PcacheInitializedAtMostOnce | setup.go:88-90 | page-cache init is skipped once isPCacheInit is set, nested calls included |
| SetupProps.InitializeRunsPcacheInitOnce | setup.go:88-92 | an outermost call that finds the page cache uninitialized runs its init at most once, and exactly once when it completes initialization |
| SetupProps.InitializedStaysPut | setup.go:27-29 | any number of calls after initialization return OK and change nothing |
| SetupProps.ShutdownTearsDown | setup.go:142-173 | shutdown returns OK and clears all four subsystem flags; it nulls the data and temp directories only when it shut the heap down, and changes nothing else |
| SetupProps.ShutdownTrace | setup.go:143-171 | each teardown hook is called once for each flag that was set, and no other call is made |
| SetupProps.ShutdownEndsOsLayerIffInit | setup.go:143-151 | the OS layer is ended, and the auto-extension list reset, exactly when isInit was set |
| SetupProps.ShutdownEndsSubsystemsIffSet | setup.go:152-171 | the page cache, heap and mutex subsystems are each shut down exactly when their flag was set |
| SetupProps.ShutdownIdempotent | setup.go:138-140 | a second shutdown is a no-op |
| SetupProps.ShutdownWhenNeverInitialized | setup.go:138-140 | shutdown of a library that was never brought up returns OK and changes nothing |
| SetupProps.ReinitializeAfterShutdown | setup.go:142-173 | initialize after shutdown succeeds again when the collaborators do, and leaves no reference held |
| SetupProps.ReinitializeRerunsBootstrap | setup.go:83-92 | after shutdown, the bootstrap runs in full again: one more registration and one more page-cache init |
| SetupProps.ConfigureAfterInitIsMisuse | setup.go:184-186 | once initialized, every opcode returns MISUSE and changes nothing |
| SetupProps.ConfigureOnlyWritesTunables | setup.go:189-278 | `sqlite3_config` never writes an initialization flag, the directories or the trace |
| SetupProps.ConfigureThreadingModes | setup.go:191-202 | SINGLETHREAD, MULTITHREAD and SERIALIZED set (bCoreMutex, bFullMutex) to (0,0), (1,0) and (1,1), return OK, and change nothing else |
| SetupProps.ConfigureRetiredOpcodes | setup.go:231-235 | GETPCACHE and unknown opcodes return ERROR and change nothing; PCACHE is an OK no-op |
| SetupProps.ConfigureMmapSize | setup.go:262-275 | after MMAP_SIZE, 0 <= szMmap <= mxMmap <= MaxMmapSize, the result is OK, an in-range request is stored unchanged, a negative szMmap becomes the default before the final min, and no other setting changes |
| SetupProps.ConfigureGettersInstallDefaults | setup.go:212-243 | GETMALLOC and GETPCACHE2 install exactly the built-in table (`DefaultMemMethods`, `DefaultPcacheMethods2`) when the entry point is nil, change nothing else, and hand it back; a table that is set is handed back with nothing changed |
| SetupProps.ConfigureSetThenGet | setup.go:203-243 | setting a mutex table and then getting it hands back that same table; the same holds for an allocator or page-cache table whose entry point (`xMalloc`, `xInit`) is not nil |
| SetupProps.ConfigureSetNilThenGet | setup.go:209-243 | an allocator or page-cache table set with a nil entry point is replaced by the built-in table when it is next fetched |
| SetupTrace.BootstrapFailureCodes | setup.go:88-98 | inside the body, a page-cache failure is returned as given and OS init never runs; an OS failure is returned as given; neither sets isInit |
| SetupTrace.InitializeFailureCodes | setup.go:48-98 | the first failing step's code is returned verbatim: the heap-init code, NOMEM for a missing init mutex under core mutexing, the page-cache code (with no OS init in the trace), or the OS code; none leaves the library initialized |
| SetupTrace.NestedInitializeExtendsTrace | setup.go:83-111 | a call made while a bootstrap is in progress only appends to the trace |
| SetupTrace.RunOsInitExtendsTrace | setup.go:93 | OS init appends its own call first; a nested call only appends after it, and without one nothing else is appended |
| SetupTrace.BootstrapCallOrder | setup.go:84-98 | a completing body calls registration, page-cache init (if needed) and OS init in that order, and ends with the page-cache buffer setup |
| SetupTrace.InitializeCallOrder | setup.go:40-111 | a successful outermost call makes the bring-up calls in order (mutex, heap if needed, init mutex, registration, page cache if needed, OS init), then whatever a re-entrant call adds, then the buffer setup and the release of the init mutex it created |
| SetupTrace.InitializeCallsWithoutReentry | setup.go:40-111 | without a re-entrant call, the trace grows by exactly the bring-up calls, the buffer setup and the release of the init mutex |
| SetupTrace.ShutdownCallOrder | setup.go:143-171 | shutdown appends exactly OS end and auto-extension reset, page-cache shutdown, heap end and mutex end, in that order, each only when its flag is set: the reverse of bring-up |
| Malloc.DbMallocRaw | malloc.go:16-52 | leaves the connection, the heap and the returned block exactly as `MallocSpec.MallocRaw` says, and keeps the pool's free-list chain valid |
| Malloc.DbRealloc | malloc.go:56-74 | leaves the connection, the heap and the returned block exactly as `MallocSpec.DbRealloc` says |
| Malloc.Lookaside.Try | malloc.go:25-39 | the pool and the slot taken are those of `MallocSpec.TryLookaside` |
| Malloc.Lookaside.Pop | malloc.go:30-37 | returns the old head, makes the head's `next` the new head, and the pool becomes `MallocSpec.TakeSlot` of the old pool |
| Malloc.ChainPop | malloc.go:31 | following the head's link leaves a well-formed chain over the rest of the free list |
| MallocSpec.TakeSlot | malloc.go:30-36 | a pool hit keeps the pool consistent (mxOut >= nOut, every slot free or outstanding) and removes exactly the head slot from the free list |
| MallocSpec.TryLookaside | malloc.go:25-39 | the lookaside attempt keeps the pool consistent |
| MallocSpec.HeapFallback | malloc.go:46-51 | the heap is asked once; the result is non-nil exactly when the heap answers; a failure latches a non-nil connection; a nil connection stays nil |
| MallocSpec.MallocRaw | malloc.go:16-52 | keeps the connection consistent; the latch is never cleared; a nil result on a connection always comes with the latch set |
| MallocSpec.DbRealloc | malloc.go:56-74 | keeps the connection consistent; the latch is never cleared; a nil result always comes with the latch set |
| MallocProps.MallocLatchedIsInert | malloc.go:20-23 | a latched connection gets nil, and neither the pool, its counters nor the heap change |
| MallocProps.MallocTooLarge | malloc.go:26-27 | a request larger than a slot bumps only counter 1, leaves the free list alone, and goes to the heap |
| MallocProps.MallocPoolEmpty | malloc.go:28-29 | a request that fits when no slot is free bumps only counter 2 and goes to the heap |
| MallocProps.MallocPoolHit | malloc.go:30-37 | a request that fits gets the head slot; the rest of the list remains; nOut and counter 0 grow by one; mxOut becomes max(old mxOut, nOut); the heap is not asked |
| MallocProps.MallocHeapFailure | malloc.go:46-49 | a heap failure returns nil and latches a non-nil connection; with a nil connection nothing is latched |
| MallocProps.MallocHeapSuccess | malloc.go:46-51 | a heap success hands back the new block and leaves the latch clear |
| MallocProps.ReallocLatchedIsInert | malloc.go:59 | a latched connection gets nil from a resize, and the heap is not asked |
| MallocProps.ReallocOfNilIsMalloc | malloc.go:60-62 | resizing nil has exactly the effect and result of `DbMallocRaw`, pool included |
| MallocProps.ReallocFailureKeepsBlock | malloc.go:66-70 | a failed resize returns nil and latches; with the heap assumed to free nothing on a nil answer, the original block stays with the caller |
| MallocProps.ReallocSuccess | malloc.go:66-72 | a successful resize hands back the new heap block, takes the old heap block back, and leaves the latch clear |
| MallocProps.LatchedRunIsInert | malloc.go:3-6 | once latched, every later call on the connection returns nil, and the heap is never asked |
| MallocProps.FailureIsSticky | malloc.go:4-6 | after a call returns nil, every later call on the same connection returns nil |
| MallocProps.LaterSuccessMeansEarlierSuccess | malloc.go:15 | if a later allocation on a connection succeeded, every earlier one did |
| MallocProps.PoolServesFreeSlotsFirst | malloc.go:25-37 | while free slots last, small allocations are served from the pool in free-list order, without asking the heap |
| MallocProps.LookasideExhaustion | malloc.go:25-46 | on a fresh pool of eight 64-byte slots, eight small allocations hit; a ninth counts as pool-empty and goes to the heap; mxOut is 8; a 100-byte request counts as too large and leaves the free list alone |

## Left out

- The thread semantics of the master mutex and the init mutex, meaning blocking and recursive ownership (setup.go:47-48, 82, 104), are concurrency. Both critical sections are modelled as plain sequential blocks.
- Re-entrancy is modelled as at most one nested `sqlite3_initialize` from inside `sqlite3OsInit`. The nested call finds `inProgress` set, skips the body and never reaches `sqlite3OsInit`, so its own `reentry` is never used. A `sqlite3OsInit` that calls `sqlite3_initialize` several times (setup.go:73-75 speaks of recursive calls) is represented by a single such call; further ones would likewise skip the body. The nested call's result code is ignored, as in the source.
- `Malloc.Connection.lookaside`: the model holds the pool as an object reference, so two connections could share one `Lookaside`. In the source the pool is embedded in the connection (malloc.go:25-36) and is never shared; no lemma relies on sharing.
- The NaN sanity check under `NDEBUG` (setup.go:115-125) is left out. It is floating point, and its only output is assertions.
- The optional compile-time hooks are opaque and not modelled: SQLLOG (setup.go:31-34, 256-261), EXTRA_INIT (setup.go:128-133) and EXTRA_SHUTDOWN (setup.go:144-147).
- What the collaborators do internally is left out; only their answers are modelled, plus, for the heap, the effect on its set of live blocks described above.
  - This covers mutex, malloc, page-cache and OS init, registration, the teardown hooks, `sqlite3Malloc` and `sqlite3_realloc`.
  - `sqlite3MemSetDefault` and `sqlite3PCacheSetDefault` install fixed stand-in tables (`DefaultMemMethods`, `DefaultPcacheMethods2`).
- MallocSpec.HeapRealloc: assumes a nil answer from `sqlite3_realloc` frees nothing. SQLite's `sqlite3_realloc(p, n)` with `n <= 0` frees `p` and returns nil; that behaviour is not captured, so `MallocProps.ReallocFailureKeepsBlock` holds only under this assumption.
- `va_arg` marshalling is not modelled. Method tables and pointers are opaque values, and each opcode is a constructor of `ConfigOp` carrying its arguments.
- The tunables are grouped into one record field, `tun`, of the configuration record.
- `SQLITE_MAX_MMAP_SIZE` and `SQLITE_DEFAULT_MMAP_SIZE` are not defined in the Go source. SQLite's defaults are used: 0x7fff0000 and 0.
- The result codes use SQLite's values: OK 0, ERROR 1, NOMEM 7, MISUSE 21.
- The memdebug type tags (malloc.go:50, 63-71) are debug-only and not modelled. malloc.go:71 tags the new block by `bEnabled`, not by where the block came from.
- The byte contents of allocated memory are not modelled.
- The `sqlite3_mutex_held` and `pnBytesFreed` assertions (malloc.go:17-18, 58) are not modelled. `db != nil` (malloc.go:57) is modelled by the type of the `DbRealloc` connection.
- Only the build with lookaside is modelled. The `SQLITE_OMIT_LOOKASIDE` branch (malloc.go:41-44) is left out.
- The condition at malloc.go:28 is garbled in the source. It is read as "the free list is empty", with `pBuf` the head of the list.
- The nested `sqlite3DbMallocRaw` at malloc.go:61 is taken to be the `DbMallocRaw` of malloc.go:16.
- Resizing a lookaside slot hands the slot to `sqlite3_realloc` as the source does. The pool still counts the slot as outstanding, and the heap's set of live blocks does not include it.
- Releasing a slot back to the pool and setting up a pool for a connection are outside this core. The model's pool constructor builds a fresh pool with every slot free, in arena order.
