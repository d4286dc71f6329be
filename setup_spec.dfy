/** The process-wide configuration record `sqlite3Config` as a value, and
    the three entry points `sqlite3_initialize`, `sqlite3_shutdown` and
    `sqlite3_config` as functions from one such value to the next.

    Every collaborator the entry points call (the mutex, malloc, page-cache
    and OS layers, the function registry) is outside the model: its result
    is an oracle input (`InitEnv`), and the fact that it was called is
    recorded, in order, in the trace `calls`. The two critical sections of
    `sqlite3_initialize` are sequential blocks here. */
module SetupSpec {
  import opened Common

  /** A mutex handle returned by `NewMutex`. */
  type MutexHandle = nat

  /** Opaque method tables held by the configuration. Only the members
      that `sqlite3_config` tests for nil are spelled out. */
  datatype MutexMethods = MutexMethods(table: nat)
  datatype MemMethods = MemMethods(xMalloc: Ptr, others: nat)
  datatype PcacheMethods2 = PcacheMethods2(xInit: Ptr, others: nat)

  /** Stand-ins for the built-in tables installed by `sqlite3MemSetDefault`
      and `sqlite3PCacheSetDefault`; all the model relies on is that their
      tested member is not nil. */
  const DefaultMemMethods: MemMethods := MemMethods(1, 0)
  const DefaultPcacheMethods2: PcacheMethods2 := PcacheMethods2(1, 0)

  /** Compile-time ceiling and default of the memory-map size
      (SQLite's defaults for platforms that support mmap). */
  const MaxMmapSize: Int64 := 0x7fff_0000
  const DefaultMmapSize: Int64 := 0

  /** The fields of `sqlite3Config` that only `sqlite3_config` writes. */
  datatype Tunables = Tunables(
    bCoreMutex: bool, bFullMutex: bool,
    mutex: MutexMethods, m: MemMethods, bMemstat: int,
    pScratch: Ptr, szScratch: int, nScratch: int,
    pPage: Ptr, szPage: int, nPage: int,
    pcache2: PcacheMethods2,
    xLog: Ptr, pLogArg: Ptr,
    bOpenUri: int, bUseCis: int,
    szMmap: Int64, mxMmap: Int64)

  /** A call into a collaborator, as recorded in the trace. */
  datatype Call =
    | MutexInit                 // sqlite3MutexInit
    | MallocInit                // sqlite3MallocInit
    | NewRecursiveMutex         // NewMutex(SQLITE_MUTEX_RECURSIVE)
    | RegisterGlobalFunctions   // clear sqlite3GlobalFunctions, then sqlite3RegisterGlobalFunctions
    | PcacheInitialize          // sqlite3PcacheInitialize
    | OsInit                    // sqlite3OsInit
    | PCacheBufferSetup(pPage: Ptr, szPage: int, nPage: int)
    | MutexFree(handle: Option<MutexHandle>)  // sqlite3_mutex_free (a no-op on nil)
    | OsEnd                     // sqlite3_os_end
    | ResetAutoExtension        // sqlite3_reset_auto_extension
    | PcacheShutdown            // sqlite3PcacheShutdown
    | MallocEnd                 // sqlite3MallocEnd
    | MutexEnd                  // sqlite3MutexEnd

  /** `sqlite3Config` together with the two directory globals that
      `sqlite3_shutdown` clears, and the trace of collaborator calls. */
  datatype Global = Global(
    isMutexInit: bool, isMallocInit: bool, isPCacheInit: bool,
    isInit: bool, inProgress: bool,
    pInitMutex: Option<MutexHandle>, nRefInitMutex: int,
    dataDirectory: Ptr, tempDirectory: Ptr,
    tun: Tunables,
    calls: seq<Call>)

  /** The state after an entry point, and the code it returns. */
  datatype Step = Step(g: Global, rc: int)

  /** What the collaborators answer during one call of `sqlite3_initialize`.
      `reentry` is the nested `sqlite3_initialize` that `sqlite3OsInit`
      makes, if it makes one, with the answers seen by that nested call. */
  datatype InitEnv = InitEnv(
    mutexInitRc: int,
    mallocInitRc: int,
    recursiveMutex: Option<MutexHandle>,
    pcacheInitRc: int,
    osInitRc: int,
    reentry: Option<InitEnv>)

  /** Number of times `c` occurs in the trace `s`. */
  function Occurrences(c: Call, s: seq<Call>): nat
  {
    if s == [] then 0 else (if s[0] == c then 1 else 0) + Occurrences(c, s[1..])
  }

  /** Between calls of `sqlite3_initialize` nobody holds a reference to the
      recursive init mutex, the mutex does not exist, and no bootstrap is
      running. */
  predicate Quiescent(g: Global)
  {
    g.nRefInitMutex == 0 && g.pInitMutex.None? && !g.inProgress
  }

  // ---------------------------------------------------------------------
  // sqlite3_initialize
  // ---------------------------------------------------------------------

  /** `sqlite3_initialize`: fast path, mutex subsystem, first master
      section, bootstrap under the recursive mutex, second master section. */
  function Initialize(g: Global, env: InitEnv): Step
    decreases env, 3
  {
    if g.isInit then Step(g, OK)
    else
      var g0 := g.(calls := g.calls + [MutexInit]);
      if env.mutexInitRc != OK then Step(g0, env.mutexInitRc)
      else
        var entered := EnterMaster(g0, env);
        if entered.rc != OK then entered
        else
          var boot := Bootstrap(entered.g, env);
          Step(LeaveMaster(boot.g), boot.rc)
  }

  /** The first critical section under the master mutex: malloc subsystem
      (initialized once), then the recursive init mutex and its count. */
  function EnterMaster(g: Global, env: InitEnv): Step
  {
    var g1 := g.(isMutexInit := true);
    if g1.isMallocInit then ReferenceInitMutex(g1, env)
    else if env.mallocInitRc != OK then Step(g1.(calls := g1.calls + [MallocInit]), env.mallocInitRc)
    else ReferenceInitMutex(g1.(calls := g1.calls + [MallocInit]), env)
  }

  /** The rest of the first master section once malloc is up: create the
      recursive init mutex if absent (NOMEM when core mutexing needs it and
      none was made), and on success take a reference to it. */
  function ReferenceInitMutex(g: Global, env: InitEnv): Step
  {
    var g1 := g.(isMallocInit := true);
    if g1.pInitMutex.Some? then Step(g1.(nRefInitMutex := g1.nRefInitMutex + 1), OK)
    else if g1.tun.bCoreMutex && env.recursiveMutex.None? then
      Step(g1.(pInitMutex := None, calls := g1.calls + [NewRecursiveMutex]), NOMEM)
    else
      Step(g1.(pInitMutex := env.recursiveMutex, calls := g1.calls + [NewRecursiveMutex],
               nRefInitMutex := g1.nRefInitMutex + 1), OK)
  }

  /** The critical section under the recursive init mutex. The body runs
      only when neither initialized nor already in progress. */
  function Bootstrap(g: Global, env: InitEnv): Step
    decreases env, 2
  {
    if g.isInit || g.inProgress then Step(g, OK)
    else
      var g1 := g.(inProgress := true, calls := g.calls + [RegisterGlobalFunctions]);
      var rc := if g1.isPCacheInit then OK else env.pcacheInitRc;
      var g2 := if g1.isPCacheInit then g1 else g1.(calls := g1.calls + [PcacheInitialize]);
      if rc != OK then Step(g2.(inProgress := false), rc)
      else
        var os := RunOsInit(g2.(isPCacheInit := true), env);
        if os.rc != OK then Step(os.g.(inProgress := false), os.rc)
        else
          var g3 := os.g;
          Step(g3.(calls := g3.calls + [PCacheBufferSetup(g3.tun.pPage, g3.tun.szPage, g3.tun.nPage)],
                   isInit := true, inProgress := false), OK)
  }

  /** `sqlite3OsInit`, which may call `sqlite3_initialize` again. The nested
      call's own return code is not what `sqlite3OsInit` returns. */
  function RunOsInit(g: Global, env: InitEnv): Step
    decreases env, 1
  {
    var g1 := g.(calls := g.calls + [OsInit]);
    match env.reentry
    case None => Step(g1, env.osInitRc)
    case Some(inner) => Step(Initialize(g1, inner).g, env.osInitRc)
  }

  /** The second critical section under the master mutex: drop the
      reference, and free the recursive mutex once nobody holds one. */
  function LeaveMaster(g: Global): Global
  {
    var n := g.nRefInitMutex - 1;
    if n <= 0 then g.(nRefInitMutex := n, pInitMutex := None, calls := g.calls + [MutexFree(g.pInitMutex)])
    else g.(nRefInitMutex := n)
  }

  // ---------------------------------------------------------------------
  // sqlite3_shutdown
  // ---------------------------------------------------------------------

  /** `sqlite3_shutdown`: tear down, in reverse order, exactly the
      subsystems whose flag is set. */
  function Shutdown(g: Global): Step
  {
    Step(EndMutex(EndMalloc(EndPcache(EndOs(g)))), OK)
  }

  /** Tears down the OS layer and the auto-extension list if initialized. */
  function EndOs(g: Global): Global
  {
    if g.isInit then g.(calls := g.calls + [OsEnd, ResetAutoExtension], isInit := false) else g
  }

  /** Shuts the page cache down if it was initialized. */
  function EndPcache(g: Global): Global
  {
    if g.isPCacheInit then g.(calls := g.calls + [PcacheShutdown], isPCacheInit := false) else g
  }

  /** Shuts the heap down if it was initialized, and with it the directory
      settings, which live in heap memory. */
  function EndMalloc(g: Global): Global
  {
    if g.isMallocInit
    then g.(calls := g.calls + [MallocEnd], isMallocInit := false, dataDirectory := Null, tempDirectory := Null)
    else g
  }

  /** Shuts the mutex subsystem down if it was initialized. */
  function EndMutex(g: Global): Global
  {
    if g.isMutexInit then g.(calls := g.calls + [MutexEnd], isMutexInit := false) else g
  }

  // ---------------------------------------------------------------------
  // sqlite3_config
  // ---------------------------------------------------------------------

  /** One constructor per opcode of `sqlite3_config`, carrying its
      arguments. `ConfigOther` is any opcode the switch does not list. */
  datatype ConfigOp =
    | ConfigSingleThread
    | ConfigMultiThread
    | ConfigSerialized
    | ConfigMutex(mutex: MutexMethods)
    | ConfigGetMutex
    | ConfigMalloc(m: MemMethods)
    | ConfigGetMalloc
    | ConfigMemStatus(bMemstat: int)
    | ConfigScratch(pScratch: Ptr, szScratch: int, nScratch: int)
    | ConfigPageCache(pPage: Ptr, szPage: int, nPage: int)
    | ConfigPCache
    | ConfigGetPCache
    | ConfigPCache2(pcache2: PcacheMethods2)
    | ConfigGetPCache2
    | ConfigLog(xLog: Ptr, pLogArg: Ptr)
    | ConfigUri(bOpenUri: int)
    | ConfigCoveringIndexScan(bUseCis: int)
    | ConfigMmapSize(szMmap: Int64, mxMmap: Int64)
    | ConfigOther(op: int)

  /** What a getter opcode writes through its pointer argument. */
  datatype Fetched = NoValue | MutexTable(mutex: MutexMethods) | MemTable(m: MemMethods) | PcacheTable(pcache2: PcacheMethods2)

  datatype ConfigResult = ConfigResult(g: Global, rc: int, out: Fetched)

  datatype MmapSizes = MmapSizes(szMmap: Int64, mxMmap: Int64)

  /** The clamp of SQLITE_CONFIG_MMAP_SIZE: the cap is forced into
      [0, MaxMmapSize], a negative default becomes DefaultMmapSize, and the
      default never exceeds the cap. */
  function MmapLimits(szMmap: Int64, mxMmap: Int64): (r: MmapSizes)
    ensures 0 <= r.mxMmap <= MaxMmapSize
    ensures 0 <= r.szMmap <= r.mxMmap
    ensures 0 <= mxMmap <= MaxMmapSize ==> r.mxMmap == mxMmap
    ensures !(0 <= mxMmap <= MaxMmapSize) ==> r.mxMmap == MaxMmapSize
    ensures 0 <= szMmap <= r.mxMmap ==> r.szMmap == szMmap
    ensures szMmap < 0 ==> r.szMmap == Min(DefaultMmapSize, r.mxMmap)
    ensures szMmap > r.mxMmap ==> r.szMmap == r.mxMmap
  {
    var mx := if mxMmap < 0 || mxMmap > MaxMmapSize then MaxMmapSize else mxMmap;
    var sz := if szMmap < 0 then DefaultMmapSize else szMmap;
    MmapSizes(if sz > mx then mx else sz, mx)
  }

  /** `sqlite3_config`: rejected once initialized, otherwise dispatched on
      the opcode. */
  function Configure(g: Global, op: ConfigOp): ConfigResult
  {
    if g.isInit then ConfigResult(g, MISUSE, NoValue)
    else
      var d := Dispatch(g.tun, op);
      ConfigResult(g.(tun := d.tun), d.rc, d.out)
  }

  datatype Dispatched = Dispatched(tun: Tunables, rc: int, out: Fetched)

  /** The opcode switch of `sqlite3_config`: one field group written (or
      read) per opcode. */
  function Dispatch(t: Tunables, op: ConfigOp): Dispatched
  {
    match op
    case ConfigSingleThread => Dispatched(t.(bCoreMutex := false, bFullMutex := false), OK, NoValue)
    case ConfigMultiThread => Dispatched(t.(bCoreMutex := true, bFullMutex := false), OK, NoValue)
    case ConfigSerialized => Dispatched(t.(bCoreMutex := true, bFullMutex := true), OK, NoValue)
    case ConfigMutex(mutex) => Dispatched(t.(mutex := mutex), OK, NoValue)
    case ConfigGetMutex => Dispatched(t, OK, MutexTable(t.mutex))
    case ConfigMalloc(m) => Dispatched(t.(m := m), OK, NoValue)
    case ConfigGetMalloc =>
      var t1 := if t.m.xMalloc == Null then t.(m := DefaultMemMethods) else t;
      Dispatched(t1, OK, MemTable(t1.m))
    case ConfigMemStatus(on) => Dispatched(t.(bMemstat := on), OK, NoValue)
    case ConfigScratch(p, sz, n) => Dispatched(t.(pScratch := p, szScratch := sz, nScratch := n), OK, NoValue)
    case ConfigPageCache(p, sz, n) => Dispatched(t.(pPage := p, szPage := sz, nPage := n), OK, NoValue)
    case ConfigPCache => Dispatched(t, OK, NoValue)
    case ConfigGetPCache => Dispatched(t, ERROR, NoValue)
    case ConfigPCache2(pcache2) => Dispatched(t.(pcache2 := pcache2), OK, NoValue)
    case ConfigGetPCache2 =>
      var t1 := if t.pcache2.xInit == Null then t.(pcache2 := DefaultPcacheMethods2) else t;
      Dispatched(t1, OK, PcacheTable(t1.pcache2))
    case ConfigLog(xLog, pArg) => Dispatched(t.(xLog := xLog, pLogArg := pArg), OK, NoValue)
    case ConfigUri(on) => Dispatched(t.(bOpenUri := on), OK, NoValue)
    case ConfigCoveringIndexScan(on) => Dispatched(t.(bUseCis := on), OK, NoValue)
    case ConfigMmapSize(sz, mx) =>
      var lim := MmapLimits(sz, mx);
      Dispatched(t.(mxMmap := lim.mxMmap, szMmap := lim.szMmap), OK, NoValue)
    case ConfigOther(_) => Dispatched(t, ERROR, NoValue)
  }
}
