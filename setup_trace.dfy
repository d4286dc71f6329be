/** Which code `sqlite3_initialize` returns when a collaborator fails, and
    the order in which `sqlite3_initialize` and `sqlite3_shutdown` call the
    collaborators: the exact calls each entry point appends to the trace. */
module SetupTrace {
  import opened Common
  import opened SetupSpec
  import opened SetupProps

  // -----------------------------------------------------------------------
  // Failure codes of sqlite3_initialize
  // -----------------------------------------------------------------------

  /** The first master section succeeds: malloc is up or comes up, and the
      init mutex exists, is not needed, or is created. */
  predicate MasterEntered(g: Global, env: InitEnv)
  {
    && (g.isMallocInit || env.mallocInitRc == OK)
    && (g.pInitMutex.Some? || !g.tun.bCoreMutex || env.recursiveMutex.Some?)
  }

  /** Inside the bootstrap body, a page-cache failure is returned as given
      and OS initialization never runs; an OS failure is returned as given.
      Neither leaves the library initialized. */
  lemma BootstrapFailureCodes(g: Global, env: InitEnv)
    requires !g.isInit && !g.inProgress
    ensures var r := Bootstrap(g, env);
      !g.isPCacheInit && env.pcacheInitRc != OK
      ==> r.rc == env.pcacheInitRc && !r.g.isInit && Occurrences(OsInit, r.g.calls) == Occurrences(OsInit, g.calls)
    ensures var r := Bootstrap(g, env);
      (g.isPCacheInit || env.pcacheInitRc == OK) && env.osInitRc != OK
      ==> r.rc == env.osInitRc && !r.g.isInit
  {
    var g1 := g.(inProgress := true, calls := g.calls + [RegisterGlobalFunctions]);
    if !g.isPCacheInit && env.pcacheInitRc != OK {
      OccurrencesSnoc(OsInit, g.calls, RegisterGlobalFunctions);
      OccurrencesSnoc(OsInit, g1.calls, PcacheInitialize);
    } else {
      var g2 := if g1.isPCacheInit then g1 else g1.(calls := g1.calls + [PcacheInitialize]);
      RunOsInitFrame(g2.(isPCacheInit := true), env, OsInit);
    }
  }

  /** The first failing step decides the result, which is returned as the
      collaborator gave it, and the steps after it do not run: a heap
      failure returns its code, a missing init mutex under core mutexing
      returns NOMEM, a page-cache failure returns its code without any OS
      initialization, and an OS failure returns its code. None of them
      leaves the library initialized. */
  lemma InitializeFailureCodes(g: Global, env: InitEnv)
    requires !g.isInit && !g.inProgress && env.mutexInitRc == OK
    ensures var r := Initialize(g, env);
      !g.isMallocInit && env.mallocInitRc != OK ==> r.rc == env.mallocInitRc && !r.g.isInit
    ensures var r := Initialize(g, env);
      (g.isMallocInit || env.mallocInitRc == OK) && g.pInitMutex.None? && g.tun.bCoreMutex && env.recursiveMutex.None?
      ==> r.rc == NOMEM && !r.g.isInit
    ensures var r := Initialize(g, env);
      MasterEntered(g, env) && !g.isPCacheInit && env.pcacheInitRc != OK
      ==> r.rc == env.pcacheInitRc && !r.g.isInit && Occurrences(OsInit, r.g.calls) == Occurrences(OsInit, g.calls)
    ensures var r := Initialize(g, env);
      MasterEntered(g, env) && (g.isPCacheInit || env.pcacheInitRc == OK) && env.osInitRc != OK
      ==> r.rc == env.osInitRc && !r.g.isInit
  {
    var g0 := g.(calls := g.calls + [MutexInit]);
    EnterMasterOutcome(g0, env);
    var e := EnterMaster(g0, env);
    if e.rc == OK {
      BootstrapFailureCodes(e.g, env);
      OccurrencesSnoc(OsInit, g.calls, MutexInit);
      EnterMasterTrace(g0, env, OsInit);
      LeaveMasterFrame(Bootstrap(e.g, env).g, OsInit);
    }
  }

  // -----------------------------------------------------------------------
  // Call order of sqlite3_initialize
  // -----------------------------------------------------------------------

  /** A call made while a bootstrap is in progress only appends to the
      trace. */
  lemma NestedInitializeExtendsTrace(g: Global, env: InitEnv)
    requires g.inProgress
    ensures g.calls <= Initialize(g, env).g.calls
  {
    if !g.isInit && env.mutexInitRc == OK {
      var g0 := g.(calls := g.calls + [MutexInit]);
      EnterMasterCalls(g0, env);
      EnterMasterOutcome(g0, env);
      var e := EnterMaster(g0, env);
      assert g.calls <= e.g.calls;
      if e.rc == OK {
        assert Bootstrap(e.g, env).g == e.g;
        assert e.g.calls <= LeaveMaster(e.g).calls;
      }
    }
  }

  /** `sqlite3OsInit` inside the body appends its own call first; whatever
      the nested call then does only appends after it. */
  lemma RunOsInitExtendsTrace(g: Global, env: InitEnv)
    requires g.inProgress
    ensures g.calls + [OsInit] <= RunOsInit(g, env).g.calls
    ensures env.reentry.None? ==> RunOsInit(g, env).g.calls == g.calls + [OsInit]
  {
    if env.reentry.Some? {
      NestedInitializeExtendsTrace(g.(calls := g.calls + [OsInit]), env.reentry.value);
    }
  }

  /** The calls an outermost `sqlite3_initialize` makes before OS init, in
      order: mutex init, heap init (if the heap is not up), the init mutex,
      registration of the built-in functions, page-cache init (if not done),
      and OS init. */
  function BringUp(g: Global): seq<Call>
  {
    [MutexInit] + (if g.isMallocInit then [] else [MallocInit]) + [NewRecursiveMutex, RegisterGlobalFunctions]
    + (if g.isPCacheInit then [] else [PcacheInitialize]) + [OsInit]
  }

  /** A bootstrap body that completes registers the functions, initializes
      the page cache if needed and runs OS initialization, in that order,
      and ends with the page-cache buffer setup; a held init mutex and its
      count come through unchanged. */
  lemma BootstrapCallOrder(g: Global, env: InitEnv)
    requires !g.isInit && !g.inProgress && (g.isPCacheInit || env.pcacheInitRc == OK) && env.osInitRc == OK
    ensures var r := Bootstrap(g, env).g;
      var body := [RegisterGlobalFunctions] + (if g.isPCacheInit then [] else [PcacheInitialize]) + [OsInit];
      && g.calls + body <= r.calls
      && |r.calls| >= |g.calls + body| + 1
      && r.calls[|r.calls| - 1] == PCacheBufferSetup(g.tun.pPage, g.tun.szPage, g.tun.nPage)
      && r.nRefInitMutex == g.nRefInitMutex
      && (g.nRefInitMutex > 0 && g.pInitMutex.Some? ==> r.pInitMutex == g.pInitMutex)
      && (env.reentry.None? ==> r.calls == g.calls + body + [PCacheBufferSetup(g.tun.pPage, g.tun.szPage, g.tun.nPage)])
  {
    var g1 := g.(inProgress := true, calls := g.calls + [RegisterGlobalFunctions]);
    var g2 := if g1.isPCacheInit then g1 else g1.(calls := g1.calls + [PcacheInitialize]);
    var g3 := g2.(isPCacheInit := true);
    RunOsInitExtendsTrace(g3, env);
    RunOsInitFrame(g3, env, OsInit);
  }

  /** A successful outermost `sqlite3_initialize` calls the collaborators in
      bring-up order: the trace grows by `BringUp`, then by whatever a
      re-entrant call from OS init adds, and ends with the page-cache buffer
      setup and the release of the init mutex. */
  lemma InitializeCallOrder(g: Global, env: InitEnv)
    requires Quiescent(g) && !g.isInit && CollaboratorsSucceed(g, env)
    ensures var r := Initialize(g, env).g.calls;
      && g.calls + BringUp(g) <= r
      && |r| >= |g.calls + BringUp(g)| + 2
      && r[|r| - 2] == PCacheBufferSetup(g.tun.pPage, g.tun.szPage, g.tun.nPage)
      && r[|r| - 1].MutexFree?
      && (env.recursiveMutex.Some? ==> r[|r| - 1] == MutexFree(env.recursiveMutex))
  {
    var g0 := g.(calls := g.calls + [MutexInit]);
    EnterMasterOutcome(g0, env);
    var e := EnterMaster(g0, env);
    var heap := if g.isMallocInit then [] else [MallocInit];
    assert e.g.calls == g.calls + [MutexInit] + heap + [NewRecursiveMutex];
    BootstrapCallOrder(e.g, env);
    var b := Bootstrap(e.g, env).g;
    var body := [RegisterGlobalFunctions] + (if g.isPCacheInit then [] else [PcacheInitialize]) + [OsInit];
    assert e.g.calls + body == g.calls + BringUp(g);
    assert Initialize(g, env).g.calls == b.calls + [MutexFree(b.pInitMutex)];
  }

  /** Without a re-entrant call from OS init, a successful outermost
      `sqlite3_initialize` makes exactly the bring-up calls, then sets up
      the page-cache buffer and frees the init mutex it created. */
  lemma InitializeCallsWithoutReentry(g: Global, env: InitEnv)
    requires Quiescent(g) && !g.isInit && CollaboratorsSucceed(g, env) && env.reentry.None?
    ensures Initialize(g, env).g.calls
      == g.calls + BringUp(g) + [PCacheBufferSetup(g.tun.pPage, g.tun.szPage, g.tun.nPage), MutexFree(env.recursiveMutex)]
  {
    var g0 := g.(calls := g.calls + [MutexInit]);
    EnterMasterOutcome(g0, env);
    var e := EnterMaster(g0, env);
    var heap := if g.isMallocInit then [] else [MallocInit];
    assert e.g.calls == g.calls + [MutexInit] + heap + [NewRecursiveMutex];
    BootstrapCallOrder(e.g, env);
    var b := Bootstrap(e.g, env).g;
    var body := [RegisterGlobalFunctions] + (if g.isPCacheInit then [] else [PcacheInitialize]) + [OsInit];
    assert e.g.calls + body == g.calls + BringUp(g);
    assert Initialize(g, env).g.calls == b.calls + [MutexFree(b.pInitMutex)];
  }

  // -----------------------------------------------------------------------
  // Call order of sqlite3_shutdown
  // -----------------------------------------------------------------------

  /** `sqlite3_shutdown` tears down in the reverse of bring-up order: OS
      layer and auto-extensions, page cache, heap, mutexes, each only when
      its flag is set. */
  lemma ShutdownCallOrder(g: Global)
    ensures Shutdown(g).g.calls
      == g.calls
         + (if g.isInit then [OsEnd, ResetAutoExtension] else [])
         + (if g.isPCacheInit then [PcacheShutdown] else [])
         + (if g.isMallocInit then [MallocEnd] else [])
         + (if g.isMutexInit then [MutexEnd] else [])
  {
    var os := if g.isInit then [OsEnd, ResetAutoExtension] else [];
    var pc := if g.isPCacheInit then [PcacheShutdown] else [];
    var heap := if g.isMallocInit then [MallocEnd] else [];
    assert EndOs(g).calls == g.calls + os;
    assert EndPcache(EndOs(g)).calls == g.calls + os + pc;
    assert EndMalloc(EndPcache(EndOs(g))).calls == g.calls + os + pc + heap;
  }
}
