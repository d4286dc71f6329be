/** What `sqlite3_initialize`, `sqlite3_shutdown` and `sqlite3_config`
    promise, proved about the functions of `SetupSpec` (and so, through the
    postconditions of `Setup.GlobalConfig`, about the object's methods). */
module SetupProps {
  import opened Common
  import opened SetupSpec

  // -----------------------------------------------------------------------
  // The trace
  // -----------------------------------------------------------------------

  /** Counting calls distributes over concatenation of traces. */
  lemma {:induction false} OccurrencesConcat(c: Call, s: seq<Call>, t: seq<Call>)
    ensures Occurrences(c, s + t) == Occurrences(c, s) + Occurrences(c, t)
  {
    if s == [] {
      assert s + t == t;
    } else {
      assert (s + t)[1..] == s[1..] + t;
      OccurrencesConcat(c, s[1..], t);
    }
  }

  /** Appending one call counts it once if it is `c`. */
  lemma OccurrencesSnoc(c: Call, s: seq<Call>, x: Call)
    ensures Occurrences(c, s + [x]) == Occurrences(c, s) + (if x == c then 1 else 0)
  {
    OccurrencesConcat(c, s, [x]);
    assert [x][1..] == [];
  }

  /** The calls that only the bootstrap body makes. */
  predicate IsBootstrapCall(c: Call)
  {
    c.RegisterGlobalFunctions? || c.PcacheInitialize? || c.OsInit? || c.PCacheBufferSetup?
  }

  // -----------------------------------------------------------------------
  // The pieces of sqlite3_initialize
  // -----------------------------------------------------------------------

  /** The first master section: it fails exactly when malloc cannot be
      initialized or the needed init mutex cannot be created; on success it
      takes one reference; it touches none of the bootstrap state. */
  lemma EnterMasterOutcome(g: Global, env: InitEnv)
    ensures var r := EnterMaster(g, env);
      && r.g.isInit == g.isInit && r.g.inProgress == g.inProgress
      && r.g.isPCacheInit == g.isPCacheInit && r.g.tun == g.tun
      && r.g.isMutexInit
      && (r.rc == OK <==> (g.isMallocInit || env.mallocInitRc == OK)
                          && (g.pInitMutex.Some? || !g.tun.bCoreMutex || env.recursiveMutex.Some?))
      && (r.rc == OK ==> r.g.isMallocInit && r.g.nRefInitMutex == g.nRefInitMutex + 1)
      && (r.rc != OK ==> r.g.nRefInitMutex == g.nRefInitMutex)
      && (g.pInitMutex.Some? ==> r.g.pInitMutex == g.pInitMutex)
      && (g.pInitMutex.None? && r.rc != OK ==> r.g.pInitMutex.None?)
  {
  }

  /** The calls the first master section can make: malloc init when the
      heap is not up, then the mutex allocation when no init mutex exists. */
  lemma EnterMasterCalls(g: Global, env: InitEnv)
    ensures var before := if g.isMallocInit then g.calls else g.calls + [MallocInit];
      EnterMaster(g, env).g.calls
      == before + (if (g.isMallocInit || env.mallocInitRc == OK) && g.pInitMutex.None? then [NewRecursiveMutex] else [])
  {
    var g1 := g.(isMutexInit := true);
    if !g1.isMallocInit && env.mallocInitRc == OK {
      ReferenceInitMutexCalls(g1.(calls := g1.calls + [MallocInit]), env);
    } else if g1.isMallocInit {
      ReferenceInitMutexCalls(g1, env);
    }
  }

  lemma ReferenceInitMutexCalls(g: Global, env: InitEnv)
    ensures ReferenceInitMutex(g, env).g.calls == g.calls + (if g.pInitMutex.None? then [NewRecursiveMutex] else [])
  {
  }

  /** The first master section makes none of the bootstrap body's calls. */
  lemma EnterMasterTrace(g: Global, env: InitEnv, c: Call)
    requires IsBootstrapCall(c)
    ensures Occurrences(c, EnterMaster(g, env).g.calls) == Occurrences(c, g.calls)
  {
    var before := if g.isMallocInit then g.calls else g.calls + [MallocInit];
    OccurrencesConcat(c, g.calls, [MallocInit]);
    OccurrencesConcat(c, before, [NewRecursiveMutex]);
    EnterMasterCalls(g, env);
  }

  /** The second master section drops one reference and frees the init
      mutex exactly when no reference is left. */
  lemma LeaveMasterFrame(g: Global, c: Call)
    requires IsBootstrapCall(c)
    ensures var r := LeaveMaster(g);
      && r == g.(nRefInitMutex := r.nRefInitMutex, pInitMutex := r.pInitMutex, calls := r.calls)
      && r.nRefInitMutex == g.nRefInitMutex - 1
      && (r.nRefInitMutex <= 0 ==> r.pInitMutex.None?)
      && (r.nRefInitMutex > 0 ==> r.pInitMutex == g.pInitMutex)
      && Occurrences(c, r.calls) == Occurrences(c, g.calls)
  {
    OccurrencesConcat(c, g.calls, [MutexFree(g.pInitMutex)]);
  }

  /** The second master section frees the init mutex, once, exactly when
      the last reference is dropped; otherwise it only drops the count. */
  lemma LeaveMasterFreesAtZero(g: Global)
    ensures var r := LeaveMaster(g);
      && r.nRefInitMutex == g.nRefInitMutex - 1
      && (r.nRefInitMutex <= 0 ==>
            r.pInitMutex.None? &&
            Occurrences(MutexFree(g.pInitMutex), r.calls) == Occurrences(MutexFree(g.pInitMutex), g.calls) + 1)
      && (r.nRefInitMutex > 0 ==> r.pInitMutex == g.pInitMutex && r.calls == g.calls)
  {
    OccurrencesSnoc(MutexFree(g.pInitMutex), g.calls, MutexFree(g.pInitMutex));
  }

  /** A call of `sqlite3_initialize` made while a bootstrap is in progress
      (the re-entrant call from `sqlite3OsInit`) skips the bootstrap body:
      it registers nothing, initializes no page cache, runs no OS init,
      leaves `isInit` and `inProgress` alone, gives back the reference it
      took, and never frees an init mutex that an outer call still holds. */
  lemma NestedInitializeSkipsBootstrap(g: Global, env: InitEnv, c: Call)
    requires g.inProgress && IsBootstrapCall(c)
    ensures var r := Initialize(g, env).g;
      && r.isInit == g.isInit && r.isPCacheInit == g.isPCacheInit && r.inProgress
      && r.nRefInitMutex == g.nRefInitMutex && r.tun == g.tun
      && Occurrences(c, r.calls) == Occurrences(c, g.calls)
      && (g.nRefInitMutex > 0 && g.pInitMutex.Some? ==> r.pInitMutex == g.pInitMutex)
  {
    if !g.isInit {
      var g0 := g.(calls := g.calls + [MutexInit]);
      OccurrencesConcat(c, g.calls, [MutexInit]);
      if env.mutexInitRc == OK {
        EnterMasterOutcome(g0, env);
        EnterMasterTrace(g0, env, c);
        var e := EnterMaster(g0, env);
        if e.rc == OK {
          LeaveMasterFrame(e.g, c);
        }
      }
    }
  }

  /** A call made while a bootstrap is in progress never reaches
      `sqlite3OsInit`, so whatever re-entrant call its own answers would
      make is never made. */
  lemma NestedIgnoresReentry(g: Global, env: InitEnv)
    requires g.inProgress
    ensures Initialize(g, env) == Initialize(g, env.(reentry := None))
  {
  }

  /** `sqlite3OsInit`, called from inside the bootstrap body, changes none of
      the bootstrap state, whatever re-entrant call it makes. */
  lemma RunOsInitFrame(g: Global, env: InitEnv, c: Call)
    requires g.inProgress && IsBootstrapCall(c)
    ensures var r := RunOsInit(g, env);
      && r.rc == env.osInitRc
      && r.g.isInit == g.isInit && r.g.isPCacheInit == g.isPCacheInit && r.g.inProgress
      && r.g.nRefInitMutex == g.nRefInitMutex && r.g.tun == g.tun
      && Occurrences(c, r.g.calls) == Occurrences(c, g.calls) + (if c == OsInit then 1 else 0)
      && (g.nRefInitMutex > 0 && g.pInitMutex.Some? ==> r.g.pInitMutex == g.pInitMutex)
  {
    OccurrencesConcat(c, g.calls, [OsInit]);
    if env.reentry.Some? {
      NestedInitializeSkipsBootstrap(g.(calls := g.calls + [OsInit]), env.reentry.value, c);
    }
  }

  /** The bootstrap body, when its guard lets it run: it registers the
      built-in functions once, initializes the page cache unless that is
      already done, succeeds exactly when page cache and OS layer do, and
      always clears `inProgress` on the way out. */
  lemma BootstrapOutcome(g: Global, env: InitEnv)
    requires !g.isInit && !g.inProgress
    ensures var r := Bootstrap(g, env);
      && !r.g.inProgress
      && r.g.nRefInitMutex == g.nRefInitMutex && r.g.tun == g.tun
      && (r.g.isInit <==> (g.isPCacheInit || env.pcacheInitRc == OK) && env.osInitRc == OK)
      && (r.rc == OK <==> r.g.isInit)
      && (r.g.isPCacheInit <==> g.isPCacheInit || env.pcacheInitRc == OK)
      && Occurrences(RegisterGlobalFunctions, r.g.calls) == Occurrences(RegisterGlobalFunctions, g.calls) + 1
      && Occurrences(PcacheInitialize, r.g.calls)
         == Occurrences(PcacheInitialize, g.calls) + (if g.isPCacheInit then 0 else 1)
      && (g.nRefInitMutex > 0 && g.pInitMutex.Some? ==> r.g.pInitMutex == g.pInitMutex)
  {
    var g1 := g.(inProgress := true, calls := g.calls + [RegisterGlobalFunctions]);
    var g2 := if g1.isPCacheInit then g1 else g1.(calls := g1.calls + [PcacheInitialize]);
    OccurrencesConcat(RegisterGlobalFunctions, g.calls, [RegisterGlobalFunctions]);
    OccurrencesConcat(PcacheInitialize, g.calls, [RegisterGlobalFunctions]);
    OccurrencesConcat(RegisterGlobalFunctions, g1.calls, [PcacheInitialize]);
    OccurrencesConcat(PcacheInitialize, g1.calls, [PcacheInitialize]);
    var rc := if g1.isPCacheInit then OK else env.pcacheInitRc;
    if rc == OK {
      var g3 := g2.(isPCacheInit := true);
      RunOsInitFrame(g3, env, RegisterGlobalFunctions);
      RunOsInitFrame(g3, env, PcacheInitialize);
      var os := RunOsInit(g3, env);
      var setup := PCacheBufferSetup(os.g.tun.pPage, os.g.tun.szPage, os.g.tun.nPage);
      OccurrencesConcat(RegisterGlobalFunctions, os.g.calls, [setup]);
      OccurrencesConcat(PcacheInitialize, os.g.calls, [setup]);
    }
  }

  // -----------------------------------------------------------------------
  // sqlite3_initialize
  // -----------------------------------------------------------------------

  /** Once initialized, `sqlite3_initialize` returns OK and changes nothing. */
  lemma InitializeFastPath(g: Global, env: InitEnv)
    requires g.isInit
    ensures Initialize(g, env) == Step(g, OK)
  {
  }

  /** A failing mutex subsystem is reported unchanged, before any other
      state is touched. */
  lemma InitializeMutexInitFailure(g: Global, env: InitEnv)
    requires !g.isInit && env.mutexInitRc != OK
    ensures Initialize(g, env) == Step(g.(calls := g.calls + [MutexInit]), env.mutexInitRc)
  {
  }

  /** When core mutexing is on and the recursive init mutex cannot be
      created, the call returns NOMEM early: no reference is taken and the
      bootstrap body does not run. */
  lemma InitializeInitMutexFailure(g: Global, env: InitEnv)
    requires !g.isInit && env.mutexInitRc == OK
    requires g.isMallocInit || env.mallocInitRc == OK
    requires g.pInitMutex.None? && g.tun.bCoreMutex && env.recursiveMutex.None?
    ensures var r := Initialize(g, env);
      && r.rc == NOMEM
      && r.g.nRefInitMutex == g.nRefInitMutex && r.g.pInitMutex.None?
      && r.g.isMallocInit && r.g.isMutexInit && !r.g.isInit && r.g.inProgress == g.inProgress
      && Occurrences(RegisterGlobalFunctions, r.g.calls) == Occurrences(RegisterGlobalFunctions, g.calls)
  {
    OccurrencesConcat(RegisterGlobalFunctions, g.calls, [MutexInit]);
    EnterMasterOutcome(g.(calls := g.calls + [MutexInit]), env);
    EnterMasterTrace(g.(calls := g.calls + [MutexInit]), env, RegisterGlobalFunctions);
  }

  /** Every call gives back the init-mutex reference it took, leaves
      `inProgress` as it found it, and never changes a tunable. */
  lemma InitializeBalancesRefCount(g: Global, env: InitEnv)
    ensures var r := Initialize(g, env).g;
      r.nRefInitMutex == g.nRefInitMutex && r.inProgress == g.inProgress && r.tun == g.tun
  {
    if !g.isInit && env.mutexInitRc == OK {
      var g0 := g.(calls := g.calls + [MutexInit]);
      EnterMasterOutcome(g0, env);
      var e := EnterMaster(g0, env);
      if e.rc == OK && !e.g.isInit && !e.g.inProgress {
        BootstrapOutcome(e.g, env);
      }
    }
  }

  /** Between calls nobody holds the init mutex: an outermost call that
      starts with no reference and no mutex ends the same way, so the
      mutex is freed and cleared when the count returns to zero. */
  lemma InitializeKeepsQuiescent(g: Global, env: InitEnv)
    requires Quiescent(g)
    ensures Quiescent(Initialize(g, env).g)
  {
    InitializeBalancesRefCount(g, env);
    if !g.isInit && env.mutexInitRc == OK {
      var g0 := g.(calls := g.calls + [MutexInit]);
      EnterMasterOutcome(g0, env);
      var e := EnterMaster(g0, env);
      if e.rc == OK && !e.g.isInit {
        BootstrapOutcome(e.g, env);
      }
    }
  }

  /** A call never frees an init mutex on which an outer call still holds a
      reference. */
  lemma InitializeKeepsHeldInitMutex(g: Global, env: InitEnv)
    requires g.nRefInitMutex > 0 && g.pInitMutex.Some?
    ensures Initialize(g, env).g.pInitMutex == g.pInitMutex
  {
    if !g.isInit && env.mutexInitRc == OK {
      var g0 := g.(calls := g.calls + [MutexInit]);
      EnterMasterOutcome(g0, env);
      var e := EnterMaster(g0, env);
      if e.rc == OK && !e.g.isInit && !e.g.inProgress {
        BootstrapOutcome(e.g, env);
      }
    }
  }

  /** Every collaborator the outermost call depends on answers OK. */
  predicate CollaboratorsSucceed(g: Global, env: InitEnv)
  {
    && env.mutexInitRc == OK
    && (g.isMallocInit || env.mallocInitRc == OK)
    && (!g.tun.bCoreMutex || env.recursiveMutex.Some?)
    && (g.isPCacheInit || env.pcacheInitRc == OK)
    && env.osInitRc == OK
  }

  /** From a quiescent, uninitialized state, `isInit` becomes true exactly
      when every needed collaborator succeeds (page-cache init only when it
      is not done yet), and the call returns OK exactly then. */
  lemma InitializeSucceedsIff(g: Global, env: InitEnv)
    requires Quiescent(g) && !g.isInit
    ensures var r := Initialize(g, env);
      && (r.g.isInit <==> CollaboratorsSucceed(g, env))
      && (r.rc == OK <==> r.g.isInit)
  {
    if env.mutexInitRc == OK {
      var g0 := g.(calls := g.calls + [MutexInit]);
      EnterMasterOutcome(g0, env);
      var e := EnterMaster(g0, env);
      if e.rc == OK {
        BootstrapOutcome(e.g, env);
      }
    }
  }

  /** An outermost call registers the built-in functions at most once, and
      exactly once when it completes the initialization; a call on an
      initialized library registers nothing. */
  lemma InitializeRegistersOnce(g: Global, env: InitEnv)
    requires !g.inProgress
    ensures var r := Initialize(g, env).g;
      && Occurrences(RegisterGlobalFunctions, g.calls) <= Occurrences(RegisterGlobalFunctions, r.calls)
      && Occurrences(RegisterGlobalFunctions, r.calls) <= Occurrences(RegisterGlobalFunctions, g.calls) + 1
      && (!g.isInit && r.isInit ==> Occurrences(RegisterGlobalFunctions, r.calls) == Occurrences(RegisterGlobalFunctions, g.calls) + 1)
      && (g.isInit ==> Occurrences(RegisterGlobalFunctions, r.calls) == Occurrences(RegisterGlobalFunctions, g.calls))
  {
    if !g.isInit {
      var g0 := g.(calls := g.calls + [MutexInit]);
      OccurrencesConcat(RegisterGlobalFunctions, g.calls, [MutexInit]);
      if env.mutexInitRc == OK {
        EnterMasterOutcome(g0, env);
        EnterMasterTrace(g0, env, RegisterGlobalFunctions);
        var e := EnterMaster(g0, env);
        if e.rc == OK {
          BootstrapOutcome(e.g, env);
          LeaveMasterFrame(Bootstrap(e.g, env).g, RegisterGlobalFunctions);
        }
      }
    }
  }

  /** Page-cache initialization is skipped once `isPCacheInit` is set, and
      `sqlite3_initialize` never clears that flag. */
  lemma PcacheInitializedAtMostOnce(g: Global, env: InitEnv)
    requires g.isPCacheInit
    ensures var r := Initialize(g, env).g;
      r.isPCacheInit && Occurrences(PcacheInitialize, r.calls) == Occurrences(PcacheInitialize, g.calls)
  {
    if g.inProgress {
      NestedInitializeSkipsBootstrap(g, env, PcacheInitialize);
    } else if !g.isInit {
      var g0 := g.(calls := g.calls + [MutexInit]);
      OccurrencesConcat(PcacheInitialize, g.calls, [MutexInit]);
      if env.mutexInitRc == OK {
        EnterMasterOutcome(g0, env);
        EnterMasterTrace(g0, env, PcacheInitialize);
        var e := EnterMaster(g0, env);
        if e.rc == OK {
          BootstrapOutcome(e.g, env);
          LeaveMasterFrame(Bootstrap(e.g, env).g, PcacheInitialize);
        }
      }
    }
  }

  /** `sqlite3_initialize` called once per answer set, in order. */
  function InitializeEach(g: Global, envs: seq<InitEnv>): Step
    decreases envs
  {
    if envs == [] then Step(g, OK)
    else
      var first := Initialize(g, envs[0]);
      if |envs| == 1 then first else InitializeEach(first.g, envs[1..])
  }

  /** After initialization completes, any number of further calls return OK
      and change nothing. */
  lemma {:induction false} InitializedStaysPut(g: Global, envs: seq<InitEnv>)
    requires g.isInit
    ensures InitializeEach(g, envs) == Step(g, OK)
  {
    if envs != [] {
      InitializeFastPath(g, envs[0]);
      InitializedStaysPut(g, envs[1..]);
    }
  }

  // -----------------------------------------------------------------------
  // sqlite3_shutdown
  // -----------------------------------------------------------------------

  /** `sqlite3_shutdown` always returns OK and leaves every subsystem flag
      clear; it nulls the directory settings only when it shut the heap
      down, and changes nothing else. */
  lemma ShutdownTearsDown(g: Global)
    ensures var r := Shutdown(g);
      && r.rc == OK
      && !r.g.isInit && !r.g.isPCacheInit && !r.g.isMallocInit && !r.g.isMutexInit
      && r.g.inProgress == g.inProgress && r.g.nRefInitMutex == g.nRefInitMutex
      && r.g.pInitMutex == g.pInitMutex && r.g.tun == g.tun
      && (g.isMallocInit ==> r.g.dataDirectory == Null && r.g.tempDirectory == Null)
      && (!g.isMallocInit ==> r.g.dataDirectory == g.dataDirectory && r.g.tempDirectory == g.tempDirectory)
  {
  }

  /** How many times `sqlite3_shutdown` makes call `c`: once for each set
      flag whose teardown makes that call. */
  function TeardownCount(g: Global, c: Call): nat
  {
    (if g.isInit && (c == OsEnd || c == ResetAutoExtension) then 1 else 0)
    + (if g.isPCacheInit && c == PcacheShutdown then 1 else 0)
    + (if g.isMallocInit && c == MallocEnd then 1 else 0)
    + (if g.isMutexInit && c == MutexEnd then 1 else 0)
  }

  lemma EndOsTrace(g: Global, c: Call)
    ensures Occurrences(c, EndOs(g).calls)
         == Occurrences(c, g.calls) + (if g.isInit && (c == OsEnd || c == ResetAutoExtension) then 1 else 0)
  {
    assert g.calls + [OsEnd, ResetAutoExtension] == g.calls + [OsEnd] + [ResetAutoExtension];
    OccurrencesSnoc(c, g.calls, OsEnd);
    OccurrencesSnoc(c, g.calls + [OsEnd], ResetAutoExtension);
  }

  lemma EndPcacheTrace(g: Global, c: Call)
    ensures Occurrences(c, EndPcache(g).calls)
         == Occurrences(c, g.calls) + (if g.isPCacheInit && c == PcacheShutdown then 1 else 0)
  {
    OccurrencesSnoc(c, g.calls, PcacheShutdown);
  }

  lemma EndMallocTrace(g: Global, c: Call)
    ensures Occurrences(c, EndMalloc(g).calls)
         == Occurrences(c, g.calls) + (if g.isMallocInit && c == MallocEnd then 1 else 0)
  {
    OccurrencesSnoc(c, g.calls, MallocEnd);
  }

  lemma EndMutexTrace(g: Global, c: Call)
    ensures Occurrences(c, EndMutex(g).calls)
         == Occurrences(c, g.calls) + (if g.isMutexInit && c == MutexEnd then 1 else 0)
  {
    OccurrencesSnoc(c, g.calls, MutexEnd);
  }

  /** How the trace grows under `sqlite3_shutdown`, for any call `c`. */
  lemma ShutdownTrace(g: Global, c: Call)
    ensures Occurrences(c, Shutdown(g).g.calls) == Occurrences(c, g.calls) + TeardownCount(g, c)
  {
    var g1 := EndOs(g);
    var g2 := EndPcache(g1);
    var g3 := EndMalloc(g2);
    EndOsTrace(g, c);
    EndPcacheTrace(g1, c);
    EndMallocTrace(g2, c);
    EndMutexTrace(g3, c);
  }

  /** The OS layer and the auto-extension list are torn down exactly when
      the library was initialized. */
  lemma ShutdownEndsOsLayerIffInit(g: Global)
    ensures var r := Shutdown(g).g;
      && Occurrences(OsEnd, r.calls) == Occurrences(OsEnd, g.calls) + (if g.isInit then 1 else 0)
      && Occurrences(ResetAutoExtension, r.calls) == Occurrences(ResetAutoExtension, g.calls) + (if g.isInit then 1 else 0)
  {
    ShutdownTrace(g, OsEnd);
    ShutdownTrace(g, ResetAutoExtension);
  }

  /** The page cache, heap and mutex subsystems are each shut down exactly
      when their flag was set. */
  lemma ShutdownEndsSubsystemsIffSet(g: Global)
    ensures var r := Shutdown(g).g;
      && Occurrences(PcacheShutdown, r.calls) == Occurrences(PcacheShutdown, g.calls) + (if g.isPCacheInit then 1 else 0)
      && Occurrences(MallocEnd, r.calls) == Occurrences(MallocEnd, g.calls) + (if g.isMallocInit then 1 else 0)
      && Occurrences(MutexEnd, r.calls) == Occurrences(MutexEnd, g.calls) + (if g.isMutexInit then 1 else 0)
  {
    ShutdownTrace(g, PcacheShutdown);
    ShutdownTrace(g, MallocEnd);
    ShutdownTrace(g, MutexEnd);
  }

  /** A second `sqlite3_shutdown` is a no-op. */
  lemma ShutdownIdempotent(g: Global)
    ensures Shutdown(Shutdown(g).g) == Shutdown(g)
  {
  }

  /** `sqlite3_shutdown` on a library that was never initialized returns OK
      and changes nothing. */
  lemma ShutdownWhenNeverInitialized(g: Global)
    requires !g.isInit && !g.isPCacheInit && !g.isMallocInit && !g.isMutexInit
    ensures Shutdown(g) == Step(g, OK)
  {
  }

  /** An outermost call that finds the page cache uninitialized and
      completes the initialization runs page-cache initialization once. */
  lemma InitializeRunsPcacheInitOnce(g: Global, env: InitEnv)
    requires !g.inProgress && !g.isInit && !g.isPCacheInit
    ensures var r := Initialize(g, env).g;
      && Occurrences(PcacheInitialize, r.calls) <= Occurrences(PcacheInitialize, g.calls) + 1
      && (r.isInit ==> Occurrences(PcacheInitialize, r.calls) == Occurrences(PcacheInitialize, g.calls) + 1)
  {
    var g0 := g.(calls := g.calls + [MutexInit]);
    OccurrencesConcat(PcacheInitialize, g.calls, [MutexInit]);
    if env.mutexInitRc == OK {
      EnterMasterOutcome(g0, env);
      EnterMasterTrace(g0, env, PcacheInitialize);
      var e := EnterMaster(g0, env);
      if e.rc == OK {
        BootstrapOutcome(e.g, env);
        LeaveMasterFrame(Bootstrap(e.g, env).g, PcacheInitialize);
      }
    }
  }

  /** Initialize, shut down, initialize: when every collaborator succeeds
      the second call ends initialized and quiescent again. */
  lemma ReinitializeAfterShutdown(g: Global, env: InitEnv)
    requires Quiescent(g)
    requires env.mutexInitRc == OK && env.mallocInitRc == OK && env.pcacheInitRc == OK && env.osInitRc == OK
    requires !g.tun.bCoreMutex || env.recursiveMutex.Some?
    ensures var r := Initialize(Shutdown(g).g, env);
      r.rc == OK && r.g.isInit && Quiescent(r.g)
  {
    InitializeSucceedsIff(Shutdown(g).g, env);
    InitializeKeepsQuiescent(Shutdown(g).g, env);
  }

  /** ... and the second bootstrap runs in full again: the built-in
      functions are registered and the page cache initialized once more. */
  lemma ReinitializeRerunsBootstrap(g: Global, env: InitEnv)
    requires Quiescent(g)
    requires env.mutexInitRc == OK && env.mallocInitRc == OK && env.pcacheInitRc == OK && env.osInitRc == OK
    requires !g.tun.bCoreMutex || env.recursiveMutex.Some?
    ensures var r := Initialize(Shutdown(g).g, env).g;
      && Occurrences(RegisterGlobalFunctions, r.calls) == Occurrences(RegisterGlobalFunctions, g.calls) + 1
      && Occurrences(PcacheInitialize, r.calls) == Occurrences(PcacheInitialize, g.calls) + 1
  {
    var down := Shutdown(g).g;
    ShutdownTearsDown(g);
    ShutdownTrace(g, RegisterGlobalFunctions);
    ShutdownTrace(g, PcacheInitialize);
    assert Occurrences(RegisterGlobalFunctions, down.calls) == Occurrences(RegisterGlobalFunctions, g.calls);
    assert Occurrences(PcacheInitialize, down.calls) == Occurrences(PcacheInitialize, g.calls);
    InitializeSucceedsIff(down, env);
    InitializeRegistersOnce(down, env);
    InitializeRunsPcacheInitOnce(down, env);
  }

  // -----------------------------------------------------------------------
  // sqlite3_config
  // -----------------------------------------------------------------------

  /** Once initialized, every opcode is rejected with MISUSE and nothing
      changes. */
  lemma ConfigureAfterInitIsMisuse(g: Global, op: ConfigOp)
    requires g.isInit
    ensures Configure(g, op) == ConfigResult(g, MISUSE, NoValue)
  {
  }

  /** `sqlite3_config` writes tunables only: never an initialization flag,
      the init mutex, the directories or the trace. */
  lemma ConfigureOnlyWritesTunables(g: Global, op: ConfigOp)
    ensures var r := Configure(g, op);
      r.g == g.(tun := r.g.tun)
  {
  }

  /** The three threading modes set (bCoreMutex, bFullMutex) to
      (false, false), (true, false) and (true, true), return OK, and change
      nothing else. */
  lemma ConfigureThreadingModes(g: Global)
    requires !g.isInit
    ensures Configure(g, ConfigSingleThread)
      == ConfigResult(g.(tun := g.tun.(bCoreMutex := false, bFullMutex := false)), OK, NoValue)
    ensures Configure(g, ConfigMultiThread)
      == ConfigResult(g.(tun := g.tun.(bCoreMutex := true, bFullMutex := false)), OK, NoValue)
    ensures Configure(g, ConfigSerialized)
      == ConfigResult(g.(tun := g.tun.(bCoreMutex := true, bFullMutex := true)), OK, NoValue)
  {
  }

  /** The retired GETPCACHE opcode and unknown opcodes fail with ERROR and
      change nothing; the retired PCACHE opcode is an OK no-op. */
  lemma ConfigureRetiredOpcodes(g: Global, op: ConfigOp)
    requires !g.isInit
    ensures op.ConfigGetPCache? || op.ConfigOther? ==> Configure(g, op) == ConfigResult(g, ERROR, NoValue)
    ensures op.ConfigPCache? ==> Configure(g, op) == ConfigResult(g, OK, NoValue)
  {
  }

  /** SQLITE_CONFIG_MMAP_SIZE leaves 0 <= szMmap <= mxMmap <= MaxMmapSize,
      keeping the requested values where they are already in range, and
      changes no other setting. */
  lemma ConfigureMmapSize(g: Global, szMmap: Int64, mxMmap: Int64)
    requires !g.isInit
    ensures var r := Configure(g, ConfigMmapSize(szMmap, mxMmap));
      && r.rc == OK && r.out == NoValue
      && r.g == g.(tun := g.tun.(szMmap := r.g.tun.szMmap, mxMmap := r.g.tun.mxMmap))
      && 0 <= r.g.tun.szMmap <= r.g.tun.mxMmap <= MaxMmapSize
      && (0 <= mxMmap <= MaxMmapSize ==> r.g.tun.mxMmap == mxMmap)
      && (0 <= szMmap <= r.g.tun.mxMmap ==> r.g.tun.szMmap == szMmap)
      && (szMmap < 0 ==> r.g.tun.szMmap == Min(DefaultMmapSize, r.g.tun.mxMmap))
  {
  }

  /** The getters for the allocator and page-cache tables install the
      built-in table when none is set, changing nothing else, and hand back
      the table then in force; a table that is set is handed back as is. */
  lemma ConfigureGettersInstallDefaults(g: Global)
    requires !g.isInit
    ensures g.tun.m.xMalloc == Null ==>
      Configure(g, ConfigGetMalloc)
      == ConfigResult(g.(tun := g.tun.(m := DefaultMemMethods)), OK, MemTable(DefaultMemMethods))
    ensures g.tun.m.xMalloc != Null ==> Configure(g, ConfigGetMalloc) == ConfigResult(g, OK, MemTable(g.tun.m))
    ensures g.tun.pcache2.xInit == Null ==>
      Configure(g, ConfigGetPCache2)
      == ConfigResult(g.(tun := g.tun.(pcache2 := DefaultPcacheMethods2)), OK, PcacheTable(DefaultPcacheMethods2))
    ensures g.tun.pcache2.xInit != Null ==>
      Configure(g, ConfigGetPCache2) == ConfigResult(g, OK, PcacheTable(g.tun.pcache2))
  {
  }

  /** Setting a method table and then getting it hands back the same table
      (for the allocator and page cache: whenever its entry point is not
      nil). */
  lemma ConfigureSetThenGet(g: Global, mutex: MutexMethods, m: MemMethods, pcache2: PcacheMethods2)
    requires !g.isInit
    ensures Configure(Configure(g, ConfigMutex(mutex)).g, ConfigGetMutex).out == MutexTable(mutex)
    ensures m.xMalloc != Null ==> Configure(Configure(g, ConfigMalloc(m)).g, ConfigGetMalloc).out == MemTable(m)
    ensures pcache2.xInit != Null ==>
      Configure(Configure(g, ConfigPCache2(pcache2)).g, ConfigGetPCache2).out == PcacheTable(pcache2)
  {
  }

  /** An allocator or page-cache table set with a nil entry point is
      replaced by the built-in one when it is next fetched. */
  lemma ConfigureSetNilThenGet(g: Global, m: MemMethods, pcache2: PcacheMethods2)
    requires !g.isInit
    ensures m.xMalloc == Null ==>
      Configure(Configure(g, ConfigMalloc(m)).g, ConfigGetMalloc).out == MemTable(DefaultMemMethods)
    ensures pcache2.xInit == Null ==>
      Configure(Configure(g, ConfigPCache2(pcache2)).g, ConfigGetPCache2).out == PcacheTable(DefaultPcacheMethods2)
  {
  }
}
