/** `sqlite3Config` as an object whose fields the three entry points update
    in place. Each method is proved to leave exactly the state (and return
    exactly the code) that the corresponding function of `SetupSpec`
    describes; the properties of those functions are in `SetupProps`. */
module Setup {
  import opened Common
  import opened SetupSpec

  class GlobalConfig {
    // initialization state
    var isMutexInit: bool
    var isMallocInit: bool
    var isPCacheInit: bool
    var isInit: bool
    var inProgress: bool
    var pInitMutex: Option<MutexHandle>
    var nRefInitMutex: int

    // the process-wide directory settings (sqlite3_data_directory,
    // sqlite3_temp_directory), which shutdown must clear
    var dataDirectory: Ptr
    var tempDirectory: Ptr

    // the tunables, which only sqlite3_config writes
    var tun: Tunables

    // the collaborator calls made so far, in order (specification only)
    ghost var calls: seq<Call>

    /** The abstract value of the record. */
    ghost function State(): Global
      reads this
    {
      Global(isMutexInit, isMallocInit, isPCacheInit, isInit, inProgress,
             pInitMutex, nRefInitMutex, dataDirectory, tempDirectory, tun, calls)
    }

    /** The record at process start: nothing initialized, the given
        compile-time tunables. */
    constructor (t: Tunables)
      ensures State() == Global(false, false, false, false, false, None, 0, Null, Null, t, [])
      ensures Quiescent(State())
    {
      isMutexInit, isMallocInit, isPCacheInit, isInit, inProgress := false, false, false, false, false;
      pInitMutex, nRefInitMutex := None, 0;
      dataDirectory, tempDirectory := Null, Null;
      tun := t;
      calls := [];
    }

    /** `sqlite3_initialize`. */
    method Initialize(env: InitEnv) returns (rc: int)
      modifies this
      decreases env, 3
      ensures State() == SetupSpec.Initialize(old(State()), env).g
      ensures rc == SetupSpec.Initialize(old(State()), env).rc
    {
      if isInit {
        return OK;
      }
      calls := calls + [MutexInit];
      rc := env.mutexInitRc;
      if rc != OK {
        return;
      }
      rc := EnterMaster(env);
      if rc != OK {
        return;
      }
      rc := Bootstrap(env);
      LeaveMaster();
    }

    /** The first master-mutex critical section. */
    method EnterMaster(env: InitEnv) returns (rc: int)
      modifies this
      ensures State() == SetupSpec.EnterMaster(old(State()), env).g
      ensures rc == SetupSpec.EnterMaster(old(State()), env).rc
    {
      rc := OK;
      isMutexInit := true;
      if !isMallocInit {
        calls := calls + [MallocInit];
        rc := env.mallocInitRc;
      }
      if rc == OK {
        isMallocInit := true;
        if pInitMutex.None? {
          calls := calls + [NewRecursiveMutex];
          pInitMutex := env.recursiveMutex;
          if tun.bCoreMutex && pInitMutex.None? {
            rc := NOMEM;
          }
        }
      }
      if rc == OK {
        nRefInitMutex := nRefInitMutex + 1;
      }
    }

    /** The critical section under the recursive init mutex. */
    method Bootstrap(env: InitEnv) returns (rc: int)
      modifies this
      decreases env, 2
      ensures State() == SetupSpec.Bootstrap(old(State()), env).g
      ensures rc == SetupSpec.Bootstrap(old(State()), env).rc
    {
      rc := OK;
      if !isInit && !inProgress {
        inProgress := true;
        calls := calls + [RegisterGlobalFunctions];
        if !isPCacheInit {
          calls := calls + [PcacheInitialize];
          rc := env.pcacheInitRc;
        }
        if rc == OK {
          isPCacheInit := true;
          rc := RunOsInit(env);
        }
        if rc == OK {
          calls := calls + [PCacheBufferSetup(tun.pPage, tun.szPage, tun.nPage)];
          isInit := true;
        }
        inProgress := false;
      }
    }

    /** `sqlite3OsInit`, with its optional re-entrant initialization. */
    method RunOsInit(env: InitEnv) returns (rc: int)
      modifies this
      decreases env, 1
      ensures State() == SetupSpec.RunOsInit(old(State()), env).g
      ensures rc == env.osInitRc
    {
      calls := calls + [OsInit];
      if env.reentry.Some? {
        var _ := Initialize(env.reentry.value);
      }
      rc := env.osInitRc;
    }

    /** The second master-mutex critical section. */
    method LeaveMaster()
      modifies this
      ensures State() == SetupSpec.LeaveMaster(old(State()))
    {
      nRefInitMutex := nRefInitMutex - 1;
      if nRefInitMutex <= 0 {
        calls := calls + [MutexFree(pInitMutex)];
        pInitMutex := None;
      }
    }

    /** `sqlite3_shutdown`. */
    method Shutdown() returns (rc: int)
      modifies this
      ensures State() == SetupSpec.Shutdown(old(State())).g
      ensures rc == OK
    {
      if isInit {
        calls := calls + [OsEnd, ResetAutoExtension];
        isInit := false;
      }
      assert State() == EndOs(old(State()));
      if isPCacheInit {
        calls := calls + [PcacheShutdown];
        isPCacheInit := false;
      }
      assert State() == EndPcache(EndOs(old(State())));
      if isMallocInit {
        calls := calls + [MallocEnd];
        isMallocInit := false;
        dataDirectory := Null;
        tempDirectory := Null;
      }
      assert State() == EndMalloc(EndPcache(EndOs(old(State()))));
      if isMutexInit {
        calls := calls + [MutexEnd];
        isMutexInit := false;
      }
      return OK;
    }

    /** `sqlite3_config`. */
    method Config(op: ConfigOp) returns (rc: int, out: Fetched)
      modifies this
      ensures State() == Configure(old(State()), op).g
      ensures rc == Configure(old(State()), op).rc
      ensures out == Configure(old(State()), op).out
    {
      if isInit {
        return MISUSE, NoValue;
      }
      rc, out := Dispatch(op);
    }

    /** The opcode switch of `sqlite3_config`. */
    method Dispatch(op: ConfigOp) returns (rc: int, out: Fetched)
      modifies this`tun
      ensures Dispatched(tun, rc, out) == SetupSpec.Dispatch(old(tun), op)
    {
      rc, out := OK, NoValue;
      match op {
        case ConfigSingleThread =>
          tun := tun.(bCoreMutex := false, bFullMutex := false);
        case ConfigMultiThread =>
          tun := tun.(bCoreMutex := true, bFullMutex := false);
        case ConfigSerialized =>
          tun := tun.(bCoreMutex := true, bFullMutex := true);
        case ConfigMutex(mutex) =>
          tun := tun.(mutex := mutex);
        case ConfigGetMutex =>
          out := MutexTable(tun.mutex);
        case ConfigMalloc(m) =>
          tun := tun.(m := m);
        case ConfigGetMalloc =>
          if tun.m.xMalloc == Null {
            tun := tun.(m := DefaultMemMethods);
          }
          out := MemTable(tun.m);
        case ConfigMemStatus(on) =>
          tun := tun.(bMemstat := on);
        case ConfigScratch(p, sz, n) =>
          tun := tun.(pScratch := p, szScratch := sz, nScratch := n);
        case ConfigPageCache(p, sz, n) =>
          tun := tun.(pPage := p, szPage := sz, nPage := n);
        case ConfigPCache =>
        case ConfigGetPCache =>
          rc := ERROR;
        case ConfigPCache2(pcache2) =>
          tun := tun.(pcache2 := pcache2);
        case ConfigGetPCache2 =>
          if tun.pcache2.xInit == Null {
            tun := tun.(pcache2 := DefaultPcacheMethods2);
          }
          out := PcacheTable(tun.pcache2);
        case ConfigLog(xLog, pLogArg) =>
          tun := tun.(xLog := xLog, pLogArg := pLogArg);
        case ConfigUri(on) =>
          tun := tun.(bOpenUri := on);
        case ConfigCoveringIndexScan(on) =>
          tun := tun.(bUseCis := on);
        case ConfigMmapSize(sz, mx) =>
          var szMmap, mxMmap := sz, mx;
          if mxMmap < 0 || mxMmap > MaxMmapSize {
            mxMmap := MaxMmapSize;
          }
          tun := tun.(mxMmap := mxMmap);
          if szMmap < 0 {
            szMmap := DefaultMmapSize;
          }
          if szMmap > mxMmap {
            szMmap := mxMmap;
          }
          tun := tun.(szMmap := szMmap);
        case ConfigOther(_) =>
          rc := ERROR;
      }
    }
  }
}
