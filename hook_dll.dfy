/**
 * The hook DLL as it is built today (devspy_hook/dllmain.c). Loaded into
 * every process the system-wide hooks reach, it opens the application's
 * shared region, refuses to stay loaded unless the region's owner is the
 * DevSpy executable, and logs window messages only while capture is active.
 */
module HookDll {
  import opened Win32
  import opened Api
  import Admission
  import opened HookState

  /** What the Win32 calls that `init_dll` makes return in the process being attached to. */
  datatype AttachEnvironment = AttachEnvironment(
    openMutex: Option<Handle>,    // OpenMutex(SYNCHRONIZE, false, APP_MUTEX_NAME)
    openMapping: Option<Handle>,  // OpenFileMapping(FILE_MAP_WRITE, false, DATA_FILE_NAME)
    view: AppData?,               // MapViewOfFile(app_file, ...)
    openProcess: Option<Handle>,  // OpenProcess(..., app_data->app_process_id)
    imagePath: string)            // GetModuleFileNameEx(process, ...); empty when it fails

  /** The module-level statics of dllmain.c, for a build of word size `bits`. */
  class Dll {
    const bits: Bits
    var moduleHandle: Option<Handle>
    var appMutex: Option<Handle>
    var appFile: Option<Handle>
    var appData: AppData?
    var callWndProcHook: Option<HookHandle>
    var getMessageHook: Option<HookHandle>

    function Hooks(): HookState.Hooks
      reads this
    {
      HookState.Hooks(callWndProcHook, getMessageHook)
    }

    /** Nothing opened or mapped: the statics as the loader initialises them. */
    predicate Detached()
      reads this
    {
      moduleHandle.None? && appMutex.None? && appFile.None? && appData == null
    }

    /** Lines 4-9: every static starts out null. */
    constructor (bits: Bits)
      ensures this.bits == bits && Detached() && Hooks() == Uninstalled
    {
      this.bits := bits;
      moduleHandle, appMutex, appFile, appData := None, None, None, null;
      callWndProcHook, getMessageHook := None, None;
    }

    /**
     * `init_dll` (lines 11-53), whose result `DllMain` returns for
     * `DLL_PROCESS_ATTACH`. `effects` lists the handles it closes.
     */
    method InitDll(instance: Handle, env: AttachEnvironment) returns (ok: bool, effects: seq<Effect>)
      requires Detached()
      modifies this`moduleHandle, this`appMutex, this`appFile, this`appData
      ensures moduleHandle == Some(instance) && appMutex == env.openMutex
      // No application mutex: running inside the application itself, or no
      // application at all. Attaching succeeds and nothing is mapped, so no
      // callback will ever log.
      ensures env.openMutex.None? ==> ok && appFile.None? && appData == null && effects == []
      // The mutex exists but the region cannot be opened or mapped: refused.
      ensures env.openMutex.Some? ==> appFile == env.openMapping
      ensures env.openMutex.Some? && env.openMapping.None? ==> !ok && appData == null && effects == []
      ensures env.openMutex.Some? && env.openMapping.Some? ==> appData == env.view
      ensures env.openMutex.Some? && env.openMapping.Some? && env.view == null ==> !ok && effects == []
      // The region is mapped: admitted exactly when its owner is the application.
      ensures env.openMutex.Some? && env.openMapping.Some? && env.view != null ==>
        && ok == Admission.ValidProcess(env.view.appProcessId, env.openProcess, env.imagePath, bits)
        && effects == (if env.view.appProcessId != 0 && env.openProcess.Some?
                       then [CloseHandle(env.openProcess.value)] else [])
    {
      moduleHandle := Some(instance);
      effects := [];

      appMutex := env.openMutex;
      if appMutex.None? {
        return true, effects;
      }

      appFile := env.openMapping;
      if appFile.None? {
        return false, effects;
      }

      appData := env.view;
      if appData == null {
        return false, effects;
      }

      var validProcess := false;
      var processHandle := if appData.appProcessId != 0 then env.openProcess else None;
      if processHandle.Some? {
        var fileLength := |env.imagePath|;
        if fileLength != 0 {
          validProcess := Admission.IsExpectedImage(env.imagePath, bits);
        }
        effects := effects + [CloseHandle(processHandle.value)];
      }
      ok := validProcess;
    }

    /** `uninit_dll` (lines 55-76), run for `DLL_PROCESS_DETACH`: releases what is held, in this order. */
    method UninitDll() returns (effects: seq<Effect>)
      modifies this`moduleHandle, this`appMutex, this`appFile, this`appData
      ensures Detached()
      ensures effects == (if old(appData) != null then [UnmapView] else [])
                         + CloseIfSet(old(appFile)) + CloseIfSet(old(appMutex))
    {
      moduleHandle := None;
      effects := [];

      if appData != null {
        effects := effects + [UnmapView];
        appData := null;
      }

      if appFile.Some? {
        effects := effects + [CloseHandle(appFile.value)];
        appFile := None;
      }

      if appMutex.Some? {
        effects := effects + [CloseHandle(appMutex.value)];
        appMutex := None;
      }
    }

    /** Lines 95 and 112: a callback logs only for a valid code while the application has capture switched on. */
    predicate Capturing(code: int)
      reads this, appData
    {
      code >= 0 && appData != null && appData.active != 0
    }

    /**
     * `call_wnd_proc_hook` (lines 93-108). `target` is the window, with its
     * process and thread, that the callback reads from `lp` and reports;
     * `next` is the rest of the hook chain. The callback reads `lp` as a
     * `CWPRETSTRUCT`, while a `WH_CALLWNDPROC` hook receives a `CWPSTRUCT`,
     * so that window need not be the message's target; the model takes it
     * as given.
     */
    method CallWndProcHook(code: int, wp: nat, lp: nat, target: Window, next: NextHook)
      returns (result: int, line: Option<LogLine>)
      ensures result == next(callWndProcHook, code, wp, lp)
      ensures line.Some? <==> Capturing(code)
      ensures appData == null || appData.active == 0 || code < 0 ==> line.None?
      ensures line.Some? ==> line.value == LineFor(Send, target)
    {
      line := None;
      if code >= 0 && appData != null && appData.active != 0 {
        line := Some(LineFor(Send, target));
      }
      result := next(callWndProcHook, code, wp, lp);
    }

    /**
     * `get_message_hook` (lines 110-125). `target` is the window of the
     * retrieved `MSG`, with its process and thread; `next` is the rest of
     * the hook chain.
     */
    method GetMessageHook(code: int, wp: nat, lp: nat, target: Window, next: NextHook)
      returns (result: int, line: Option<LogLine>)
      ensures result == next(getMessageHook, code, wp, lp)
      ensures line.Some? <==> Capturing(code)
      ensures appData == null || appData.active == 0 || code < 0 ==> line.None?
      ensures line.Some? ==> line.value == LineFor(Post, target)
    {
      line := None;
      if code >= 0 && appData != null && appData.active != 0 {
        line := Some(LineFor(Post, target));
      }
      result := next(getMessageHook, code, wp, lp);
    }

    /**
     * `start_hook` (lines 127-138). `cwp` and `gm` are what
     * `SetWindowsHookEx` returns for the two hooks (`None` when it fails);
     * each is consulted only when its handle is null.
     */
    method StartHook(cwp: Option<HookHandle>, gm: Option<HookHandle>)
      modifies this`callWndProcHook, this`getMessageHook
      ensures Hooks() == Start(old(Hooks()), cwp, gm)
    {
      if callWndProcHook.None? {
        callWndProcHook := cwp;
      }

      if getMessageHook.None? {
        getMessageHook := gm;
      }
    }

    /** `stop_hook` (lines 140-153): `unhooked` lists the handles passed to `UnhookWindowsHookEx`, in order. */
    method StopHook() returns (unhooked: seq<HookHandle>)
      modifies this`callWndProcHook, this`getMessageHook
      ensures Hooks() == Uninstalled
      ensures unhooked == Unhooked(old(Hooks()))
    {
      unhooked := [];
      if getMessageHook.Some? {
        unhooked := unhooked + [getMessageHook.value];
        getMessageHook := None;
      }

      if callWndProcHook.Some? {
        unhooked := unhooked + [callWndProcHook.value];
        callWndProcHook := None;
      }
    }
  }

  /**
   * `init_dll` followed by a callback: when the application mutex cannot be
   * opened, attaching succeeds and the callback forwards without logging.
   */
  method AttachWithoutApplication(dll: Dll, instance: Handle, env: AttachEnvironment,
                                  code: int, wp: nat, lp: nat, target: Window, next: NextHook)
    returns (ok: bool, line: Option<LogLine>, result: int)
    requires dll.Detached() && env.openMutex.None?
    modifies dll
    ensures ok && line.None? && result == next(dll.callWndProcHook, code, wp, lp)
  {
    var effects;
    ok, effects := dll.InitDll(instance, env);
    result, line := dll.CallWndProcHook(code, wp, lp, target, next);
  }
}
