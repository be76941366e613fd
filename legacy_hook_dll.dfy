/**
 * The earlier version of the hook DLL (devspy_hook/main.c): it opens and maps
 * the application's shared region but does not check who owns it, and its
 * callbacks log every message with a valid code.
 */
module LegacyHookDll {
  import opened Win32
  import opened Api
  import opened HookState

  /** What the Win32 calls that `init_dll` makes return in the process being attached to. */
  datatype AttachEnvironment = AttachEnvironment(
    openMutex: Option<Handle>,    // OpenMutex(SYNCHRONIZE, FALSE, APP_MUTEX_NAME)
    openMapping: Option<Handle>,  // OpenFileMapping(FILE_MAP_WRITE, FALSE, DATA_FILE_NAME)
    view: AppData?)               // MapViewOfFile(app_file, ...)

  /**
   * What `init_dll` hands back: a `BOOL` from a `return` statement, or
   * nothing, when control reaches the end of the function without one.
   */
  datatype AttachResult = Returned(ok: bool) | NoReturnValue

  /** The module-level statics of main.c. */
  class Dll {
    var moduleHandle: Option<Handle>
    var appMutex: Option<Handle>
    var appFile: Option<Handle>
    var appData: AppData?
    var callWndProcHook: Option<HookHandle>
    var getMessageHook: Option<HookHandle>

    function Hooks(): HookState.Hooks
      reads this
    {
      HookState.Hooks(callWndProcHook, getMessageHook)
    }

    /** Nothing opened or mapped: the statics as the loader initialises them. */
    predicate Detached()
      reads this
    {
      moduleHandle.None? && appMutex.None? && appFile.None? && appData == null
    }

    /** Lines 4-9: every static starts out null. */
    constructor ()
      ensures Detached() && Hooks() == Uninstalled
    {
      moduleHandle, appMutex, appFile, appData := None, None, None, null;
      callWndProcHook, getMessageHook := None, None;
    }

    /**
     * `init_dll` (lines 11-34). It returns `TRUE` when there is no
     * application mutex and `FALSE` when the region cannot be opened or
     * mapped; once the region is mapped it ends without a `return`.
     */
    method InitDll(instance: Handle, env: AttachEnvironment) returns (r: AttachResult)
      requires Detached()
      modifies this`moduleHandle, this`appMutex, this`appFile, this`appData
      ensures moduleHandle == Some(instance) && appMutex == env.openMutex
      ensures env.openMutex.None? ==> r == Returned(true) && appFile.None? && appData == null
      ensures env.openMutex.Some? ==> appFile == env.openMapping
      ensures env.openMutex.Some? && env.openMapping.None? ==> r == Returned(false) && appData == null
      ensures env.openMutex.Some? && env.openMapping.Some? ==> appData == env.view
      ensures env.openMutex.Some? && env.openMapping.Some? && env.view == null ==> r == Returned(false)
      ensures env.openMutex.Some? && env.openMapping.Some? && env.view != null ==> r == NoReturnValue
    {
      moduleHandle := Some(instance);

      appMutex := env.openMutex;
      if appMutex.None? {
        return Returned(true);
      }

      appFile := env.openMapping;
      if appFile.None? {
        return Returned(false);
      }

      appData := env.view;
      if appData == null {
        return Returned(false);
      }

      r := NoReturnValue;
    }

    /** `uninit_dll` (lines 36-57): releases what is held, in this order. */
    method UninitDll() returns (effects: seq<Effect>)
      modifies this`moduleHandle, this`appMutex, this`appFile, this`appData
      ensures Detached()
      ensures effects == (if old(appData) != null then [UnmapView] else [])
                         + CloseIfSet(old(appFile)) + CloseIfSet(old(appMutex))
    {
      moduleHandle := None;
      effects := [];

      if appData != null {
        effects := effects + [UnmapView];
        appData := null;
      }

      if appFile.Some? {
        effects := effects + [CloseHandle(appFile.value)];
        appFile := None;
      }

      if appMutex.Some? {
        effects := effects + [CloseHandle(appMutex.value)];
        appMutex := None;
      }
    }

    /**
     * `call_wnd_proc_hook` (lines 74-89): logs every message with a valid
     * code, whatever the shared header says, and always forwards. `target`
     * is the window the callback reads from `lp` (as a `CWPRETSTRUCT`, as in
     * the current DLL), taken as given.
     */
    method CallWndProcHook(code: int, wp: nat, lp: nat, target: Window, next: NextHook)
      returns (result: int, line: Option<LogLine>)
      ensures result == next(callWndProcHook, code, wp, lp)
      ensures line.Some? <==> code >= 0
      ensures line.Some? ==> line.value == LineFor(Send, target)
    {
      line := None;
      if code >= 0 {
        line := Some(LineFor(Send, target));
      }
      result := next(callWndProcHook, code, wp, lp);
    }

    /** `get_message_hook` (lines 91-106): as above, for retrieved messages. */
    method GetMessageHook(code: int, wp: nat, lp: nat, target: Window, next: NextHook)
      returns (result: int, line: Option<LogLine>)
      ensures result == next(getMessageHook, code, wp, lp)
      ensures line.Some? <==> code >= 0
      ensures line.Some? ==> line.value == LineFor(Post, target)
    {
      line := None;
      if code >= 0 {
        line := Some(LineFor(Post, target));
      }
      result := next(getMessageHook, code, wp, lp);
    }

    /** `start_hook` (lines 108-119). */
    method StartHook(cwp: Option<HookHandle>, gm: Option<HookHandle>)
      modifies this`callWndProcHook, this`getMessageHook
      ensures Hooks() == Start(old(Hooks()), cwp, gm)
    {
      if callWndProcHook.None? {
        callWndProcHook := cwp;
      }

      if getMessageHook.None? {
        getMessageHook := gm;
      }
    }

    /** `stop_hook` (lines 121-134): `unhooked` lists the handles passed to `UnhookWindowsHookEx`, in order. */
    method StopHook() returns (unhooked: seq<HookHandle>)
      modifies this`callWndProcHook, this`getMessageHook
      ensures Hooks() == Uninstalled
      ensures unhooked == Unhooked(old(Hooks()))
    {
      unhooked := [];
      if getMessageHook.Some? {
        unhooked := unhooked + [getMessageHook.value];
        getMessageHook := None;
      }

      if callWndProcHook.Some? {
        unhooked := unhooked + [callWndProcHook.value];
        callWndProcHook := None;
      }
    }
  }
}
