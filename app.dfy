/**
 * The DevSpy application's side of the channel (devspy/main.c): it claims
 * the single-instance mutex, creates and maps the shared region, stamps the
 * zeroed header with its own process id, and on exit stops the hooks and
 * withdraws the header before releasing everything.
 */
module DevSpyApp {
  import opened Win32
  import opened Api
  import HookState
  import HookDll

  /** What the Win32 calls that `init_app` makes return. */
  datatype StartupEnvironment = StartupEnvironment(
    createMutex: Option<Handle>,    // CreateMutex(NULL, true, APP_MUTEX_NAME)
    alreadyExists: bool,            // GetLastError() == ERROR_ALREADY_EXISTS right after it
    createMapping: Option<Handle>,  // CreateFileMapping(..., sizeof(app_data_t), DATA_FILE_NAME)
    view: AppData?,                 // MapViewOfFile(app_file, ...)
    processId: u32)                 // GetCurrentProcessId()

  /** Every object a mapped view is made of; empty when nothing was mapped. */
  function Region(view: AppData?): set<object>
  {
    if view == null then {} else {view, view.padding, view.entries, view.data}
  }

  /**
   * `init_app` can go all the way: the mutex is created by this process (so
   * no other instance runs) and the region is created and mapped.
   */
  predicate StartupSucceeds(env: StartupEnvironment)
  {
    env.createMutex.Some? && !env.alreadyExists && env.createMapping.Some? && env.view != null
  }

  /** The module-level statics of devspy/main.c and the hook DLL it links against. */
  class App {
    const hookDll: HookDll.Dll
    var appMutex: Option<Handle>
    var appFile: Option<Handle>
    var appData: AppData?

    /** Nothing created or mapped. */
    predicate Closed()
      reads this
    {
      appMutex.None? && appFile.None? && appData == null
    }

    /** Lines 8-10: every static starts out null. */
    constructor (hookDll: HookDll.Dll)
      ensures this.hookDll == hookDll && Closed()
    {
      this.hookDll := hookDll;
      appMutex, appFile, appData := None, None, null;
    }

    /** `init_app` (lines 12-38). */
    method InitApp(env: StartupEnvironment) returns (ok: bool)
      requires Closed()
      requires env.view != null ==> env.view.Valid()
      modifies this, Region(env.view)
      ensures ok <==> StartupSucceeds(env)
      ensures appMutex == env.createMutex
      // The view is kept only when every step succeeded.
      ensures appData == (if StartupSucceeds(env) then env.view else null)
      // A second instance, or no mutex at all: nothing else is created.
      ensures env.createMutex.None? || env.alreadyExists ==> appFile.None? && appData == null
      ensures env.createMutex.Some? && !env.alreadyExists ==> appFile == env.createMapping
      ensures env.createMutex.Some? && !env.alreadyExists && env.createMapping.Some? ==> appData == env.view
      ensures !ok && env.view != null ==> unchanged(env.view, env.view.padding, env.view.entries, env.view.data)
      // Started: the whole region is zero except the owner's process id.
      ensures ok ==>
        && appData.appProcessId == env.processId
        && appData.active == 0 && appData.writeIndex == 0 && appData.readIndex == 0
        && (forall i :: 0 <= i < appData.padding.Length ==> appData.padding[i] == 0)
        && (forall i :: 0 <= i < appData.entries.Length ==> appData.entries[i] == ZeroEntry)
        && (forall i :: 0 <= i < appData.data.Length ==> appData.data[i] == ZeroData)
      // The hooks are not started here.
      ensures hookDll.Hooks() == old(hookDll.Hooks())
    {
      appMutex := env.createMutex;
      if appMutex.None? || env.alreadyExists {
        return false;
      }

      appFile := env.createMapping;
      if appFile.None? {
        return false;
      }

      appData := env.view;
      if appData == null {
        return false;
      }

      appData.Zero();
      appData.appProcessId := env.processId;

      return true;
    }

    /**
     * `uninit_app` (lines 40-64): stops the hooks, tells producers the
     * channel is gone by clearing `active` and `app_process_id` (the
     * `ClearHeader` step), then unmaps the view and releases and closes the
     * handles, in that order.
     */
    method UninitApp() returns (effects: seq<Effect>)
      modifies this, hookDll`callWndProcHook, hookDll`getMessageHook, appData
      ensures Closed()
      ensures hookDll.Hooks() == HookState.Uninstalled
      ensures old(appData) != null ==>
        && old(appData).active == 0 && old(appData).appProcessId == 0
        && old(appData).writeIndex == old(appData.writeIndex)
        && old(appData).readIndex == old(appData.readIndex)
      ensures effects ==
        UnhookAll(HookState.Unhooked(old(hookDll.Hooks())))
        + (if old(appData) != null then [ClearHeader, UnmapView] else [])
        + CloseIfSet(old(appFile))
        + (if old(appMutex).Some? then [ReleaseMutex(old(appMutex).value), CloseHandle(old(appMutex).value)] else [])
    {
      var unhooked := hookDll.StopHook();
      effects := UnhookAll(unhooked);

      if appData != null {
        appData.active := 0;
        appData.appProcessId := 0;
        effects := effects + [ClearHeader, UnmapView];
        appData := null;
      }

      if appFile.Some? {
        effects := effects + [CloseHandle(appFile.value)];
        appFile := None;
      }

      if appMutex.Some? {
        effects := effects + [ReleaseMutex(appMutex.value), CloseHandle(appMutex.value)];
        appMutex := None;
      }
    }
  }

  /** The `UnhookWindowsHookEx` calls for `hooks`, in order. */
  function UnhookAll(hooks: seq<HookHandle>): (r: seq<Effect>)
    ensures |r| == |hooks|
    ensures forall i :: 0 <= i < |hooks| ==> r[i] == Unhook(hooks[i])
  {
    if hooks == [] then [] else [Unhook(hooks[0])] + UnhookAll(hooks[1..])
  }

  /**
   * `wWinMain` (lines 66-71) for a freshly started process. `uiInitOk` is
   * what `init_ui` returns and `uiExitCode` what `run_ui` returns; `uiStarted`
   * tells whether `init_ui` was called at all.
   */
  method WinMain(app: App, env: StartupEnvironment, uiInitOk: bool, uiExitCode: int)
    returns (result: int, uiStarted: bool, effects: seq<Effect>)
    requires app.Closed() && app.hookDll.Hooks() == HookState.Uninstalled
    requires env.view != null ==> env.view.Valid()
    modifies app, app.hookDll`callWndProcHook, app.hookDll`getMessageHook, Region(env.view)
    ensures uiStarted <==> StartupSucceeds(env)
    ensures result == (if StartupSucceeds(env) && uiInitOk then uiExitCode else 1)
    ensures app.Closed() && app.hookDll.Hooks() == HookState.Uninstalled
    ensures StartupSucceeds(env) ==> env.view.active == 0 && env.view.appProcessId == 0
    // What teardown releases: only what startup obtained.
    ensures env.createMutex.None? ==> effects == []
    // A mutex obtained, and then another instance found or no mapping created: only the mutex.
    ensures env.createMutex.Some? && (env.alreadyExists || env.createMapping.None?) ==>
      effects == [ReleaseMutex(env.createMutex.value), CloseHandle(env.createMutex.value)]
    // The mapping created but not mapped: the mapping, then the mutex.
    ensures env.createMutex.Some? && !env.alreadyExists && env.createMapping.Some? && env.view == null ==>
      effects == [CloseHandle(env.createMapping.value),
                  ReleaseMutex(env.createMutex.value), CloseHandle(env.createMutex.value)]
    // Started: the header is withdrawn before the view is unmapped.
    ensures StartupSucceeds(env) ==>
      effects == [ClearHeader, UnmapView, CloseHandle(env.createMapping.value),
                  ReleaseMutex(env.createMutex.value), CloseHandle(env.createMutex.value)]
  {
    var ok := app.InitApp(env);
    uiStarted := ok;
    if ok && uiInitOk {
      result := uiExitCode;
    } else {
      result := 1;
    }
    effects := app.UninitApp();
  }
}
