/**
 * What both versions of the hook DLL share (devspy_hook/dllmain.c and its
 * older twin devspy_hook/main.c): the pair of system-wide hook handles that
 * `start_hook` installs and `stop_hook` removes, the debug line a hook
 * callback emits, and the next hook in the system chain.
 */
module HookState {
  import opened Win32

  /** The statics `call_wnd_proc_hook_handle` and `get_message_hook_handle`. */
  datatype Hooks = Hooks(callWndProc: Option<HookHandle>, getMessage: Option<HookHandle>)

  /** Both handles null: the state at load time and after `stop_hook`. */
  const Uninstalled: Hooks := Hooks(None, None)

  /**
   * `start_hook`: each handle that is null receives what `SetWindowsHookEx`
   * returned for it (`cwp` for `WH_CALLWNDPROC`, `gm` for `WH_GETMESSAGE`,
   * `None` when installing failed); a handle that is set is left alone.
   */
  function Start(h: Hooks, cwp: Option<HookHandle>, gm: Option<HookHandle>): Hooks
  {
    Hooks(if h.callWndProc.None? then cwp else h.callWndProc,
          if h.getMessage.None? then gm else h.getMessage)
  }

  function Listed(h: Option<HookHandle>): seq<HookHandle>
  {
    if h.Some? then [h.value] else []
  }

  /**
   * The handles `stop_hook` passes to `UnhookWindowsHookEx`, in call order:
   * the get-message hook first, then the call-window-procedure hook.
   */
  function Unhooked(h: Hooks): (r: seq<HookHandle>)
    ensures |r| == |Listed(h.callWndProc)| + |Listed(h.getMessage)|
    ensures forall x :: x in r <==> Some(x) == h.getMessage || Some(x) == h.callWndProc
  {
    Listed(h.getMessage) + Listed(h.callWndProc)
  }

  /** `start_hook` never replaces an installed hook. */
  lemma StartKeepsInstalled(h: Hooks, cwp: Option<HookHandle>, gm: Option<HookHandle>)
    ensures h.callWndProc.Some? ==> Start(h, cwp, gm).callWndProc == h.callWndProc
    ensures h.getMessage.Some? ==> Start(h, cwp, gm).getMessage == h.getMessage
  {
  }

  /**
   * A handle stays null after `start_hook` only when it was null and
   * installing failed, so the next `start_hook` tries again.
   */
  lemma StartRetriesFailed(h: Hooks, cwp: Option<HookHandle>, gm: Option<HookHandle>)
    ensures Start(h, cwp, gm).callWndProc.None? <==> h.callWndProc.None? && cwp.None?
    ensures Start(h, cwp, gm).getMessage.None? <==> h.getMessage.None? && gm.None?
  {
  }

  /** Once both hooks are installed, a further `start_hook` changes nothing. */
  lemma StartIdempotent(h: Hooks, cwp: Option<HookHandle>, gm: Option<HookHandle>,
                        cwp': Option<HookHandle>, gm': Option<HookHandle>)
    requires Start(h, cwp, gm).callWndProc.Some? && Start(h, cwp, gm).getMessage.Some?
    ensures Start(Start(h, cwp, gm), cwp', gm') == Start(h, cwp, gm)
  {
  }

  /** `stop_hook` with nothing installed unhooks nothing, so a second `stop_hook` is a no-op. */
  lemma StopIdempotent()
    ensures Unhooked(Uninstalled) == []
  {
  }

  /** Which callback produced a debug line: `"SEND"` or `"POST"`. */
  datatype HookKind = Send | Post

  /**
   * The line a callback passes to `OutputDebugString`: its kind, then the
   * process id, thread id and window of the message, as
   * `GetWindowThreadProcessId` reports them.
   */
  datatype LogLine = LogLine(kind: HookKind, processId: u32, threadId: u32, hwnd: nat)

  /** `CallNextHookEx(hook, code, wp, lp)`: the result of the rest of the system's hook chain. */
  type NextHook = (Option<HookHandle>, int, nat, nat) -> int

  /** The line a callback of kind `kind` logs for the message addressed to `w`. */
  function LineFor(kind: HookKind, w: Window): LogLine
  {
    LogLine(kind, w.processId, w.threadId, w.hwnd)
  }
}
