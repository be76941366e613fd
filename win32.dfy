/**
 * Abstractions of the Win32 values that the hook DLL and the application
 * pass around. No Win32 call is modelled: whatever a call returns is handed
 * to the model as a value, and whatever a call releases is reported in a
 * trace of effects so that callers can state what was released and in
 * which order.
 */
module Win32 {

  /** A nullable value: `None` is the C `NULL`. */
  datatype Option<+T> = None | Some(value: T)

  /** `DWORD` / `uint32_t`. */
  newtype u32 = x: int | 0 <= x < 0x1_0000_0000

  /** `uint8_t`. */
  newtype u8 = x: int | 0 <= x < 0x100

  /** A kernel object or module handle (`HANDLE`, `HINSTANCE`). */
  datatype Handle = Handle(id: nat)

  /** A hook handle as returned by `SetWindowsHookEx` (`HHOOK`). */
  datatype HookHandle = HookHandle(id: nat)

  /** A window and the owning process and thread that `GetWindowThreadProcessId` reports. */
  datatype Window = Window(hwnd: nat, processId: u32, threadId: u32)

  /** The releasing steps the model records, in the order they are made. */
  datatype Effect =
    | Unhook(hook: HookHandle)        // UnhookWindowsHookEx
    | ClearHeader                     // active and app_process_id of the mapped header set to 0
    | UnmapView                       // UnmapViewOfFile on the mapped header
    | CloseHandle(handle: Handle)     // CloseHandle
    | ReleaseMutex(mutex: Handle)     // ReleaseMutex

  /** The effect list for closing a handle only when it is non-null. */
  function CloseIfSet(h: Option<Handle>): (r: seq<Effect>)
    ensures h.None? <==> r == []
    ensures h.Some? ==> r == [CloseHandle(h.value)]
  {
    match h
    case None => []
    case Some(x) => [CloseHandle(x)]
  }
}
