# DevSpy hook channel — a Dafny model

DevSpy is a Windows tool that watches window messages in other processes. The
DevSpy application (`DevSpy32.exe` / `DevSpy64.exe`) creates a named mutex and
a named, shared memory region (`app_data_t`). A hook DLL is injected by the
system into every process that the application's system-wide hooks reach. On
attach, the DLL decides whether to stay loaded:

- When the application mutex does not exist, it stays loaded and does nothing.
- When the region is there, it stays loaded only if the process that owns the
  region is the DevSpy executable of the same word size.

The DLL's two hook callbacks write a debug line only while the application's
`active` flag is set. They always pass the message on to the next hook.

The project models this core:

- `win32.dfy` (`Win32`): the Win32 values the code handles: nullable handles,
  `DWORD`, windows. It also defines the trace of releasing calls (`Effect`)
  that the lifecycle methods return.
- `api.dfy` (`Api`), from devspy_hook/api.h:
  - the names of the shared objects, built from the word size;
  - the C layout of `log_entry_t`, `log_data_t` and `app_data_t`, computed
    member by member with natural and 64-byte alignment;
  - the shared region itself, as the class `AppData`.
- `admission.dfy` (`Admission`), from devspy_hook/dllmain.c:36-52: the
  admission test. The path test is proved equal to a second definition: "the
  path has a directory part and its file name is `DevSpy<bits>.exe`, ignoring
  case".
- `hook_state.dfy` (`HookState`): the two hook handles as a value. It holds
  the specification of `start_hook`/`stop_hook`, which both DLL versions
  share, with idempotence lemmas.
- `hook_dll.dfy` (`HookDll`): devspy_hook/dllmain.c as a class whose fields
  are the module's statics.
- `legacy_hook_dll.dfy` (`LegacyHookDll`): devspy_hook/main.c, the older DLL.
  It does no admission check, its callbacks have no `active` gate, and its
  `init_dll` has no `return` on the success path.
- `app.dfy` (`DevSpyApp`), from devspy/main.c:
  - `init_app`: the single-instance check and the zeroed header stamped with
    the owner's process id;
  - `uninit_app`: stop the hooks, clear `active` and `app_process_id`, then
    release everything;
  - the exit code of `wWinMain`.

Every Win32 call is replaced by the value it returns, passed in as a
parameter. For example, `AttachEnvironment` holds what `OpenMutex`,
`OpenFileMapping`, `MapViewOfFile`, `OpenProcess` and `GetModuleFileNameEx`
return. `CallNextHookEx` is a function parameter (`NextHook`), and
`SetWindowsHookEx` results are parameters of `StartHook`. Calls that release
something (`UnhookWindowsHookEx`, `UnmapViewOfFile`, `ReleaseMutex`,
`CloseHandle`) are recorded, in order, in the returned effect list, and so
is the application clearing its header before it unmaps it (`ClearHeader`).

The shared region has room for an event ring that the code does not yet use:

- devspy_hook/api.h:50-54 declares `write_index`, `read_index`, `entries`
  and `data`, but no function reads or writes them; only `ZeroMemory` at
  devspy/main.c:32 touches them.
- The callbacks only call `OutputDebugString`.
- The `start_hook()` call in `init_app` (devspy/main.c:35) is commented out.

The model follows the code. For example, `DevSpyApp.App.InitApp` states that
the hooks are left as they were.

## Model

| member | source | states |
|---|---|---|
| `Api.ProcessBitsSz` | devspy_hook/api.h:9-13 | `PROCESS_BITS_SZ` is two decimal digits spelling the pointer width in bits: `"64"` under `_WIN64`, `"32"` otherwise |
| `Api.AppExeName` | devspy_hook/api.h:15 | `APP_EXE_NAME` is 12 characters: `"DevSpy"`, then the bits, then `".exe"` |
| `Api.ObjectName` | devspy_hook/api.h:16-20 | each shared object's name is its base name followed by exactly `UNIQUE_NAME_SUFFIX` = `"_" + bits + "_PS"` |
| `Api.ObjectNamesUnique` | devspy_hook/api.h:16-20 | two different (object, word size) pairs never have the same name: the four objects are pairwise distinct, and the 32-bit and 64-bit names of one object differ |
| `Api.AppExeNameUnique` | devspy_hook/api.h:9-15 | the 32-bit and 64-bit executable names differ |
| `Api.LogEntryLayout` | devspy_hook/api.h:21-37 | the members of `log_entry_t` end at 36 bytes (32-bit) or 48 bytes (64-bit); `sizeof` is 64; `LOG_ENTRY_COUNT` slots take 1 MiB |
| `Api.LogDataLayout` | devspy_hook/api.h:39-44 | `log_data_t` is 4 + 4 + 248 = 256 bytes; `DATA_ENTRY_COUNT` (line 22) slots take 1 MiB |
| `Api.HeaderLayout` | devspy_hook/api.h:46-52 | the four `uint32_t` header fields and the 48 padding bytes end at offset 64 |
| `Api.AppDataLayout` | devspy_hook/api.h:46-55 | in both builds, `entries` starts at offset 64 and `data` at 64 + 16384 × 64; `sizeof(app_data_t)` is 64 bytes + 2 MiB |
| `Api.AppData.Zero` | devspy/main.c:32 | `ZeroMemory` leaves every header field, padding byte, event slot and overflow slot zero |
| `Admission.LowerAscii` | devspy_hook/dllmain.c:46 | the per-character folding of `_wcsnicmp`: upper-case ASCII letters map to lower case, every other character to itself |
| `Admission.FoldCase` | devspy_hook/dllmain.c:46 | folding keeps the length and folds each character in place |
| `Admission.ExpectedImageTail` | devspy_hook/dllmain.c:44-45 | the expected tail is 13 characters: a backslash, then `APP_EXE_NAME` |
| `Admission.IsExpectedImage` | devspy_hook/dllmain.c:44-46 | the length-and-`_wcsnicmp` test accepts exactly when some suffix of the path equals `"\DevSpy<bits>.exe"` ignoring case; a path it accepts has at least 13 characters |
| `Admission.ValidProcess` | devspy_hook/dllmain.c:36-52 | the verdict is true exactly when `app_process_id` is non-zero, the process opens and its path passes the tail test; a zero pid, a process that does not open, or an empty path each make it false |
| `Admission.FileName` | devspy_hook/dllmain.c:44-46 | the longest suffix of the path that contains no backslash; it is preceded by a backslash unless it is the whole path |
| `Admission.ExpectedImageHasFileName` | devspy_hook/dllmain.c:44-46 | a path the tail test accepts contains a backslash, and its file name equals the executable name ignoring case |
| `Admission.FileNameMakesExpectedImage` | devspy_hook/dllmain.c:44-46 | a path with a backslash whose file name equals the executable name ignoring case passes the tail test |
| `Admission.ExpectedImageIsFileName` | devspy_hook/dllmain.c:44-46 | both directions together: the tail test is "has a directory part and its file name is `DevSpy<bits>.exe`, ignoring case" |
| `Admission.ExpectedImageSplit` | devspy_hook/dllmain.c:44-46 | a path the tail test accepts has a backslash 13 characters from its end, followed by the executable name ignoring case with no further backslash |
| `Admission.AcceptsAnyDirectory` | devspy_hook/dllmain.c:44-46 | any directory, a backslash, then the executable name in any letter case (such as `C:\x\devspy64.EXE`) is accepted |
| `Admission.RefusesLongerName` | devspy_hook/dllmain.c:44-46 | whatever the last 12 characters are, a path whose 13th character from the end is not a backslash is refused, so `MyDevSpy64.exe` in any directory is |
| `Admission.RefusesBareName` | devspy_hook/dllmain.c:44-46 | the bare executable name `DevSpy<bits>.exe`, without a directory, is refused |
| `Admission.RefusesOtherBuild` | devspy_hook/dllmain.c:44-46 | a build refuses the other build's executable in any directory |
| `HookState.Unhooked` | devspy_hook/dllmain.c:140-153 | `stop_hook` unhooks exactly the installed handles, each once: as many calls as non-null handles, and nothing else |
| `HookState.StartKeepsInstalled` | devspy_hook/dllmain.c:127-138 | `start_hook` never replaces a non-null handle |
| `HookState.StartRetriesFailed` | devspy_hook/dllmain.c:127-138 | a handle stays null only if it was null and installing it failed, so the next call retries |
| `HookState.StartIdempotent` | devspy_hook/dllmain.c:127-138 | once both hooks are installed, another `start_hook` changes nothing |
| `HookState.StopIdempotent` | devspy_hook/dllmain.c:140-153 | with nothing installed, `stop_hook` unhooks nothing |
| `HookDll.Dll.constructor` | devspy_hook/dllmain.c:4-9 | all six statics start null |
| `HookDll.Dll.InitDll` | devspy_hook/dllmain.c:11-53 | no app mutex: returns true and nothing is mapped. Mutex, but no mapping or no view: returns false. Mapped view: returns the admission verdict on the header's `app_process_id`. In every case the statics hold what was opened, and the process handle is closed whenever it was opened |
| `HookDll.Dll.UninitDll` | devspy_hook/dllmain.c:55-76 | all four statics end null; only the non-null ones are released, in order: view, file, mutex |
| `HookDll.Dll.CallWndProcHook` | devspy_hook/dllmain.c:93-108 | logs a `SEND` line exactly when `code >= 0`, `app_data` is non-null and `active != 0`; always returns `CallNextHookEx` with its own handle and unchanged arguments |
| `HookDll.Dll.GetMessageHook` | devspy_hook/dllmain.c:110-125 | the same for a `POST` line and the get-message handle |
| `HookDll.Dll.StartHook` | devspy_hook/dllmain.c:127-138 | the new handles are `HookState.Start` of the old ones: only null handles are installed |
| `HookDll.Dll.StopHook` | devspy_hook/dllmain.c:140-153 | both handles end null; the unhooked handles are `HookState.Unhooked` of the old ones, get-message first |
| `HookDll.AttachWithoutApplication` | devspy_hook/dllmain.c:16-21 | without an app mutex, attaching succeeds and a later callback forwards without logging |
| `LegacyHookDll.Dll.constructor` | devspy_hook/main.c:4-9 | all six statics start null |
| `LegacyHookDll.Dll.InitDll` | devspy_hook/main.c:11-34 | returns `TRUE` without an app mutex and `FALSE` when the region cannot be opened or mapped; once mapped it reaches the end with no return value |
| `LegacyHookDll.Dll.UninitDll` | devspy_hook/main.c:36-57 | all four statics end null; only the non-null ones are released, in order: view, file, mutex |
| `LegacyHookDll.Dll.CallWndProcHook` | devspy_hook/main.c:74-89 | logs exactly when `code >= 0`, with no `active` or `app_data` gate; always returns `CallNextHookEx` with unchanged arguments |
| `LegacyHookDll.Dll.GetMessageHook` | devspy_hook/main.c:91-106 | the same for the get-message hook |
| `LegacyHookDll.Dll.StartHook` | devspy_hook/main.c:108-119 | the new handles are `HookState.Start` of the old ones |
| `LegacyHookDll.Dll.StopHook` | devspy_hook/main.c:121-134 | both handles end null; exactly the installed handles are unhooked |
| `DevSpyApp.App.constructor` | devspy/main.c:8-10 | the three statics start null |
| `DevSpyApp.App.InitApp` | devspy/main.c:12-38 | succeeds exactly when the mutex is created new and the region is created and mapped. After success the region is zero except `app_process_id`, which is the current pid. A second instance creates nothing more. The view is kept only when every step succeeded, and a failed start-up leaves the region, arrays included, untouched. The hooks are untouched |
| `DevSpyApp.App.UninitApp` | devspy/main.c:40-64 | hooks are stopped first. A mapped header gets `active` and `app_process_id` set to 0, and the cursors are unchanged. All three statics end null. The effect list orders every step: unhook, clear the header, unmap, close file, release then close mutex |
| `DevSpyApp.UnhookAll` | devspy/main.c:42 | one `UnhookWindowsHookEx` call per handle `stop_hook` removes, in the same order |
| `DevSpyApp.WinMain` | devspy/main.c:66-71 | `init_ui` runs only after a successful `init_app`. The result is `run_ui`'s when both succeed, and 1 otherwise. Teardown always runs; for each of the five start-up outcomes the effect list is exactly what start-up obtained, released in order |

## Left out

- The event ring writer and reader: cursor arithmetic, loss and torn-read detection, cross-process atomic increments. `write_index`, `read_index`, `entries` and `data` exist only as fields; no code reads or writes them, except `ZeroMemory`.
- `DATA_MUTEX_NAME` and `DATA_EVENT_NAME` are declared but unused. Only their names are modelled.
- `DllMain` (devspy_hook/dllmain.c:78-91, devspy_hook/main.c:59-72) is only a dispatch to `InitDll` and `UninitDll`. Thread notifications are switched off by `DisableThreadLibraryCalls`, which is not modelled.
- Win32 internals: every call appears only as the value it returns. The access rights passed to `OpenMutex`, `OpenProcess` and `MapViewOfFile` are not modelled.
- `Admission.LowerAscii`: folds ASCII letters only, while `_wcsnicmp` folds through the C locale.
- `Admission.ValidProcess`: `GetModuleFileNameEx` truncates paths at `MAX_PATH * 2` characters; the model treats the path it returns as complete.
- The window a `SEND` line reports: `call_wnd_proc_hook` (devspy_hook/dllmain.c:97, devspy_hook/main.c:78) reads `lp` as a `CWPRETSTRUCT`, but a `WH_CALLWNDPROC` hook receives a `CWPSTRUCT`, so `p->hwnd` is read one field past the end of that structure (offset 16 in a 32-bit build, 32 in a 64-bit build). The model takes the reported window as a parameter (`target`) and does not claim it is the message's target.
- The text of the debug line (`_snwprintf_s`, `OutputDebugString`) is modelled as a `LogLine` value.
- `LegacyHookDll.Dll.InitDll`: on the success path the function ends without a `return`. The model states that no value is returned, and says nothing about the `BOOL` the loader then sees.
- `hwnd`, `WPARAM` and `LPARAM` are unbounded naturals. Their 32-bit or 64-bit width matters only for the layout, which `Api` models.
- Concurrency: memory visibility of `active` between processes, and reuse of a process id after the application exits.
- devspy/ui.c (window class, layout, DPI, message loop) is not part of this model. `init_ui` and `run_ui` enter `WinMain` as their results.
