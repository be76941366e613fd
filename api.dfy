/**
 * The contract shared by the application and the hook DLL (devspy_hook/api.h):
 * the names of the shared kernel objects, built from the process word size,
 * and the layout of the shared region `app_data_t`.
 */
module Api {
  import opened Win32

  /** The build's word size: `_WIN64` defined (`Bits64`) or not (`Bits32`). */
  datatype Bits = Bits32 | Bits64

  // ---------------------------------------------------------------------------
  // Names
  // ---------------------------------------------------------------------------

  /** `PROCESS_BITS_SZ`: the build's pointer width in bits, as two decimal digits. */
  function ProcessBitsSz(b: Bits): (r: string)
    ensures |r| == 2 && '0' <= r[0] <= '9' && '0' <= r[1] <= '9'
    ensures (r[0] as int - '0' as int) * 10 + (r[1] as int - '0' as int) == 8 * PointerSize(b)
  {
    if b.Bits64? then "64" else "32"
  }

  /** `APP_EXE_NAME`: the file name of the application executable. */
  function AppExeName(b: Bits): (r: string)
    ensures |r| == 12
    ensures r[..6] == "DevSpy" && r[6..8] == ProcessBitsSz(b) && r[8..] == ".exe"
  {
    "DevSpy" + ProcessBitsSz(b) + ".exe"
  }

  /** `UNIQUE_NAME_SUFFIX`: appended to every shared object name. */
  function UniqueNameSuffix(b: Bits): string
  {
    "_" + ProcessBitsSz(b) + "_PS"
  }

  /** The four named kernel objects of api.h. */
  datatype SharedObject = AppMutex | DataFile | DataMutex | DataEvent

  /** The part of each object's name that precedes `UNIQUE_NAME_SUFFIX`. */
  function BaseName(o: SharedObject): string
  {
    match o
    case AppMutex => "DevSpyMutex"
    case DataFile => "DevSpyDataFile"
    case DataMutex => "DevSpyDataMutex"
    case DataEvent => "DevSpyDataEvent"
  }

  /**
   * `APP_MUTEX_NAME`, `DATA_FILE_NAME`, `DATA_MUTEX_NAME`, `DATA_EVENT_NAME`:
   * the base name followed by `"_" + bits + "_PS"`.
   */
  function ObjectName(o: SharedObject, b: Bits): (r: string)
    ensures |r| == |BaseName(o)| + 6
    ensures r[..|BaseName(o)|] == BaseName(o)
    ensures r[|BaseName(o)|..] == UniqueNameSuffix(b)
  {
    BaseName(o) + UniqueNameSuffix(b)
  }

  /** Two concatenations differ when their left parts differ at an index both have. */
  lemma DifferAt(s: string, t: string, u: string, v: string, i: nat)
    requires i < |s| && i < |u| && s[i] != u[i]
    ensures s + t != u + v
  {
    assert (s + t)[i] == s[i];
    assert (u + v)[i] == u[i];
  }

  /**
   * No two shared objects have the same name, whichever build created them:
   * different objects never clash, and a 32-bit and a 64-bit build never
   * open each other's object.
   */
  lemma {:induction false} ObjectNamesUnique(o1: SharedObject, b1: Bits, o2: SharedObject, b2: Bits)
    requires (o1, b1) != (o2, b2)
    ensures ObjectName(o1, b1) != ObjectName(o2, b2)
  {
    var s1, s2 := UniqueNameSuffix(b1), UniqueNameSuffix(b2);
    if o1 == o2 {
      // Same base: the first digit of the word size tells them apart.
      var n := |BaseName(o1)|;
      assert s1[1] != s2[1];
      assert ObjectName(o1, b1)[n + 1] == s1[1];
      assert ObjectName(o2, b2)[n + 1] == s2[1];
    } else if o1 == AppMutex || o2 == AppMutex {
      // "DevSpyMutex" against "DevSpyData...": they differ at index 6.
      DifferAt(BaseName(o1), s1, BaseName(o2), s2, 6);
    } else {
      // "DevSpyDataFile", "DevSpyDataMutex", "DevSpyDataEvent": they differ at index 10.
      DifferAt(BaseName(o1), s1, BaseName(o2), s2, 10);
    }
  }

  /** The executable name differs between the two builds. */
  lemma {:induction false} AppExeNameUnique(b1: Bits, b2: Bits)
    requires b1 != b2
    ensures AppExeName(b1) != AppExeName(b2)
  {
    assert AppExeName(b1)[6] != AppExeName(b2)[6];
  }

  // ---------------------------------------------------------------------------
  // Layout
  // ---------------------------------------------------------------------------

  /** `LOG_ENTRY_COUNT`: slots of the event ring. */
  const LOG_ENTRY_COUNT: nat := 16384
  /** `DATA_ENTRY_COUNT`: slots of the overflow ring. */
  const DATA_ENTRY_COUNT: nat := 4096
  /** `LOG_ALIGN`: every shared struct is declared `__declspec(align(64))`. */
  const LOG_ALIGN: nat := 64
  /** One mebibyte. */
  const MIB: nat := 0x10_0000

  /** The kinds of members the structs of api.h are made of. */
  datatype Field =
    | U32                                        // uint32_t
    | PointerSized                               // HWND, WPARAM, LPARAM
    | Bytes(count: nat)                          // uint8_t[count]
    | Slots(count: nat, size: nat, align: nat)   // an array of an aligned struct

  function PointerSize(b: Bits): (r: nat)
    ensures r == 4 || r == 8
  {
    if b.Bits64? then 8 else 4
  }

  function FieldSize(f: Field, b: Bits): nat
  {
    match f
    case U32 => 4
    case PointerSized => PointerSize(b)
    case Bytes(n) => n
    case Slots(n, size, _) => n * size
  }

  function FieldAlign(f: Field, b: Bits): nat
  {
    match f
    case U32 => 4
    case PointerSized => PointerSize(b)
    case Bytes(_) => 1
    case Slots(_, _, a) => if a == 0 then 1 else a
  }

  /** The least multiple of `a` that is at least `n`. */
  function AlignUp(n: nat, a: nat): (r: nat)
    requires a > 0
    ensures n <= r < n + a
    ensures n % a == 0 ==> r == n
  {
    if n % a == 0 then n else n + (a - n % a)
  }

  /** Anything from 1 to `a` bytes long rounds up to exactly `a`. */
  lemma AlignUpWithin(n: nat, a: nat)
    requires 0 < n <= a
    ensures AlignUp(n, a) == a
  {
    if n < a {
      assert n % a == n;
    }
  }

  /**
   * Where the first `n` members of a struct whose members are `fs` end, each
   * member placed at the next offset that suits its natural alignment.
   */
  function MembersEnd(fs: seq<Field>, n: nat, b: Bits): (r: nat)
    requires n <= |fs|
  {
    if n == 0 then 0
    else AlignUp(MembersEnd(fs, n - 1, b), FieldAlign(fs[n - 1], b)) + FieldSize(fs[n - 1], b)
  }

  /** The offset of member `i` of a struct whose members are `fs`. */
  function FieldOffset(fs: seq<Field>, i: nat, b: Bits): nat
    requires i < |fs|
  {
    AlignUp(MembersEnd(fs, i, b), FieldAlign(fs[i], b))
  }

  /** `sizeof` of a `__declspec(align(64))` struct whose members are `fs`. */
  function AlignedSize(fs: seq<Field>, b: Bits): nat
  {
    AlignUp(MembersEnd(fs, |fs|, b), LOG_ALIGN)
  }

  /** The members of `log_entry_t`. */
  const LogEntryFields: seq<Field> := [U32, U32, U32, U32, U32, U32, PointerSized, PointerSized, PointerSized]

  /** The members of `log_data_t`. */
  const LogDataFields: seq<Field> := [U32, U32, Bytes(248)]

  /** The members of `app_data_t`: the 64-byte header, then the two rings. */
  function AppDataFields(b: Bits): seq<Field>
  {
    [U32, U32, U32, U32, Bytes(48),
     Slots(LOG_ENTRY_COUNT, AlignedSize(LogEntryFields, b), LOG_ALIGN),
     Slots(DATA_ENTRY_COUNT, AlignedSize(LogDataFields, b), LOG_ALIGN)]
  }

  /**
   * The members of `log_entry_t` take 36 bytes in a 32-bit build and 48 in a
   * 64-bit build; both fit one 64-byte slot, so the event ring is 1 MiB.
   */
  lemma {:induction false} LogEntryLayout(b: Bits)
    ensures MembersEnd(LogEntryFields, 9, b) == (if b.Bits64? then 48 else 36)
    ensures AlignedSize(LogEntryFields, b) == 64
    ensures LOG_ENTRY_COUNT * AlignedSize(LogEntryFields, b) == MIB
  {
    if b.Bits64? {
      LogEntryPointers64();
    } else {
      LogEntryPointers32();
    }
    assert |LogEntryFields| == 9;
    AlignUpWithin(MembersEnd(LogEntryFields, 9, b), LOG_ALIGN);
  }

  /** In a 64-bit build the three pointer-sized members take bytes 24 to 48. */
  lemma {:induction false} LogEntryPointers64()
    ensures MembersEnd(LogEntryFields, 9, Bits64) == 48
  {
    var fs := LogEntryFields;
    LogEntryCounters(Bits64);
    assert MembersEnd(fs, 7, Bits64) == 32;
    assert MembersEnd(fs, 8, Bits64) == 40;
  }

  /** In a 32-bit build the three pointer-sized members take bytes 24 to 36. */
  lemma {:induction false} LogEntryPointers32()
    ensures MembersEnd(LogEntryFields, 9, Bits32) == 36
  {
    var fs := LogEntryFields;
    LogEntryCounters(Bits32);
    assert MembersEnd(fs, 7, Bits32) == 28;
    assert MembersEnd(fs, 8, Bits32) == 32;
  }

  /** The six `uint32_t` members of `log_entry_t` take its first 24 bytes. */
  lemma {:induction false} LogEntryCounters(b: Bits)
    ensures MembersEnd(LogEntryFields, 6, b) == 24
  {
    var fs := LogEntryFields;
    assert MembersEnd(fs, 1, b) == 4;
    assert MembersEnd(fs, 2, b) == 8;
    assert MembersEnd(fs, 3, b) == 12;
    assert MembersEnd(fs, 4, b) == 16;
    assert MembersEnd(fs, 5, b) == 20;
  }

  /** A `log_data_t` is exactly 4 + 4 + 248 = 256 bytes, so the overflow ring is 1 MiB. */
  lemma {:induction false} LogDataLayout(b: Bits)
    ensures MembersEnd(LogDataFields, 3, b) == 256
    ensures AlignedSize(LogDataFields, b) == 256
    ensures DATA_ENTRY_COUNT * AlignedSize(LogDataFields, b) == MIB
  {
    var fs := LogDataFields;
    assert MembersEnd(fs, 1, b) == 4;
    assert MembersEnd(fs, 2, b) == 8;
    assert MembersEnd(fs, 3, b) == 256;
  }

  /** The four `uint32_t` fields and the 48 bytes of padding of the `app_data_t` header end at offset 64. */
  lemma {:induction false} HeaderLayout(fs: seq<Field>, b: Bits)
    requires |fs| >= 5 && fs[..5] == [U32, U32, U32, U32, Bytes(48)]
    ensures MembersEnd(fs, 5, b) == 64
  {
    assert fs[0] == U32 && fs[1] == U32 && fs[2] == U32 && fs[3] == U32 && fs[4] == Bytes(48);
    assert MembersEnd(fs, 1, b) == 4;
    assert MembersEnd(fs, 2, b) == 8;
    assert MembersEnd(fs, 3, b) == 12;
    assert MembersEnd(fs, 4, b) == 16;
  }

  /**
   * The header of `app_data_t` takes 4 * 4 + 48 = 64 bytes, the event ring
   * starts at offset 64 and the overflow ring right after it; the whole
   * region is 64 bytes plus 2 MiB and has the same size in both builds.
   */
  lemma {:induction false} AppDataLayout(b: Bits)
    ensures MembersEnd(AppDataFields(b), 5, b) == 64
    ensures FieldOffset(AppDataFields(b), 5, b) == 64
    ensures FieldOffset(AppDataFields(b), 6, b) == 64 + LOG_ENTRY_COUNT * 64
    ensures AlignedSize(AppDataFields(b), b) == 64 + 2 * MIB
  {
    var fs := AppDataFields(b);
    HeaderLayout(fs, b);
    assert AlignedSize(LogEntryFields, b) == 64 by { LogEntryLayout(b); }
    assert AlignedSize(LogDataFields, b) == 256 by { LogDataLayout(b); }
    assert fs[5] == Slots(LOG_ENTRY_COUNT, 64, 64);
    assert fs[6] == Slots(DATA_ENTRY_COUNT, 256, 64);
    assert MembersEnd(fs, 6, b) == 64 + MIB;
    assert MembersEnd(fs, 7, b) == 64 + 2 * MIB;
  }

  // ---------------------------------------------------------------------------
  // The shared region
  // ---------------------------------------------------------------------------

  /** `log_entry_t`: one slot of the event ring. */
  datatype LogEntry = LogEntry(
    index: u32, dataIndex: u32, dataCount: u32,
    processId: u32, threadId: u32, message: u32,
    hwnd: nat, wp: nat, lp: nat)

  /** `log_data_t`: one slot of the overflow ring. */
  datatype LogData = LogData(index: u32, padding: u32, data: seq<u8>)

  const ZeroEntry: LogEntry := LogEntry(0, 0, 0, 0, 0, 0, 0, 0, 0)
  const ZeroData: LogData := LogData(0, 0, seq(248, _ => 0))

  /**
   * `app_data_t`: the header fields and the two rings, as the process that
   * maps the region sees them. The application writes the header in place;
   * the hook DLL only reads it.
   */
  class AppData {
    var appProcessId: u32
    var active: u32
    var writeIndex: u32
    var readIndex: u32
    const padding: array<u8>
    const entries: array<LogEntry>
    const data: array<LogData>

    /** The arrays have the sizes api.h declares. */
    ghost predicate Valid()
      reads this
    {
      padding.Length == 48 && entries.Length == LOG_ENTRY_COUNT && data.Length == DATA_ENTRY_COUNT
    }

    /** Every byte of the region is zero. */
    ghost predicate AllZero()
      reads this, padding, entries, data
    {
      && appProcessId == 0 && active == 0 && writeIndex == 0 && readIndex == 0
      && (forall i :: 0 <= i < padding.Length ==> padding[i] == 0)
      && (forall i :: 0 <= i < entries.Length ==> entries[i] == ZeroEntry)
      && (forall i :: 0 <= i < data.Length ==> data[i] == ZeroData)
    }

    constructor ()
      ensures Valid() && fresh(padding) && fresh(entries) && fresh(data)
    {
      padding := new u8[48];
      entries := new LogEntry[LOG_ENTRY_COUNT](_ => ZeroEntry);
      data := new LogData[DATA_ENTRY_COUNT](_ => ZeroData);
    }

    /** `ZeroMemory(app_data, sizeof(app_data_t))`. */
    method Zero()
      modifies this, padding, entries, data
      ensures AllZero()
    {
      appProcessId, active, writeIndex, readIndex := 0, 0, 0, 0;
      forall i | 0 <= i < padding.Length { padding[i] := 0; }
      forall i | 0 <= i < entries.Length { entries[i] := ZeroEntry; }
      forall i | 0 <= i < data.Length { data[i] := ZeroData; }
    }
  }
}
