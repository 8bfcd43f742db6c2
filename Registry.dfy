/**
 * An abstract stand-in for the HKEY_LOCAL_MACHINE hive as the tweak engine uses it.
 * The hive maps (key path, value name) to a typed value. Store failures are an
 * explicit, fixed oracle: the paths whose read-only open throws, the paths whose
 * create-for-write throws or yields no key, and what a DWord write does with an
 * integer outside the signed 32-bit range.
 */
module Registry {
  import opened Wrappers
  import opened DecimalText

  /** The keys below HKEY_LOCAL_MACHINE that the engine opens. */
  datatype Path =
    | PoliciesDataCollection
    | CurrentVersionDataCollection
    | SiufRules
    | GameDvr
    | GameBar
    | GraphicsDrivers
    | TcpipParameters
    | TcpipInterfaces
    | MultimediaSystemProfile
    | WSearchService
    | WindowsUpdateService
    | SysMainService
    | ExplorerVisualEffects
    | ThemesPersonalize
    | ExplorerAdvanced

  /** The key's path below HKEY_LOCAL_MACHINE, as the engine spells it. */
  function PathText(p: Path): string {
    match p
    case PoliciesDataCollection => @"SOFTWARE\Policies\Microsoft\Windows\DataCollection"
    case CurrentVersionDataCollection => @"SOFTWARE\Microsoft\Windows\CurrentVersion\Policies\DataCollection"
    case SiufRules => @"SOFTWARE\Microsoft\Siuf\Rules"
    case GameDvr => @"SOFTWARE\Microsoft\Windows\CurrentVersion\GameDVR"
    case GameBar => @"SOFTWARE\Microsoft\GameBar"
    case GraphicsDrivers => @"SYSTEM\CurrentControlSet\Control\GraphicsDrivers"
    case TcpipParameters => @"SYSTEM\CurrentControlSet\Services\Tcpip\Parameters"
    case TcpipInterfaces => @"SYSTEM\CurrentControlSet\Services\Tcpip\Parameters\Interfaces"
    case MultimediaSystemProfile => @"SOFTWARE\Microsoft\Windows NT\CurrentVersion\Multimedia\SystemProfile"
    case WSearchService => @"SYSTEM\CurrentControlSet\Services\WSearch"
    case WindowsUpdateService => @"SYSTEM\CurrentControlSet\Services\wuauserv"
    case SysMainService => @"SYSTEM\CurrentControlSet\Services\SysMain"
    case ExplorerVisualEffects => @"SOFTWARE\Microsoft\Windows\CurrentVersion\Explorer\VisualEffects"
    case ThemesPersonalize => @"SOFTWARE\Microsoft\Windows\CurrentVersion\Themes\Personalize"
    case ExplorerAdvanced => @"SOFTWARE\Microsoft\Windows\CurrentVersion\Explorer\Advanced"
  }

  /** A value's identity: the key path below HKLM and the value name. */
  datatype Setting = Setting(path: Path, name: string)

  /** What a value read back from the hive holds (REG_DWORD reads back as a signed Int32). */
  datatype RegValue = DWord(n: int) | Sz(s: string)

  /** The value's ToString(). */
  function StringForm(v: RegValue): string {
    match v
    case DWord(n) => IntToString(n)
    case Sz(s) => s
  }

  /** `value?.ToString()`: null stays null. */
  function FormOf(v: Option<RegValue>): (r: Option<string>)
    ensures r.None? <==> v.None?
  {
    match v
    case None => None
    case Some(x) => Some(StringForm(x))
  }

  /** The exceptions the registry API can throw at the engine. */
  datatype StoreError =
    | ReadDenied(path: Path)      // OpenSubKey: security exception
    | WriteDenied(path: Path)     // CreateSubKey: unauthorized access
    | KindMismatch(setting: Setting)  // SetValue: value not convertible to the kind

  /** The failure oracle of one hive. */
  datatype Faults = Faults(
    readDenied: set<Path>,
    writeDenied: set<Path>,
    noKey: set<Path>,
    dwordWraps: bool)

  const TWO_TO_32: int := 0x1_0000_0000

  predicate IsInt32(n: int) {
    -0x8000_0000 <= n <= 0x7fff_ffff
  }

  /** Two's-complement truncation of n to a signed 32-bit integer. */
  function Wrap32(n: int): (r: int)
    ensures IsInt32(r)
    ensures (n - r) % TWO_TO_32 == 0
    ensures IsInt32(n) ==> r == n
  {
    var m := n % TWO_TO_32;
    if m < 0x8000_0000 then m else m - TWO_TO_32
  }

  /** The value as `key?.GetValue(name)` sees it. */
  function Lookup(values: map<Setting, RegValue>, s: Setting): Option<RegValue> {
    if s in values then Some(values[s]) else None
  }

  /** `OpenSubKey(path)?.GetValue(name)`: a missing key or value reads as null. */
  function ReadOutcome(f: Faults, values: map<Setting, RegValue>, s: Setting): (r: Result<Option<RegValue>, StoreError>)
    ensures r.Failure? <==> s.path in f.readDenied
  {
    if s.path in f.readDenied then Failure(ReadDenied(s.path)) else Success(Lookup(values, s))
  }

  datatype KeyOutcome = Opened | NullKey | CreateFailed(error: StoreError)

  /** `CreateSubKey(path)`: throws, returns null, or opens the key for writing. */
  function CreateOutcome(f: Faults, path: Path): KeyOutcome {
    if path in f.writeDenied then CreateFailed(WriteDenied(path))
    else if path in f.noKey then NullKey
    else Opened
  }

  /**
   * What `SetValue(name, n, RegistryValueKind.DWord)` stores. An Int32 is stored
   * as it is; any other integer either makes SetValue throw or is truncated.
   */
  function DWordData(f: Faults, s: Setting, n: int): (r: Result<RegValue, StoreError>)
    ensures r.Success? <==> IsInt32(n) || f.dwordWraps
    ensures r.Success? ==> r.value == DWord(Wrap32(n))
  {
    if IsInt32(n) then Success(DWord(n))
    else if f.dwordWraps then Success(DWord(Wrap32(n)))
    else Failure(KindMismatch(s))
  }

  class Hive {
    const faults: Faults
    var values: map<Setting, RegValue>

    constructor (faults: Faults, values: map<Setting, RegValue>)
      ensures this.faults == faults && this.values == values
    {
      this.faults := faults;
      this.values := values;
    }

    /** OpenSubKey(path) followed by GetValue(name) on the read-only key. */
    method ReadOnlyGetValue(s: Setting) returns (r: Result<Option<RegValue>, StoreError>)
      ensures r == ReadOutcome(faults, values, s)
    {
      r := ReadOutcome(faults, values, s);
    }

    /** CreateSubKey(path); key nodes carry no values, so the map does not change. */
    method CreateSubKey(path: Path) returns (k: KeyOutcome)
      ensures k == CreateOutcome(faults, path)
    {
      k := CreateOutcome(faults, path);
    }

    /** SetValue(name, n, DWord) on a key that CreateSubKey opened. */
    method SetValue(s: Setting, n: int) returns (error: Option<StoreError>)
      requires CreateOutcome(faults, s.path) == Opened
      modifies this
      ensures match DWordData(faults, s, n)
        case Success(data) => error == None && values == old(values)[s := data]
        case Failure(e) => error == Some(e) && values == old(values)
    {
      var data := DWordData(faults, s, n);
      if data.Success? {
        values := values[s := data.value];
        error := None;
      } else {
        error := Some(data.error);
      }
    }

    /** GetValue(name) on the key opened for writing. */
    method GetValue(s: Setting) returns (v: Option<RegValue>)
      ensures v == Lookup(values, s)
    {
      v := Lookup(values, s);
    }
  }
}
