/**
 * The tweak catalog, the log and report vocabulary, and the value-level meaning
 * of every engine operation. The Engine class in ShutUp10Tweaks is proved to
 * behave as these functions say; TweakProperties proves what they promise.
 */
module TweakModel {
  import opened Wrappers
  import opened DecimalText
  import opened Registry

  datatype Category = Telemetry | Gaming | Network | Services | VisualEffects

  /** One call `SetRegistryValue(path, name, value, RegistryValueKind.DWord)`. */
  datatype Tweak = Tweak(setting: Setting, value: int)

  function DWordTweak(path: Path, name: string, value: int): Tweak {
    Tweak(Setting(path, name), value)
  }

  const NetworkThrottling: Tweak :=
    DWordTweak(MultimediaSystemProfile, "NetworkThrottlingIndex", 0xffff_ffff)

  /** The tweaks each category method applies, in source order. */
  function Catalog(c: Category): seq<Tweak> {
    match c
    case Telemetry => [
      DWordTweak(PoliciesDataCollection, "AllowTelemetry", 0),
      DWordTweak(CurrentVersionDataCollection, "AllowTelemetry", 0),
      DWordTweak(SiufRules, "NumberOfSIUFInPeriod", 0)]
    case Gaming => [
      DWordTweak(GameDvr, "AppCaptureEnabled", 0),
      DWordTweak(GameDvr, "GameDVR_Enabled", 0),
      DWordTweak(GameBar, "AllowAutoGameMode", 1),
      DWordTweak(GraphicsDrivers, "HwSchMode", 2)]
    case Network => [
      DWordTweak(TcpipParameters, "Tcp1323Opts", 3),
      DWordTweak(TcpipInterfaces, "TcpAckFrequency", 1),
      NetworkThrottling]
    case Services => [
      DWordTweak(WSearchService, "Start", 4),
      DWordTweak(WindowsUpdateService, "Start", 3),
      DWordTweak(SysMainService, "Start", 4)]
    case VisualEffects => [
      DWordTweak(ExplorerVisualEffects, "VisualFXSetting", 2),
      DWordTweak(ThemesPersonalize, "EnableTransparency", 0),
      DWordTweak(ExplorerAdvanced, "TaskbarAnimations", 0)]
  }

  /** The order in which RunCompleteOptimization runs the categories. */
  const RunOrder: seq<Category> := [Services, VisualEffects, Network, Gaming, Telemetry]

  // ---------------------------------------------------------------- the log

  datatype Action =
    | RegistryWrite(setting: Setting)   // "Registry: path\name"
    | CategoryStart(category: Category)  // "=== STARTING ... ==="
    | CategoryComplete(category: Category)  // "=== ... COMPLETE ==="
    | RunStart                           // "STARTING COMPLETE BYENSIT OPTIMIZATION"
    | RunFinished                        // "COMPLETE OPTIMIZATION FINISHED"

  datatype Details =
    | NoDetails
    | Changed(previous: Option<RegValue>, written: int, verified: bool)  // "Changed from '..' to '..' (Verified: ..)"
    | ExceptionMessage(error: StoreError)                                // "Exception: ..."
    | AppliedCount(successes: nat, total: nat)                           // "Applied s/t ... tweaks"
    | InspiredTweaks                                                     // "ShutUp10-inspired tweaks"
    | OverallResult(success: bool)                                       // "Overall result: ..."

  /** One line of the shared log: the status (SUCCESS or FAILED), the action and the details. */
  datatype LogEntry = LogEntry(success: bool, action: Action, details: Details)

  function EntriesOf(e: Option<LogEntry>): (r: seq<LogEntry>)
    ensures |r| <= 1
  {
    match e
    case None => []
    case Some(x) => [x]
  }

  function StartEntry(c: Category): LogEntry {
    LogEntry(true, CategoryStart(c), NoDetails)
  }

  function CompleteEntry(c: Category, successes: nat, total: nat): LogEntry {
    LogEntry(successes > 0, CategoryComplete(c), AppliedCount(successes, total))
  }

  const RunStartEntry: LogEntry := LogEntry(true, RunStart, InspiredTweaks)

  function FinishedEntry(success: bool): LogEntry {
    LogEntry(success, RunFinished, OverallResult(success))
  }

  // ------------------------------------------------------ one tweak applied

  /** What one SetRegistryValue call leaves behind: the hive, the entry it logged, its result. */
  datatype Attempt = Attempt(values: map<Setting, RegValue>, entry: Option<LogEntry>, verified: bool)

  /**
   * SetRegistryValue: a best-effort pre-read, CreateSubKey, SetValue, a read-back
   * through the same key, and a comparison of the two string forms. Exceptions
   * from CreateSubKey and SetValue are caught and logged as FAILED.
   */
  function Apply(f: Faults, values: map<Setting, RegValue>, t: Tweak): Attempt {
    var s := t.setting;
    var current := match ReadOutcome(f, values, s)
      case Success(v) => v
      case Failure(_) => None;
    match CreateOutcome(f, s.path)
    case CreateFailed(e) => Attempt(values, Some(LogEntry(false, RegistryWrite(s), ExceptionMessage(e))), false)
    case NullKey => Attempt(values, None, false)
    case Opened =>
      match DWordData(f, s, t.value)
      case Failure(e) => Attempt(values, Some(LogEntry(false, RegistryWrite(s), ExceptionMessage(e))), false)
      case Success(data) =>
        var written := values[s := data];
        var verified := FormOf(Lookup(written, s)) == Some(IntToString(t.value));
        Attempt(written, Some(LogEntry(verified, RegistryWrite(s), Changed(current, t.value, verified))), verified)
  }

  /**
   * Reference definition of a tweak that verifies: its key can be created and
   * opened, and its value is a DWord that the hive stores as it is.
   */
  predicate Succeeds(f: Faults, t: Tweak) {
    t.setting.path !in f.writeDenied && t.setting.path !in f.noKey && IsInt32(t.value)
  }

  /** Whether SetRegistryValue logs anything for t (it does not when the created key is null). */
  predicate Logged(f: Faults, t: Tweak) {
    t.setting.path in f.writeDenied || t.setting.path !in f.noKey
  }

  // --------------------------------------------------- a category's tweaks

  datatype Batch = Batch(values: map<Setting, RegValue>, entries: seq<LogEntry>, successes: nat)

  /** The tweaks of ts applied one after the other, counting the verified ones. */
  function RunTweaks(f: Faults, values: map<Setting, RegValue>, ts: seq<Tweak>): (b: Batch)
    ensures b.successes <= |ts|
    decreases |ts|
  {
    if ts == [] then Batch(values, [], 0)
    else
      var b := RunTweaks(f, values, ts[..|ts| - 1]);
      var a := Apply(f, b.values, ts[|ts| - 1]);
      Batch(a.values, b.entries + EntriesOf(a.entry), b.successes + if a.verified then 1 else 0)
  }

  /** What the category methods and the orchestrator act on: the hive's values and the shared log. */
  datatype EngineState = EngineState(values: map<Setting, RegValue>, log: seq<LogEntry>)

  datatype CategoryRun = CategoryRun(state: EngineState, success: bool)

  /**
   * One category method: only Services clears the shared log first; then a start
   * entry, one attempt per catalog entry, and a completion entry "Applied s/t".
   */
  function RunCategorySpec(f: Faults, st: EngineState, c: Category): CategoryRun {
    var kept := if c == Services then [] else st.log;
    var b := RunTweaks(f, st.values, Catalog(c));
    CategoryRun(EngineState(b.values, kept + [StartEntry(c)] + b.entries + [CompleteEntry(c, b.successes, |Catalog(c)|)]),
                b.successes > 0)
  }

  // ------------------------------------------------------- the full run

  datatype Hint = RunAsAdministrator | CheckWindowsBlocking | TryPowerShellAsAdministrator

  /** The lines of the report RunCompleteOptimization returns. */
  datatype ReportLine =
    | ReportTitle
    | CategoryStatus(category: Category, applied: bool)
    | OverallStatus(success: bool)
    | Troubleshooting
    | HintLine(hint: Hint)
    | Celebration
    | FasterPc
    | DetailedLogTitle
    | Rule
    | LogText(entries: seq<LogEntry>)   // the shared log's text, appended as one block

  const TroubleshootingBlock: seq<ReportLine> :=
    [Troubleshooting, HintLine(RunAsAdministrator), HintLine(CheckWindowsBlocking), HintLine(TryPowerShellAsAdministrator)]

  const CelebrationBlock: seq<ReportLine> := [Celebration, FasterPc]

  /** The five category flags, in the order the report lists them. */
  datatype Results = Results(services: bool, visual: bool, network: bool, gaming: bool, telemetry: bool) {
    predicate Overall() {
      services || visual || network || gaming || telemetry
    }
  }

  /** The report's lines: one status line per category, the overall line, one of the two blocks, the log. */
  function ReportFor(r: Results, snapshot: seq<LogEntry>): seq<ReportLine> {
    [ReportTitle,
     CategoryStatus(Services, r.services),
     CategoryStatus(VisualEffects, r.visual),
     CategoryStatus(Network, r.network),
     CategoryStatus(Gaming, r.gaming),
     CategoryStatus(Telemetry, r.telemetry),
     OverallStatus(r.Overall())]
    + (if r.Overall() then CelebrationBlock else TroubleshootingBlock)
    + [DetailedLogTitle, Rule, LogText(snapshot)]
  }

  /** ReportFor, written as the appends RunCompleteOptimization makes. */
  lemma ReportForAppends(r: Results, snapshot: seq<LogEntry>)
    ensures ReportFor(r, snapshot)
      == [ReportTitle]
         + [CategoryStatus(Services, r.services), CategoryStatus(VisualEffects, r.visual),
            CategoryStatus(Network, r.network), CategoryStatus(Gaming, r.gaming), CategoryStatus(Telemetry, r.telemetry)]
         + [OverallStatus(r.Overall())]
         + (if r.Overall() then CelebrationBlock else TroubleshootingBlock)
         + [DetailedLogTitle, Rule, LogText(snapshot)]
  {
  }

  datatype CompleteRun = CompleteRun(values: map<Setting, RegValue>, log: seq<LogEntry>, success: bool, report: seq<ReportLine>)

  /** The five categories of a full run: their results and the log they leave. */
  datatype Runs = Runs(services: CategoryRun, visual: CategoryRun, network: CategoryRun, gaming: CategoryRun, telemetry: CategoryRun)

  /** The five category runs of a full run, each on the state the previous one left, the first on the start entry alone. */
  function RunsOf(f: Faults, values: map<Setting, RegValue>): Runs {
    var services := RunCategorySpec(f, EngineState(values, [RunStartEntry]), Services);
    var visual := RunCategorySpec(f, services.state, VisualEffects);
    var network := RunCategorySpec(f, visual.state, Network);
    var gaming := RunCategorySpec(f, network.state, Gaming);
    Runs(services, visual, network, gaming, RunCategorySpec(f, gaming.state, Telemetry))
  }

  /**
   * RunCompleteOptimization: clears the log, logs the start entry, runs the five
   * categories (Services clears the log again), builds the report around a snapshot
   * of the log and logs the finished entry after taking it. The log held before
   * the call plays no part.
   */
  function CompleteSpec(f: Faults, values: map<Setting, RegValue>): CompleteRun {
    var r := RunsOf(f, values);
    var results := Results(r.services.success, r.visual.success, r.network.success, r.gaming.success, r.telemetry.success);
    CompleteRun(r.telemetry.state.values, r.telemetry.state.log + [FinishedEntry(results.Overall())], results.Overall(),
                ReportFor(results, r.telemetry.state.log))
  }

  // ------------------------------------------------------ the status check

  datatype StatusItem = XboxGameDvr | TelemetryPolicy | Transparency

  const StatusItems: seq<StatusItem> := [XboxGameDvr, TelemetryPolicy, Transparency]

  function StatusSetting(item: StatusItem): Setting {
    match item
    case XboxGameDvr => Setting(GameDvr, "GameDVR_Enabled")
    case TelemetryPolicy => Setting(PoliciesDataCollection, "AllowTelemetry")
    case Transparency => Setting(ThemesPersonalize, "EnableTransparency")
  }

  datatype StatusLine = StatusTitle | Check(item: StatusItem, good: bool) | Tip | StatusError(error: StoreError)

  /** GOOD exactly when the value's string form is "0"; a missing key or value is BAD. */
  predicate IsGood(v: Option<RegValue>) {
    FormOf(v) == Some("0")
  }

  /** The checks from items on; the first read that throws ends them with an error line. */
  function ChecksFrom(f: Faults, values: map<Setting, RegValue>, items: seq<StatusItem>): seq<StatusLine>
    decreases |items|
  {
    if items == [] then [Tip]
    else match ReadOutcome(f, values, StatusSetting(items[0]))
      case Failure(e) => [StatusError(e)]
      case Success(v) => [Check(items[0], IsGood(v))] + ChecksFrom(f, values, items[1..])
  }

  /** GetSystemOptimizationStatus: a title, then the three checks under one try. */
  function InspectSpec(f: Faults, values: map<Setting, RegValue>): seq<StatusLine> {
    [StatusTitle] + ChecksFrom(f, values, StatusItems)
  }
}
