/**
 * The static ShutUp10Tweaks class as an object: its one piece of state is the
 * shared log (the `_logBuilder` StringBuilder), which the methods append to and
 * clear in place; the hive is the registry they write to. Every method is proved
 * to do what the corresponding function of TweakModel says.
 */
module ShutUp10Tweaks {
  import opened Wrappers
  import opened DecimalText
  import opened Registry
  import opened TweakModel

  class Engine {
    const hive: Hive
    var log: seq<LogEntry>

    constructor (hive: Hive)
      ensures this.hive == hive && log == []
    {
      this.hive := hive;
      log := [];
    }

    /** LogAction: append one entry to the shared log. */
    method LogAction(action: Action, success: bool, details: Details)
      modifies this
      ensures log == old(log) + [LogEntry(success, action, details)]
    {
      log := log + [LogEntry(success, action, details)];
    }

    /** SetRegistryValue: write one DWord, read it back, log and return whether the string forms agree. */
    method SetRegistryValue(t: Tweak) returns (verified: bool)
      modifies this, hive
      ensures var a := Apply(hive.faults, old(hive.values), t);
        && hive.values == a.values
        && log == old(log) + EntriesOf(a.entry)
        && verified == a.verified
    {
      var s := t.setting;
      // Read the current value first; any failure leaves it null.
      var currentValue: Option<RegValue> := None;
      var pre := hive.ReadOnlyGetValue(s);
      if pre.Success? {
        currentValue := pre.value;
      }
      var key := hive.CreateSubKey(s.path);
      match key {
        case CreateFailed(e) =>
          LogAction(RegistryWrite(s), false, ExceptionMessage(e));
          verified := false;
        case NullKey =>
          verified := false;
        case Opened =>
          var error := hive.SetValue(s, t.value);
          if error.Some? {
            LogAction(RegistryWrite(s), false, ExceptionMessage(error.value));
            verified := false;
          } else {
            var verifyValue := hive.GetValue(s);
            verified := FormOf(verifyValue) == Some(IntToString(t.value));
            LogAction(RegistryWrite(s), verified, Changed(currentValue, t.value, verified));
          }
      }
    }

    /**
     * The step every category method repeats for each of its tweaks: count it,
     * apply it, and count it as a success if SetRegistryValue returned true. The
     * ghost parameters are the hive and the log as the category's first tweak found them.
     */
    method CountedTweak(ghost values0: map<Setting, RegValue>, ghost log0: seq<LogEntry>, tweaks: seq<Tweak>,
                        successCount: nat, totalTweaks: nat)
      returns (successCount': nat, totalTweaks': nat)
      requires totalTweaks < |tweaks|
      requires var b := RunTweaks(hive.faults, values0, tweaks[..totalTweaks]);
        hive.values == b.values && log == log0 + b.entries && successCount == b.successes
      modifies this, hive
      ensures totalTweaks' == totalTweaks + 1
      ensures var b := RunTweaks(hive.faults, values0, tweaks[..totalTweaks']);
        hive.values == b.values && log == log0 + b.entries && successCount' == b.successes
    {
      assert tweaks[..totalTweaks + 1][..totalTweaks] == tweaks[..totalTweaks];
      totalTweaks' := totalTweaks + 1;
      successCount' := successCount;
      var verified := SetRegistryValue(tweaks[totalTweaks]);
      if verified {
        successCount' := successCount' + 1;
      }
    }

    method DisableTelemetry() returns (success: bool)
      modifies this, hive
      ensures CategoryRun(EngineState(hive.values, log), success) == RunCategorySpec(hive.faults, EngineState(old(hive.values), old(log)), Telemetry)
    {
      LogAction(CategoryStart(Telemetry), true, NoDetails);
      ghost var values0, log0 := hive.values, log;
      var tweaks := Catalog(Telemetry);
      var successCount, totalTweaks := 0, 0;
      successCount, totalTweaks := CountedTweak(values0, log0, tweaks, successCount, totalTweaks);
      successCount, totalTweaks := CountedTweak(values0, log0, tweaks, successCount, totalTweaks);
      successCount, totalTweaks := CountedTweak(values0, log0, tweaks, successCount, totalTweaks);
      assert tweaks[..totalTweaks] == tweaks;
      LogAction(CategoryComplete(Telemetry), successCount > 0, AppliedCount(successCount, totalTweaks));
      success := successCount > 0;
    }

    method OptimizeForGaming() returns (success: bool)
      modifies this, hive
      ensures CategoryRun(EngineState(hive.values, log), success) == RunCategorySpec(hive.faults, EngineState(old(hive.values), old(log)), Gaming)
    {
      LogAction(CategoryStart(Gaming), true, NoDetails);
      ghost var values0, log0 := hive.values, log;
      var tweaks := Catalog(Gaming);
      var successCount, totalTweaks := 0, 0;
      successCount, totalTweaks := CountedTweak(values0, log0, tweaks, successCount, totalTweaks);
      successCount, totalTweaks := CountedTweak(values0, log0, tweaks, successCount, totalTweaks);
      successCount, totalTweaks := CountedTweak(values0, log0, tweaks, successCount, totalTweaks);
      successCount, totalTweaks := CountedTweak(values0, log0, tweaks, successCount, totalTweaks);
      assert tweaks[..totalTweaks] == tweaks;
      LogAction(CategoryComplete(Gaming), successCount > 0, AppliedCount(successCount, totalTweaks));
      success := successCount > 0;
    }

    method OptimizeNetwork() returns (success: bool)
      modifies this, hive
      ensures CategoryRun(EngineState(hive.values, log), success) == RunCategorySpec(hive.faults, EngineState(old(hive.values), old(log)), Network)
    {
      LogAction(CategoryStart(Network), true, NoDetails);
      ghost var values0, log0 := hive.values, log;
      var tweaks := Catalog(Network);
      var successCount, totalTweaks := 0, 0;
      successCount, totalTweaks := CountedTweak(values0, log0, tweaks, successCount, totalTweaks);
      successCount, totalTweaks := CountedTweak(values0, log0, tweaks, successCount, totalTweaks);
      successCount, totalTweaks := CountedTweak(values0, log0, tweaks, successCount, totalTweaks);
      assert tweaks[..totalTweaks] == tweaks;
      LogAction(CategoryComplete(Network), successCount > 0, AppliedCount(successCount, totalTweaks));
      success := successCount > 0;
    }

    method OptimizeServices() returns (success: bool)
      modifies this, hive
      ensures CategoryRun(EngineState(hive.values, log), success) == RunCategorySpec(hive.faults, EngineState(old(hive.values), old(log)), Services)
    {
      log := [];
      LogAction(CategoryStart(Services), true, NoDetails);
      ghost var values0, log0 := hive.values, log;
      var tweaks := Catalog(Services);
      var successCount, totalTweaks := 0, 0;
      successCount, totalTweaks := CountedTweak(values0, log0, tweaks, successCount, totalTweaks);
      successCount, totalTweaks := CountedTweak(values0, log0, tweaks, successCount, totalTweaks);
      successCount, totalTweaks := CountedTweak(values0, log0, tweaks, successCount, totalTweaks);
      assert tweaks[..totalTweaks] == tweaks;
      LogAction(CategoryComplete(Services), successCount > 0, AppliedCount(successCount, totalTweaks));
      success := successCount > 0;
    }

    method OptimizeVisualEffects() returns (success: bool)
      modifies this, hive
      ensures CategoryRun(EngineState(hive.values, log), success) == RunCategorySpec(hive.faults, EngineState(old(hive.values), old(log)), VisualEffects)
    {
      LogAction(CategoryStart(VisualEffects), true, NoDetails);
      ghost var values0, log0 := hive.values, log;
      var tweaks := Catalog(VisualEffects);
      var successCount, totalTweaks := 0, 0;
      successCount, totalTweaks := CountedTweak(values0, log0, tweaks, successCount, totalTweaks);
      successCount, totalTweaks := CountedTweak(values0, log0, tweaks, successCount, totalTweaks);
      successCount, totalTweaks := CountedTweak(values0, log0, tweaks, successCount, totalTweaks);
      assert tweaks[..totalTweaks] == tweaks;
      LogAction(CategoryComplete(VisualEffects), successCount > 0, AppliedCount(successCount, totalTweaks));
      success := successCount > 0;
    }

    /** RunCompleteOptimization: whatever the log held before, the result is CompleteSpec's. */
    method RunCompleteOptimization() returns (success: bool, report: seq<ReportLine>)
      modifies this, hive
      ensures var r := CompleteSpec(hive.faults, old(hive.values));
        && hive.values == r.values
        && log == r.log
        && success == r.success
        && report == r.report
    {
      log := [];
      LogAction(RunStart, true, InspiredTweaks);
      report := [ReportTitle];
      var overallSuccess := false;

      assert log == [RunStartEntry];
      var servicesResult := OptimizeServices();
      ghost var services := CategoryRun(EngineState(hive.values, log), servicesResult);
      var visualResult := OptimizeVisualEffects();
      ghost var visual := CategoryRun(EngineState(hive.values, log), visualResult);
      var networkResult := OptimizeNetwork();
      ghost var network := CategoryRun(EngineState(hive.values, log), networkResult);
      var gamingResult := OptimizeForGaming();
      ghost var gaming := CategoryRun(EngineState(hive.values, log), gamingResult);
      var telemetryResult := DisableTelemetry();
      ghost var telemetry := CategoryRun(EngineState(hive.values, log), telemetryResult);
      assert RunsOf(hive.faults, old(hive.values)) == Runs(services, visual, network, gaming, telemetry);

      report := report + [
        CategoryStatus(Services, servicesResult),
        CategoryStatus(VisualEffects, visualResult),
        CategoryStatus(Network, networkResult),
        CategoryStatus(Gaming, gamingResult),
        CategoryStatus(Telemetry, telemetryResult)];
      overallSuccess := servicesResult || visualResult || networkResult || gamingResult || telemetryResult;
      report := report + [OverallStatus(overallSuccess)];
      if !overallSuccess {
        report := report + TroubleshootingBlock;
      } else {
        report := report + CelebrationBlock;
      }
      report := report + [DetailedLogTitle, Rule, LogText(log)];
      ReportForAppends(Results(servicesResult, visualResult, networkResult, gamingResult, telemetryResult), log);
      LogAction(RunFinished, overallSuccess, OverallResult(overallSuccess));
      success := overallSuccess;
    }

    /** GetSystemOptimizationStatus: three reads under one try; it changes nothing. */
    method GetSystemOptimizationStatus() returns (status: seq<StatusLine>)
      ensures status == InspectSpec(hive.faults, hive.values)
    {
      status := [StatusTitle];
      var gameDvr := hive.ReadOnlyGetValue(StatusSetting(XboxGameDvr));
      if gameDvr.Failure? {
        return status + [StatusError(gameDvr.error)];
      }
      status := status + [Check(XboxGameDvr, IsGood(gameDvr.value))];
      var telemetry := hive.ReadOnlyGetValue(StatusSetting(TelemetryPolicy));
      if telemetry.Failure? {
        return status + [StatusError(telemetry.error)];
      }
      status := status + [Check(TelemetryPolicy, IsGood(telemetry.value))];
      var transparency := hive.ReadOnlyGetValue(StatusSetting(Transparency));
      if transparency.Failure? {
        return status + [StatusError(transparency.error)];
      }
      status := status + [Check(Transparency, IsGood(transparency.value)), Tip];
    }
  }
}
