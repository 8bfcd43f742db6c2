# ShutUp10Tweaks engine model

A Dafny model of the registry tweak engine of ByensIT Optimizer: the static class
`ShutUp10Tweaks` in `Core/ShutUp10Tweaks.cs`, with its proofs.

The engine applies a fixed catalog of DWord registry tweaks below HKEY_LOCAL_MACHINE in five
categories: Telemetry, Gaming, Network, Services and Visual Effects. Each tweak is applied in
three steps:

- read the current value as best it can;
- create the key and write the value;
- read the value back, compare the string forms, log one line and return the verdict.

A category method counts its verified tweaks and reports success when at least one verified.
`RunCompleteOptimization` runs the five categories in a fixed order, ORs their flags and
returns a report that ends with the shared log. `GetSystemOptimizationStatus` reads three
settings and classifies each as GOOD when its text is `"0"`.

Modules, one concept each:

- `Registry`: the hive.
  - `Hive` is a class, because the engine writes to it in place. It holds a map from
    (key, value name) to a value, plus a fixed failure oracle `Faults`.
  - The oracle lists the keys whose read-only open throws, the keys whose `CreateSubKey`
    throws, and the keys for which it returns null.
  - It also says what a DWord `SetValue` does with a number outside Int32: it either throws
    (the .NET conversion rule) or stores the truncated 32-bit value (`dwordWraps`).
  - Keys are an enumeration of the fifteen keys the engine opens. `PathText` gives each key's
    exact path.
- `DecimalText`: `Int32.ToString()` as decimal text, with proofs that it is injective and
  that `"0"` is the text of 0 alone.
- `TweakModel`: the catalog, the structure of log and report lines, and one specification
  function per engine operation:
  - `Apply` for `SetRegistryValue`;
  - `RunTweaks` for the tweak sequence of a category;
  - `RunCategorySpec` for a category method;
  - `CompleteSpec` for the full run;
  - `InspectSpec` for the status check.
- `ShutUp10Tweaks`: the class `Engine`.
  - Its field `log` is the shared `_logBuilder`, appended to and cleared in place.
  - Its methods follow the source statement by statement.
  - Each method is proved to leave the hive, the log and its results as its specification
    function says.
  - Each category method is the source's straight-line sequence. `CountedTweak` is the step
    it repeats per tweak: count it, call `SetRegistryValue`, count a success.
- `TweakProperties`: what the engine promises, proved about those functions.
  - Read-after-write verification.
  - One attempt per catalog entry, in order.
  - The count-based threshold and the OR aggregation.
  - Only the target entry changes.
  - The log quirks. Among the category methods only Services clears the log, so the next call
    wipes the run's start entry. The finished entry is logged after the report has copied the
    log, so the report does not contain it.
  - The NetworkThrottlingIndex tweak can never verify.
  - The status check stops at its first failing read.

Two behaviours of the code worth noting:

- A `SetRegistryValue` whose `CreateSubKey` returns null logs nothing and returns false
  (`ApplyLogsOnce`), so not every call logs an entry.
- The status check's three reads share one `try`. A read that throws ends the check with an
  error line, and the remaining lines and the TIP line are not produced (`ChecksFromShape`).

## Model

| member | source | states |
|---|---|---|
| Registry.FormOf | Core/ShutUp10Tweaks.cs:54 | `?.ToString()` is null exactly when the value read is null |
| Registry.Wrap32 | Core/ShutUp10Tweaks.cs:50 | the truncated DWord is an Int32 congruent to the number modulo 2^32, and an Int32 is left as it is |
| Registry.ReadOutcome | Core/ShutUp10Tweaks.cs:38-40 | the read-only open fails exactly on the keys whose open throws; otherwise the value or null |
| Registry.DWordData | Core/ShutUp10Tweaks.cs:50 | a DWord write succeeds exactly for an Int32 (or on a truncating store), and then stores the truncated value |
| Registry.Hive.ReadOnlyGetValue | Core/ShutUp10Tweaks.cs:38-40 | `OpenSubKey(path)?.GetValue(name)` gives the read outcome of the hive's current values |
| Registry.Hive.CreateSubKey | Core/ShutUp10Tweaks.cs:46 | `CreateSubKey` throws, returns null or opens the key, as the oracle says for that key |
| Registry.Hive.SetValue | Core/ShutUp10Tweaks.cs:50 | a write that converts stores the value at (key, name) and changes nothing else; one that does not throws and changes nothing |
| Registry.Hive.GetValue | Core/ShutUp10Tweaks.cs:53 | the read-back through the opened key returns what the hive holds now |
| DecimalText.NatToString | Core/ShutUp10Tweaks.cs:54 | the decimal text of a number is a non-empty run of digits, one digit long exactly below 10 |
| DecimalText.IntToString | Core/ShutUp10Tweaks.cs:54 | `ToString()` of an integer is non-empty and starts with '-' exactly for negatives |
| DecimalText.NatToStringInjective | Core/ShutUp10Tweaks.cs:54 | distinct natural numbers have distinct decimal texts |
| DecimalText.IntToStringInjective | Core/ShutUp10Tweaks.cs:54 | distinct integers have distinct texts, so comparing string forms compares numbers |
| DecimalText.IntToStringZero | Core/ShutUp10Tweaks.cs:317 | the text `"0"` is the text of 0 and of no other integer |
| Registry.StringForm | Core/ShutUp10Tweaks.cs:54 | definition, no ensures: a value's `ToString()` (decimal text of a DWord, the text itself otherwise); its promise is carried by `DecimalText.IntToStringInjective` and `TweakProperties.IsGoodIff` |
| Registry.Lookup | Core/ShutUp10Tweaks.cs:40 | definition, no ensures: `GetValue(name)` returns the stored value or null when there is none; carried by `TweakProperties.ApplyReadBack` and `TweakProperties.ApplyPrevious` |
| Registry.CreateOutcome | Core/ShutUp10Tweaks.cs:46 | definition, no ensures: `CreateSubKey` throws, returns null or opens the key, as the failure oracle says; carried by `TweakProperties.ApplySucceedsIff` and `TweakProperties.ApplyExceptions` |
| TweakModel.Catalog | Core/ShutUp10Tweaks.cs:83-240 | definition, no ensures: each category's (key, name, value) tweaks in source order, 3, 4, 3, 3 and 3 of them; carried by `TweakProperties.RunTweaksAttempts` and `TweakProperties.CategoryOutcome` |
| TweakModel.RunOrder | Core/ShutUp10Tweaks.cs:265-269 | constant: the category order Services, Visual Effects, Network, Gaming, Telemetry; `TweakProperties.CompleteSnapshotOrder` proves the snapshot follows it |
| TweakModel.Apply | Core/ShutUp10Tweaks.cs:30-68 | definition, no ensures: pre-read, create, write, read-back and compare, and the entry logged; carried by `TweakProperties.ApplySucceedsIff`, `ApplyFrame`, `ApplyReadBack`, `ApplyTwice`, `ApplyLogsOnce` and `ApplyExceptions` |
| TweakModel.RunCategorySpec | Core/ShutUp10Tweaks.cs:74-247 | definition, no ensures: a category method (Services clears the log first) with start entry, the tweaks and "Applied s/t"; carried by `TweakProperties.CategoryOutcome`, `CategorySuccessIff` and `CategoryLogRetention` |
| TweakModel.RunsOf | Core/ShutUp10Tweaks.cs:265-269 | definition, no ensures: the five category runs of a full run, chained through the state; carried by `TweakProperties.CompleteSnapshot` and `CompleteSnapshotOrder` |
| TweakModel.Results.Overall | Core/ShutUp10Tweaks.cs:278 | definition, no ensures: the OR of the five category flags; carried by `TweakProperties.CompleteSuccessIff` |
| TweakModel.ReportFor | Core/ShutUp10Tweaks.cs:258-298 | definition, no ensures: title, five status lines, overall line, troubleshooting or celebration block, log; carried by `TweakProperties.ReportBlocks` and `CompleteReport` |
| TweakModel.CompleteSpec | Core/ShutUp10Tweaks.cs:253-304 | definition, no ensures: the values, final log, flag and report of a full run; carried by `TweakProperties.CompleteSuccessIff`, `CompleteReport`, `CompleteSnapshot` and `StatusAfterCompleteRun` |
| TweakModel.IsGood | Core/ShutUp10Tweaks.cs:317 | definition, no ensures: GOOD when the value's text is exactly "0"; carried by `TweakProperties.IsGoodIff` |
| TweakModel.ChecksFrom | Core/ShutUp10Tweaks.cs:311-340 | definition, no ensures: the status checks under one try, the first throwing read ending them; carried by `TweakProperties.ChecksFromShape` |
| TweakModel.InspectSpec | Core/ShutUp10Tweaks.cs:306-343 | definition, no ensures: the title line and the checks; carried by `TweakProperties.ChecksFromShape` and `StatusAfterCompleteRun` |
| TweakModel.RunTweaks | Core/ShutUp10Tweaks.cs:78-102 | a category never counts more successes than it has tweaks |
| ShutUp10Tweaks.Engine.constructor | Core/ShutUp10Tweaks.cs:15 | the shared log starts empty |
| ShutUp10Tweaks.Engine.LogAction | Core/ShutUp10Tweaks.cs:18-27 | one entry with the given status, action and details is appended to the shared log, and nothing else changes |
| ShutUp10Tweaks.Engine.SetRegistryValue | Core/ShutUp10Tweaks.cs:30-68 | the hive, the appended entries and the result are those of `Apply` on the hive as it was |
| ShutUp10Tweaks.Engine.CountedTweak | Core/ShutUp10Tweaks.cs:82-85 | counting one more tweak keeps the hive, the log and the success count equal to the category's first k tweaks applied in order |
| ShutUp10Tweaks.Engine.DisableTelemetry | Core/ShutUp10Tweaks.cs:74-103 | hive, log and result are `RunCategorySpec` of Telemetry on the state before the call |
| ShutUp10Tweaks.Engine.OptimizeForGaming | Core/ShutUp10Tweaks.cs:109-144 | hive, log and result are `RunCategorySpec` of Gaming on the state before the call |
| ShutUp10Tweaks.Engine.OptimizeNetwork | Core/ShutUp10Tweaks.cs:150-179 | hive, log and result are `RunCategorySpec` of Network on the state before the call |
| ShutUp10Tweaks.Engine.OptimizeServices | Core/ShutUp10Tweaks.cs:185-212 | hive, log and result are `RunCategorySpec` of Services, which drops the log it found, on the state before the call |
| ShutUp10Tweaks.Engine.OptimizeVisualEffects | Core/ShutUp10Tweaks.cs:218-247 | hive, log and result are `RunCategorySpec` of Visual Effects on the state before the call |
| ShutUp10Tweaks.Engine.RunCompleteOptimization | Core/ShutUp10Tweaks.cs:253-304 | hive, log, flag and report are `CompleteSpec` of the hive before the call, whatever the log held |
| ShutUp10Tweaks.Engine.GetSystemOptimizationStatus | Core/ShutUp10Tweaks.cs:306-343 | the lines are `InspectSpec` of the hive, and nothing is written (no modifies clause) |
| TweakProperties.ApplySucceedsIff | Core/ShutUp10Tweaks.cs:46-58 | `SetRegistryValue` returns true exactly when the key is created, is not null and the value is an Int32 |
| TweakProperties.ApplyReadBack | Core/ShutUp10Tweaks.cs:50-54 | after a verified write the hive is the old hive with exactly the written DWord at (key, name) |
| TweakProperties.ApplyFrame | Core/ShutUp10Tweaks.cs:46-61 | only the target entry can change, and only after CreateSubKey opened the key |
| TweakProperties.ApplyTwice | Core/ShutUp10Tweaks.cs:35-58 | a second apply right after a verified one sees the first value as previous (null when the key's read-only open throws), changes nothing and verifies |
| TweakProperties.PreReadIrrelevant | Core/ShutUp10Tweaks.cs:35-43 | the pre-read's failure or value never changes the result, the hive or the entry's status; only the "Changed from" value |
| TweakProperties.ApplyPrevious | Core/ShutUp10Tweaks.cs:35-57 | the "Changed from" value is what the pre-read found, or null when the read-only open threw |
| TweakProperties.ApplyLogsOnce | Core/ShutUp10Tweaks.cs:46-61 | one entry whose status is the result, except for a null key: false, no entry and no write |
| TweakProperties.ApplyExceptions | Core/ShutUp10Tweaks.cs:63-67 | a throwing CreateSubKey or SetValue gives false, one FAILED entry with the exception and an unchanged hive, and only those cases log one |
| TweakProperties.NetworkThrottlingNeverVerifies | Core/ShutUp10Tweaks.cs:171-173 | 0xffffffff never verifies: SetValue throws, or stores -1, whose text differs |
| TweakProperties.FreshTelemetryPolicy | Core/ShutUp10Tweaks.cs:83-85 | on a hive without AllowTelemetry, whose key can be created and is not null, the write succeeds and logs a verified change from null to 0 |
| TweakProperties.RunTweaksCount | Core/ShutUp10Tweaks.cs:78-102 | the success count is the number of tweaks that succeed on their own, whatever the others do |
| TweakProperties.CountPositiveIff | Core/ShutUp10Tweaks.cs:102 | the count is positive exactly when some tweak of the list succeeds |
| TweakProperties.RunTweaksAttempts | Core/ShutUp10Tweaks.cs:81-97 | the logged actions and statuses are the tweaks in order, each once with its own verdict, skipping null keys |
| TweakProperties.ExpectedWithoutNullKeys | Core/ShutUp10Tweaks.cs:81-97 | without null keys the i-th registry entry is the i-th tweak's |
| TweakProperties.RunTweaksLogsWrites | Core/ShutUp10Tweaks.cs:56-65 | a category's tweaks log registry-write entries only |
| TweakProperties.RunTweaksUntouched | Core/ShutUp10Tweaks.cs:46-58 | a setting no tweak targets keeps its value |
| TweakProperties.RunTweaksLastWrite | Core/ShutUp10Tweaks.cs:46-58 | a succeeding tweak that no later tweak overrides leaves its value in the hive |
| TweakProperties.CategoryLogParts | Core/ShutUp10Tweaks.cs:76-100 | a category's log is the kept log, the start entry, the tweaks' entries and the closing entry, in that order |
| TweakProperties.CategorySuccessIff | Core/ShutUp10Tweaks.cs:99-102 | a category reports success exactly when some tweak of its catalog succeeds |
| TweakProperties.CategoryOutcome | Core/ShutUp10Tweaks.cs:76-102 | kept log, then a successful start entry, the catalog's entries in order, and "Applied s/t" with s the succeeding tweaks and t the catalog size |
| TweakProperties.CategoryLogRetention | Core/ShutUp10Tweaks.cs:185-188 | every category keeps the log it found except Services, whose result does not depend on it |
| TweakProperties.NetworkAtMostTwo | Core/ShutUp10Tweaks.cs:150-179 | OptimizeNetwork reports at most 2 of its 3 tweaks applied |
| TweakProperties.StartsOfWrites | Core/ShutUp10Tweaks.cs:56-65 | registry-write entries hold no start entries |
| TweakProperties.CategoryLogStarts | Core/ShutUp10Tweaks.cs:76-100 | a category adds exactly its own start entry and no run entry, whatever its tweaks logged |
| TweakProperties.CategoryStarts | Core/ShutUp10Tweaks.cs:185-188 | a category method adds exactly one start entry, its own, to the log it keeps |
| TweakProperties.CategoryEntryKinds | Core/ShutUp10Tweaks.cs:76-100 | a category method adds no run-start or run-finished entry |
| TweakProperties.CompleteSuccessIff | Core/ShutUp10Tweaks.cs:265-278 | the overall flag is the OR of the five flags, and true exactly when some tweak of the catalog succeeds |
| TweakProperties.CompleteReport | Core/ShutUp10Tweaks.cs:280-303 | troubleshooting block exactly on failure, celebration block exactly on success, the snapshot last, the finished entry logged after it |
| TweakProperties.ReportBlocks | Core/ShutUp10Tweaks.cs:282-293 | the report holds the troubleshooting line exactly when the flag is false and the celebration line exactly when it is true |
| TweakProperties.CompleteSnapshot | Core/ShutUp10Tweaks.cs:255-298 | the snapshot holds category entries only: the run's start entry was cleared by Services, and the finished entry is not in it |
| TweakProperties.CompleteSnapshotOrder | Core/ShutUp10Tweaks.cs:265-269 | the snapshot's categories run Services, Visual Effects, Network, Gaming, Telemetry |
| TweakProperties.IsGoodIff | Core/ShutUp10Tweaks.cs:316-317 | GOOD exactly for a DWord 0 or the string "0"; missing keys and values are BAD |
| TweakProperties.ChecksFromShape | Core/ShutUp10Tweaks.cs:311-340 | one classified line per item before the first throwing read, then the error line, or the TIP line when none throws |
| TweakProperties.CategoryKeeps | Core/ShutUp10Tweaks.cs:46-58 | a category leaves alone every setting its catalog does not target |
| TweakProperties.TransparencyWritten | Core/ShutUp10Tweaks.cs:233-235 | OptimizeVisualEffects writes EnableTransparency=0 on a key it can open |
| TweakProperties.TransparencyKept | Core/ShutUp10Tweaks.cs:265-269 | the three categories after Visual Effects leave EnableTransparency alone |
| TweakProperties.TransparencyAfterRun | Core/ShutUp10Tweaks.cs:327-330 | when its key can be created and is not null, after a full run EnableTransparency reads 0 |
| TweakProperties.GameDvrAfterRun | Core/ShutUp10Tweaks.cs:314-318 | when its key can be created and is not null, after a full run GameDVR_Enabled reads 0 |
| TweakProperties.TelemetryPolicyAfterRun | Core/ShutUp10Tweaks.cs:320-324 | when its key can be created and is not null, after a full run the policy AllowTelemetry reads 0 |
| TweakProperties.StatusAfterCompleteRun | Core/ShutUp10Tweaks.cs:306-343 | after a full run on a readable, writable hive the status check reports all three settings GOOD and the TIP line |

## Left out

- Timestamps: the `HH:mm:ss` prefix of each log line is left out, because it comes from the clock
  (`DateTime.Now`).
- The console echo of each log line is output only and is not modelled.
- Line text: the emoji, the Danish report lines and the log text are represented by their
  structure. A log entry is its status, action and details. A report line is a constructor, and
  the log's text in the report is one `LogText` line holding the entries.
- `PathText` records each key's exact path but is not used to render lines; the log's
  `Registry: path\name` label is the structural `RegistryWrite(setting)`.
- Registry value kinds other than DWord are not modelled one by one. Every call in the engine
  writes a DWord; `Sz(s)` stands for any value of another kind, through its `ToString()` text `s`.
- Key nodes are not modelled. `CreateSubKey` creating a key and its parents holds no values for
  the engine to see.
- Exceptions from `GetValue`: the read-back through the opened key is taken not to throw. Any
  exception of the pre-read, from `OpenSubKey` or from `GetValue`, is one `ReadDenied` case.
- Value names are matched by their exact spelling, although the Windows registry ignores case in
  value names. The model assumes a hive holds each value the engine names in the engine's own
  spelling: a value stored as `gamedvr_enabled` is a different setting here, which the status
  check (`InspectSpec`) does not see and which `ApplyFrame`, `RunTweaksUntouched` and
  `CategoryKeeps` treat as untouched, whereas the real `GetValue` and `SetValue` would find it.
- The failure oracle is fixed for a hive: access rights do not change in the middle of a run.
- Only the fifteen keys the engine opens exist in the model's hive, since the engine names no
  other.
- Disposal of keys (`using`) is not modelled, because it has no effect on values or log.
- Concurrency: the unsynchronised static log is modelled for single-threaded runs only.
- MainWindow.xaml.cs is not part of this model: it is presentation code, administrator
  detection and host information, which only call the engine.
