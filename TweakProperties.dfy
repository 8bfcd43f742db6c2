/**
 * What the engine promises, proved about the functions of TweakModel that the
 * Engine methods are proved to implement.
 */
module TweakProperties {
  import opened Wrappers
  import opened DecimalText
  import opened Registry
  import opened TweakModel

  // ------------------------------------------------------- SetRegistryValue

  /**
   * SetRegistryValue returns true exactly when the key can be created and opened
   * and the value is an Int32: those are the cases in which the read-back text
   * equals the written text; a truncated DWord reads back as a different number.
   */
  lemma ApplySucceedsIff(f: Faults, values: map<Setting, RegValue>, t: Tweak)
    ensures Apply(f, values, t).verified <==> Succeeds(f, t)
  {
    if CreateOutcome(f, t.setting.path) == Opened && !IsInt32(t.value) && f.dwordWraps {
      if IntToString(Wrap32(t.value)) == IntToString(t.value) {
        IntToStringInjective(Wrap32(t.value), t.value);
      }
    }
  }

  /** A verified write leaves exactly the written DWord under its (path, name), and every other entry as it was. */
  lemma ApplyReadBack(f: Faults, values: map<Setting, RegValue>, t: Tweak)
    ensures var a := Apply(f, values, t);
      a.verified ==> a.values == values[t.setting := DWord(t.value)]
  {
    ApplySucceedsIff(f, values, t);
  }

  /**
   * Only the targeted entry can change: the hive is left as it was or holds the
   * stored DWord at t.setting; it changes only once CreateSubKey has opened the key.
   */
  lemma ApplyFrame(f: Faults, values: map<Setting, RegValue>, t: Tweak)
    ensures var a := Apply(f, values, t);
      && (a.values == values || a.values == values[t.setting := DWord(Wrap32(t.value))])
      && (a.values != values ==> CreateOutcome(f, t.setting.path) == Opened)
  {
  }

  /**
   * Applying the same tweak twice in a row: the second application sees the first
   * one's value as its previous value (unless the pre-read is denied), changes
   * nothing more, and verifies too.
   */
  lemma ApplyTwice(f: Faults, values: map<Setting, RegValue>, t: Tweak)
    requires Apply(f, values, t).verified
    ensures var first := Apply(f, values, t);
      var second := Apply(f, first.values, t);
      && second.verified
      && second.values == first.values
      && second.entry == Some(LogEntry(true, RegistryWrite(t.setting),
           Changed(if t.setting.path in f.readDenied then None else Some(DWord(t.value)), t.value, true)))
  {
    var first := Apply(f, values, t);
    ApplyReadBack(f, values, t);
    ApplySucceedsIff(f, values, t);
    ApplySucceedsIff(f, first.values, t);
    ApplyReadBack(f, first.values, t);
    assert first.values[t.setting := DWord(t.value)] == first.values;
  }

  /**
   * The pre-read decides nothing: neither its failure nor the value it finds
   * changes the result, the hive or the entry's status; it shows up only as the
   * "Changed from" value.
   */
  lemma PreReadIrrelevant(f: Faults, g: Faults, values: map<Setting, RegValue>, other: map<Setting, RegValue>, t: Tweak)
    requires f.writeDenied == g.writeDenied && f.noKey == g.noKey && f.dwordWraps == g.dwordWraps
    ensures Apply(f, values, t).verified == Apply(g, other, t).verified
    ensures var a, b := Apply(f, values, t), Apply(g, values, t);
      && a.values == b.values
      && (a.entry.Some? <==> b.entry.Some?)
      && (a.entry.Some? ==> a.entry.value.success == b.entry.value.success && a.entry.value.action == b.entry.value.action)
      && (a.entry.Some? && a.entry.value.details.Changed? ==>
            b.entry.value.details == a.entry.value.details.(previous := b.entry.value.details.previous))
  {
    ApplySucceedsIff(f, values, t);
    ApplySucceedsIff(g, other, t);
  }

  /** The "Changed from" value is what the pre-read found, and null when the read-only open threw. */
  lemma ApplyPrevious(f: Faults, values: map<Setting, RegValue>, t: Tweak)
    ensures var a := Apply(f, values, t);
      a.entry.Some? && a.entry.value.details.Changed? ==>
        a.entry.value.details.previous == (if t.setting.path in f.readDenied then None else Lookup(values, t.setting))
  {
  }

  /**
   * One entry per call, whose status is the returned flag; the one exception is a
   * null key from CreateSubKey, which returns false, logs nothing and writes nothing.
   */
  lemma ApplyLogsOnce(f: Faults, values: map<Setting, RegValue>, t: Tweak)
    ensures var a := Apply(f, values, t);
      && (a.entry.Some? <==> Logged(f, t))
      && (a.entry.Some? ==> a.entry.value.success == a.verified && a.entry.value.action == RegistryWrite(t.setting))
      && (a.entry.None? ==> !a.verified && a.values == values)
  {
  }

  /**
   * The exceptions: a denied CreateSubKey and a DWord SetValue that cannot convert
   * the value are caught, give false and one FAILED entry carrying the exception,
   * and leave the hive unchanged. No other case logs an exception.
   */
  lemma ApplyExceptions(f: Faults, values: map<Setting, RegValue>, t: Tweak)
    ensures var s, a := t.setting, Apply(f, values, t);
      && (s.path in f.writeDenied ==>
            a == Attempt(values, Some(LogEntry(false, RegistryWrite(s), ExceptionMessage(WriteDenied(s.path)))), false))
      && (s.path !in f.writeDenied && s.path !in f.noKey && !IsInt32(t.value) && !f.dwordWraps ==>
            a == Attempt(values, Some(LogEntry(false, RegistryWrite(s), ExceptionMessage(KindMismatch(s)))), false))
      && (a.entry.Some? && a.entry.value.details.ExceptionMessage? <==>
            s.path in f.writeDenied || (s.path !in f.noKey && !IsInt32(t.value) && !f.dwordWraps))
  {
  }

  /**
   * NetworkThrottlingIndex is written as 0xffffffff, which is no Int32: SetValue
   * either throws, or stores -1, whose text is not "4294967295". It never verifies.
   */
  lemma NetworkThrottlingNeverVerifies(f: Faults, values: map<Setting, RegValue>)
    ensures !Apply(f, values, NetworkThrottling).verified
    ensures var s, a := NetworkThrottling.setting, Apply(f, values, NetworkThrottling);
      CreateOutcome(f, s.path) == Opened ==>
        if f.dwordWraps then
          a.values == values[s := DWord(-1)] && a.entry.Some? && a.entry.value.details.Changed?
        else
          a.entry == Some(LogEntry(false, RegistryWrite(s), ExceptionMessage(KindMismatch(s))))
  {
    ApplySucceedsIff(f, values, NetworkThrottling);
  }

  /** A fresh hive: AllowTelemetry=0 is written, read back as "0", and logged as a verified change from null. */
  lemma FreshTelemetryPolicy(f: Faults, values: map<Setting, RegValue>)
    requires Catalog(Telemetry)[0].setting !in values
    requires Catalog(Telemetry)[0].setting.path !in f.writeDenied + f.noKey
    ensures var t := Catalog(Telemetry)[0];
      Apply(f, values, t)
      == Attempt(values[t.setting := DWord(0)],
                 Some(LogEntry(true, RegistryWrite(t.setting), Changed(None, 0, true))), true)
  {
    assert IntToString(0) == "0" by {
      IntToStringZero(0);
    }
  }

  // ------------------------------------------------------- a category's loop

  /** How many tweaks of ts succeed on their own, whatever the hive holds. */
  function CountSucceeding(f: Faults, ts: seq<Tweak>): (n: nat)
    ensures n <= |ts|
    decreases |ts|
  {
    if ts == [] then 0
    else CountSucceeding(f, ts[..|ts| - 1]) + if Succeeds(f, ts[|ts| - 1]) then 1 else 0
  }

  /** The registry entries ts should log: one per tweak whose key is not null, in order, with its verdict. */
  function Expected(f: Faults, ts: seq<Tweak>): seq<(Action, bool)>
    decreases |ts|
  {
    if ts == [] then []
    else
      var t := ts[|ts| - 1];
      Expected(f, ts[..|ts| - 1]) + if Logged(f, t) then [(RegistryWrite(t.setting), Succeeds(f, t))] else []
  }

  /** The action and status of each entry of a log. */
  function Summary(log: seq<LogEntry>): (r: seq<(Action, bool)>)
    ensures |r| == |log|
    decreases |log|
  {
    if log == [] then []
    else Summary(log[..|log| - 1]) + [(log[|log| - 1].action, log[|log| - 1].success)]
  }

  lemma {:induction false} SummaryAppend(a: seq<LogEntry>, b: seq<LogEntry>)
    ensures Summary(a + b) == Summary(a) + Summary(b)
    decreases |b|
  {
    if b == [] {
      assert a + b == a;
    } else {
      assert (a + b)[..|a + b| - 1] == a + b[..|b| - 1];
      SummaryAppend(a, b[..|b| - 1]);
    }
  }

  /** successCount is the number of tweaks that succeed on their own. */
  lemma {:induction false} RunTweaksCount(f: Faults, values: map<Setting, RegValue>, ts: seq<Tweak>)
    ensures RunTweaks(f, values, ts).successes == CountSucceeding(f, ts)
    decreases |ts|
  {
    if ts != [] {
      var prefix := ts[..|ts| - 1];
      RunTweaksCount(f, values, prefix);
      ApplySucceedsIff(f, RunTweaks(f, values, prefix).values, ts[|ts| - 1]);
    }
  }

  /** The count is positive exactly when some tweak of ts succeeds. */
  lemma {:induction false} CountPositiveIff(f: Faults, ts: seq<Tweak>)
    ensures CountSucceeding(f, ts) > 0 <==> exists i :: 0 <= i < |ts| && Succeeds(f, ts[i])
    decreases |ts|
  {
    if ts != [] {
      var prefix := ts[..|ts| - 1];
      CountPositiveIff(f, prefix);
      if CountSucceeding(f, prefix) > 0 {
        var i :| 0 <= i < |prefix| && Succeeds(f, prefix[i]);
        assert Succeeds(f, ts[i]);
      }
      if exists i :: 0 <= i < |ts| && Succeeds(f, ts[i]) {
        var i :| 0 <= i < |ts| && Succeeds(f, ts[i]);
        if i < |prefix| {
          assert Succeeds(f, prefix[i]);
        }
      }
    }
  }

  /** Every tweak is attempted once, in order, whatever the earlier ones did; each logs its own verdict. */
  lemma {:induction false} RunTweaksAttempts(f: Faults, values: map<Setting, RegValue>, ts: seq<Tweak>)
    ensures Summary(RunTweaks(f, values, ts).entries) == Expected(f, ts)
    decreases |ts|
  {
    if ts != [] {
      var prefix := ts[..|ts| - 1];
      var b := RunTweaks(f, values, prefix);
      var a := Apply(f, b.values, ts[|ts| - 1]);
      RunTweaksAttempts(f, values, prefix);
      ApplySucceedsIff(f, b.values, ts[|ts| - 1]);
      ApplyLogsOnce(f, b.values, ts[|ts| - 1]);
      SummaryAppend(b.entries, EntriesOf(a.entry));
    }
  }

  /** With no null keys, the entries are exactly one per tweak, the i-th for ts[i]. */
  lemma {:induction false} ExpectedWithoutNullKeys(f: Faults, ts: seq<Tweak>)
    requires forall i :: 0 <= i < |ts| ==> Logged(f, ts[i])
    ensures |Expected(f, ts)| == |ts|
    ensures forall i :: 0 <= i < |ts| ==> Expected(f, ts)[i] == (RegistryWrite(ts[i].setting), Succeeds(f, ts[i]))
    decreases |ts|
  {
    if ts != [] {
      var prefix := ts[..|ts| - 1];
      assert forall i :: 0 <= i < |prefix| ==> prefix[i] == ts[i];
      ExpectedWithoutNullKeys(f, prefix);
      assert Logged(f, ts[|ts| - 1]);
    }
  }

  /** A log made of registry-write entries only. */
  predicate WritesOnly(log: seq<LogEntry>) {
    forall i :: 0 <= i < |log| ==> log[i].action.RegistryWrite?
  }

  /** Registry writes are the only entries a batch of tweaks logs. */
  lemma {:induction false} RunTweaksLogsWrites(f: Faults, values: map<Setting, RegValue>, ts: seq<Tweak>)
    ensures WritesOnly(RunTweaks(f, values, ts).entries)
    decreases |ts|
  {
    if ts != [] {
      RunTweaksLogsWrites(f, values, ts[..|ts| - 1]);
      ApplyLogsOnce(f, RunTweaks(f, values, ts[..|ts| - 1]).values, ts[|ts| - 1]);
    }
  }

  /** A setting no tweak of ts targets keeps its value. */
  lemma {:induction false} RunTweaksUntouched(f: Faults, values: map<Setting, RegValue>, ts: seq<Tweak>, s: Setting)
    requires forall i :: 0 <= i < |ts| ==> ts[i].setting != s
    ensures Lookup(RunTweaks(f, values, ts).values, s) == Lookup(values, s)
    decreases |ts|
  {
    if ts != [] {
      var prefix := ts[..|ts| - 1];
      assert forall i :: 0 <= i < |prefix| ==> prefix[i] == ts[i];
      RunTweaksUntouched(f, values, prefix, s);
      ApplyFrame(f, RunTweaks(f, values, prefix).values, ts[|ts| - 1]);
    }
  }

  /** A tweak that succeeds and that no later tweak of ts overrides leaves its value in the hive. */
  lemma {:induction false} RunTweaksLastWrite(f: Faults, values: map<Setting, RegValue>, ts: seq<Tweak>, i: nat)
    requires i < |ts| && Succeeds(f, ts[i])
    requires forall j :: i < j < |ts| ==> ts[j].setting != ts[i].setting
    ensures Lookup(RunTweaks(f, values, ts).values, ts[i].setting) == Some(DWord(ts[i].value))
    decreases |ts|
  {
    var prefix := ts[..|ts| - 1];
    var b := RunTweaks(f, values, prefix);
    if i == |ts| - 1 {
      ApplySucceedsIff(f, b.values, ts[i]);
      ApplyReadBack(f, b.values, ts[i]);
    } else {
      assert forall j :: 0 <= j < |prefix| ==> prefix[j] == ts[j];
      RunTweaksLastWrite(f, values, prefix, i);
      ApplyFrame(f, b.values, ts[|ts| - 1]);
    }
  }

  // ------------------------------------------------------ the category methods

  /** The parts of a category's log: the kept log, the start entry, the tweaks' entries, the closing entry. */
  lemma CategoryLogParts(kept: seq<LogEntry>, c: Category, entries: seq<LogEntry>, last: LogEntry)
    ensures var log := kept + [StartEntry(c)] + entries + [last];
      && |log| == |kept| + |entries| + 2
      && log[..|kept|] == kept
      && log[|kept|] == StartEntry(c)
      && log[|kept| + 1 .. |log| - 1] == entries
      && log[|log| - 1] == last
  {
    var log := kept + [StartEntry(c)] + entries + [last];
    assert log[..|kept|] == kept;
    assert log[|kept| + 1 .. |log| - 1] == entries;
  }

  /** A category method reports success exactly when some tweak of its catalog succeeds. */
  lemma CategorySuccessIff(f: Faults, st: EngineState, c: Category)
    ensures RunCategorySpec(f, st, c).success <==> exists i :: 0 <= i < |Catalog(c)| && Succeeds(f, Catalog(c)[i])
  {
    RunTweaksCount(f, st.values, Catalog(c));
    CountPositiveIff(f, Catalog(c));
  }

  /**
   * A category method: it keeps the log it found (Services alone drops it), logs a
   * successful start entry, then its catalog's registry entries in order, and last
   * "Applied s/t" with s the number of tweaks that succeed and t the catalog size.
   */
  lemma CategoryOutcome(f: Faults, st: EngineState, c: Category)
    ensures var r, kept := RunCategorySpec(f, st, c), if c == Services then [] else st.log;
      && |r.state.log| >= |kept| + 2
      && r.state.log[..|kept|] == kept
      && r.state.log[|kept|] == StartEntry(c)
      && Summary(r.state.log[|kept| + 1 .. |r.state.log| - 1]) == Expected(f, Catalog(c))
      && r.state.log[|r.state.log| - 1] == CompleteEntry(c, CountSucceeding(f, Catalog(c)), |Catalog(c)|)
  {
    var kept := if c == Services then [] else st.log;
    var b := RunTweaks(f, st.values, Catalog(c));
    RunTweaksCount(f, st.values, Catalog(c));
    RunTweaksAttempts(f, st.values, Catalog(c));
    CategoryLogParts(kept, c, b.entries, CompleteEntry(c, b.successes, |Catalog(c)|));
  }

  /** The shared log survives a category method, except Services, whose result ignores it. */
  lemma CategoryLogRetention(f: Faults, st: EngineState, other: seq<LogEntry>, c: Category)
    ensures c != Services ==> st.log <= RunCategorySpec(f, st, c).state.log
    ensures c == Services ==> RunCategorySpec(f, st, c) == RunCategorySpec(f, st.(log := other), c)
  {
  }

  /** NetworkThrottlingIndex never verifies, so OptimizeNetwork applies at most two of its three tweaks. */
  lemma NetworkAtMostTwo(f: Faults, st: EngineState)
    ensures RunCategorySpec(f, st, Network).state.log[|RunCategorySpec(f, st, Network).state.log| - 1]
         .details.successes <= 2
  {
    var ts := Catalog(Network);
    assert ts[2] == NetworkThrottling;
    assert !Succeeds(f, NetworkThrottling);
    assert ts[..2][..1] == ts[..1];
    assert ts[..|ts| - 1] == ts[..2];
    CategoryOutcome(f, st, Network);
  }

  // ------------------------------------------------------------- the full run

  /** The categories whose start entries a log holds, in order. */
  function Starts(log: seq<LogEntry>): seq<Category>
    decreases |log|
  {
    if log == [] then []
    else Starts(log[..|log| - 1]) + if log[|log| - 1].action.CategoryStart? then [log[|log| - 1].action.category] else []
  }

  lemma {:induction false} StartsAppend(a: seq<LogEntry>, b: seq<LogEntry>)
    ensures Starts(a + b) == Starts(a) + Starts(b)
    decreases |b|
  {
    if b == [] {
      assert a + b == a;
    } else {
      assert (a + b)[..|a + b| - 1] == a + b[..|b| - 1];
      StartsAppend(a, b[..|b| - 1]);
    }
  }

  lemma {:induction false} StartsOfWrites(log: seq<LogEntry>)
    requires WritesOnly(log)
    ensures Starts(log) == []
    decreases |log|
  {
    if log != [] {
      StartsOfWrites(log[..|log| - 1]);
    }
  }

  /** A log made of category entries only: no run-start and no run-finished entry. */
  predicate CategoryEntriesOnly(log: seq<LogEntry>) {
    forall i :: 0 <= i < |log| ==> !log[i].action.RunStart? && !log[i].action.RunFinished?
  }

  /**
   * The log a category method leaves, whatever its tweaks did: one start entry
   * more than the log it kept, and nothing but category entries added.
   */
  lemma CategoryLogStarts(kept: seq<LogEntry>, c: Category, writes: seq<LogEntry>, last: LogEntry)
    requires WritesOnly(writes) && last.action.CategoryComplete?
    ensures Starts(kept + [StartEntry(c)] + writes + [last]) == Starts(kept) + [c]
    ensures CategoryEntriesOnly(kept) ==> CategoryEntriesOnly(kept + [StartEntry(c)] + writes + [last])
  {
    StartsOfWrites(writes);
    StartsAppend(kept, [StartEntry(c)]);
    StartsAppend(kept + [StartEntry(c)], writes);
    StartsAppend(kept + [StartEntry(c)] + writes, [last]);
    assert Starts([StartEntry(c)]) == [c];
    assert Starts([last]) == [];
  }

  /** One category method adds exactly one start entry, its own, to the log it keeps. */
  lemma CategoryStarts(f: Faults, st: EngineState, c: Category)
    ensures var log, kept := RunCategorySpec(f, st, c).state.log, if c == Services then [] else st.log;
      Starts(log) == Starts(kept) + [c]
  {
    var kept := if c == Services then [] else st.log;
    var b := RunTweaks(f, st.values, Catalog(c));
    RunTweaksLogsWrites(f, st.values, Catalog(c));
    CategoryLogStarts(kept, c, b.entries, CompleteEntry(c, b.successes, |Catalog(c)|));
  }

  /** One category method adds no run-start and no run-finished entry. */
  lemma CategoryEntryKinds(f: Faults, st: EngineState, c: Category)
    requires c == Services || CategoryEntriesOnly(st.log)
    ensures CategoryEntriesOnly(RunCategorySpec(f, st, c).state.log)
  {
    var kept := if c == Services then [] else st.log;
    var b := RunTweaks(f, st.values, Catalog(c));
    RunTweaksLogsWrites(f, st.values, Catalog(c));
    CategoryLogStarts(kept, c, b.entries, CompleteEntry(c, b.successes, |Catalog(c)|));
  }

  /** Some tweak of some category's catalog succeeds. */
  predicate AnyTweakSucceeds(f: Faults) {
    exists c: Category, i :: 0 <= i < |Catalog(c)| && Succeeds(f, Catalog(c)[i])
  }

  /**
   * The overall flag is the OR of the five category flags, so a full run succeeds
   * exactly when a single tweak anywhere in the catalog succeeds.
   */
  lemma CompleteSuccessIff(f: Faults, values: map<Setting, RegValue>)
    ensures var r := RunsOf(f, values);
      CompleteSpec(f, values).success
      == (r.services.success || r.visual.success || r.network.success || r.gaming.success || r.telemetry.success)
    ensures CompleteSpec(f, values).success <==> AnyTweakSucceeds(f)
  {
    var r := RunsOf(f, values);
    CategorySuccessIff(f, EngineState(values, [RunStartEntry]), Services);
    CategorySuccessIff(f, r.services.state, VisualEffects);
    CategorySuccessIff(f, r.visual.state, Network);
    CategorySuccessIff(f, r.network.state, Gaming);
    CategorySuccessIff(f, r.gaming.state, Telemetry);
    if AnyTweakSucceeds(f) {
      var c: Category, i :| 0 <= i < |Catalog(c)| && Succeeds(f, Catalog(c)[i]);
      match c
      case Services =>
      case VisualEffects =>
      case Network =>
      case Gaming =>
      case Telemetry =>
    }
  }

  /**
   * The report: the troubleshooting block exactly when the run failed, the
   * celebration block exactly when it succeeded, and last the log as the five
   * categories left it; the finished entry is logged after that snapshot.
   */
  lemma CompleteReport(f: Faults, values: map<Setting, RegValue>)
    ensures var r := CompleteSpec(f, values);
      var snapshot := RunsOf(f, values).telemetry.state.log;
      && (Troubleshooting in r.report <==> !r.success)
      && (Celebration in r.report <==> r.success)
      && r.report[|r.report| - 1] == LogText(snapshot)
      && r.log == snapshot + [FinishedEntry(r.success)]
  {
    var r := RunsOf(f, values);
    var results := Results(r.services.success, r.visual.success, r.network.success, r.gaming.success, r.telemetry.success);
    ReportBlocks(results, r.telemetry.state.log);
  }

  lemma ReportBlocks(results: Results, snapshot: seq<LogEntry>)
    ensures var report := ReportFor(results, snapshot);
      && (Troubleshooting in report <==> !results.Overall())
      && (Celebration in report <==> results.Overall())
      && report[|report| - 1] == LogText(snapshot)
  {
    var report := ReportFor(results, snapshot);
    if results.Overall() {
      assert report[7] == Celebration;
      assert forall i :: 0 <= i < |report| ==> report[i] != Troubleshooting;
    } else {
      assert report[7] == Troubleshooting;
      assert forall i :: 0 <= i < |report| ==> report[i] != Celebration;
    }
  }

  /**
   * The snapshot in the report holds the five categories' entries and neither the
   * run's start entry (OptimizeServices cleared the log after it was written) nor
   * its finished entry.
   */
  lemma CompleteSnapshot(f: Faults, values: map<Setting, RegValue>)
    ensures var snapshot := RunsOf(f, values).telemetry.state.log;
      && CategoryEntriesOnly(snapshot)
      && RunStartEntry !in snapshot
      && (forall success :: FinishedEntry(success) !in snapshot)
  {
    var r := RunsOf(f, values);
    CategoryEntryKinds(f, EngineState(values, [RunStartEntry]), Services);
    CategoryEntryKinds(f, r.services.state, VisualEffects);
    CategoryEntryKinds(f, r.visual.state, Network);
    CategoryEntryKinds(f, r.network.state, Gaming);
    CategoryEntryKinds(f, r.gaming.state, Telemetry);
  }

  /** The snapshot holds the categories' entries in the order Services, VisualEffects, Network, Gaming, Telemetry. */
  lemma CompleteSnapshotOrder(f: Faults, values: map<Setting, RegValue>)
    ensures Starts(RunsOf(f, values).telemetry.state.log) == RunOrder
  {
    var r := RunsOf(f, values);
    CategoryStarts(f, EngineState(values, [RunStartEntry]), Services);
    CategoryStarts(f, r.services.state, VisualEffects);
    CategoryStarts(f, r.visual.state, Network);
    CategoryStarts(f, r.network.state, Gaming);
    CategoryStarts(f, r.gaming.state, Telemetry);
    assert Starts([]) == [];
    StartsChain(Starts(r.services.state.log), Starts(r.visual.state.log), Starts(r.network.state.log),
                Starts(r.gaming.state.log), Starts(r.telemetry.state.log));
  }

  lemma StartsChain(services: seq<Category>, visual: seq<Category>, network: seq<Category>, gaming: seq<Category>,
                    telemetry: seq<Category>)
    requires services == [Services]
    requires visual == services + [VisualEffects]
    requires network == visual + [Network]
    requires gaming == network + [Gaming]
    requires telemetry == gaming + [Telemetry]
    ensures telemetry == RunOrder
  {
  }

  // ------------------------------------------------------------- the status check

  /** GOOD means the value reads back as the text "0": a DWord 0 or the string "0". */
  lemma IsGoodIff(v: Option<RegValue>)
    ensures IsGood(v) <==> v == Some(DWord(0)) || v == Some(Sz("0"))
  {
    if v.Some? && v.value.DWord? {
      IntToStringZero(v.value.n);
    }
  }

  /** How many of items are read before the first one whose read-only open throws. */
  function FirstDenied(f: Faults, items: seq<StatusItem>): (k: nat)
    ensures k <= |items|
    decreases |items|
  {
    if items == [] || StatusSetting(items[0]).path in f.readDenied then 0 else 1 + FirstDenied(f, items[1..])
  }

  /**
   * The checks stop at the first read that throws: one line per item read before
   * it, classified from the hive's value, then the error line instead of the TIP
   * line; with no failure, one line per item and the TIP line.
   */
  lemma {:induction false} ChecksFromShape(f: Faults, values: map<Setting, RegValue>, items: seq<StatusItem>)
    ensures var lines, k := ChecksFrom(f, values, items), FirstDenied(f, items);
      && |lines| == k + 1
      && (forall i :: 0 <= i < k ==> lines[i] == Check(items[i], IsGood(Lookup(values, StatusSetting(items[i])))))
      && lines[k] == if k == |items| then Tip else StatusError(ReadDenied(StatusSetting(items[k]).path))
    decreases |items|
  {
    if items != [] && StatusSetting(items[0]).path !in f.readDenied {
      ChecksFromShape(f, values, items[1..]);
    }
  }

  ghost predicate StatusPathsOpen(f: Faults) {
    forall item: StatusItem :: StatusSetting(item).path !in f.readDenied + f.writeDenied + f.noKey
  }

  /** A category method leaves alone every setting its catalog does not target. */
  lemma CategoryKeeps(f: Faults, st: EngineState, c: Category, s: Setting)
    requires forall i :: 0 <= i < |Catalog(c)| ==> Catalog(c)[i].setting != s
    ensures Lookup(RunCategorySpec(f, st, c).state.values, s) == Lookup(st.values, s)
  {
    RunTweaksUntouched(f, st.values, Catalog(c), s);
  }

  /** OptimizeVisualEffects writes EnableTransparency=0 when the key can be opened for writing. */
  lemma TransparencyWritten(f: Faults, values: map<Setting, RegValue>)
    requires StatusSetting(Transparency).path !in f.writeDenied + f.noKey
    ensures Lookup(RunsOf(f, values).visual.state.values, StatusSetting(Transparency)) == Some(DWord(0))
  {
    var r := RunsOf(f, values);
    RunTweaksLastWrite(f, r.services.state.values, Catalog(VisualEffects), 1);
  }

  /** The three categories run after VisualEffects leave EnableTransparency alone. */
  lemma TransparencyKept(f: Faults, values: map<Setting, RegValue>)
    ensures var r := RunsOf(f, values);
      Lookup(r.telemetry.state.values, StatusSetting(Transparency)) == Lookup(r.visual.state.values, StatusSetting(Transparency))
  {
    var r, s := RunsOf(f, values), StatusSetting(Transparency);
    CategoryKeeps(f, r.visual.state, Network, s);
    CategoryKeeps(f, r.network.state, Gaming, s);
    CategoryKeeps(f, r.gaming.state, Telemetry, s);
  }

  /** The three settings the status check reads are written with 0 by a full run that may write them. */
  lemma TransparencyAfterRun(f: Faults, values: map<Setting, RegValue>)
    requires StatusSetting(Transparency).path !in f.writeDenied + f.noKey
    ensures Lookup(RunsOf(f, values).telemetry.state.values, StatusSetting(Transparency)) == Some(DWord(0))
  {
    TransparencyWritten(f, values);
    TransparencyKept(f, values);
  }

  lemma GameDvrAfterRun(f: Faults, values: map<Setting, RegValue>)
    requires StatusSetting(XboxGameDvr).path !in f.writeDenied + f.noKey
    ensures Lookup(RunsOf(f, values).telemetry.state.values, StatusSetting(XboxGameDvr)) == Some(DWord(0))
  {
    var r := RunsOf(f, values);
    // Written by Gaming, untouched by Telemetry.
    RunTweaksLastWrite(f, r.network.state.values, Catalog(Gaming), 1);
    CategoryKeeps(f, r.gaming.state, Telemetry, StatusSetting(XboxGameDvr));
  }

  lemma TelemetryPolicyAfterRun(f: Faults, values: map<Setting, RegValue>)
    requires StatusSetting(TelemetryPolicy).path !in f.writeDenied + f.noKey
    ensures Lookup(RunsOf(f, values).telemetry.state.values, StatusSetting(TelemetryPolicy)) == Some(DWord(0))
  {
    var r := RunsOf(f, values);
    // Written first by Telemetry, not overridden by its other two tweaks.
    RunTweaksLastWrite(f, r.gaming.state.values, Catalog(Telemetry), 0);
  }

  /**
   * After a full run on a hive that lets the engine read and write the three
   * settings the status check looks at, all three read GOOD.
   */
  lemma StatusAfterCompleteRun(f: Faults, values: map<Setting, RegValue>)
    requires StatusPathsOpen(f)
    ensures InspectSpec(f, CompleteSpec(f, values).values)
         == [StatusTitle, Check(XboxGameDvr, true), Check(TelemetryPolicy, true), Check(Transparency, true), Tip]
  {
    var r := RunsOf(f, values);
    var after := r.telemetry.state.values;
    assert StatusSetting(XboxGameDvr).path !in f.readDenied + f.writeDenied + f.noKey;
    assert StatusSetting(TelemetryPolicy).path !in f.readDenied + f.writeDenied + f.noKey;
    assert StatusSetting(Transparency).path !in f.readDenied + f.writeDenied + f.noKey;
    GameDvrAfterRun(f, values);
    TelemetryPolicyAfterRun(f, values);
    TransparencyAfterRun(f, values);
    IsGoodIff(Lookup(after, StatusSetting(XboxGameDvr)));
    IsGoodIff(Lookup(after, StatusSetting(TelemetryPolicy)));
    IsGoodIff(Lookup(after, StatusSetting(Transparency)));
    ChecksFromShape(f, after, StatusItems);
    assert FirstDenied(f, StatusItems) == 3;
  }
}
