/**
 * What one run of `start` does, stated over the specification `Cli.Run`:
 * which device is selected, which flags end the run where, when the bridge
 * is asked to connect or install and with what, and how the settings file
 * evolves.
 *
 * The proofs go step by step.  An allowance names the kinds of action a
 * trace may hold, the argument every `connect` and every `install` must be
 * given, and the programs its bridge commands may run.  Each step of the run
 * is shown to keep a trace within any allowance that admits the actions of
 * that step, so a whole run stays within the allowance its flags determine.
 */
module StartProperties {
  import opened ConfigStore
  import opened DeviceList
  import opened DeviceSelect
  import opened Cli

  datatype Kind = KWrite | KDownload | KList | KConnect | KShow | KHold | KMessage | KInstall | KFail

  function KindOf(a: Action): Kind
  {
    match a
    case WriteConfig(_) => KWrite
    case Download => KDownload
    case ListDevices(_) => KList
    case Connect(_, _) => KConnect
    case Show(_) => KShow
    case HoldOn => KHold
    case Message(_) => KMessage
    case Install(_, _) => KInstall
    case Fail(_) => KFail
  }

  /** The bridge is asked to connect or to install. */
  predicate Commands(a: Action)
  {
    a.Connect? || a.Install?
  }

  /** A bridge command of any kind. */
  predicate UsesBridge(a: Action)
  {
    a.ListDevices? || a.Connect? || a.Install?
  }

  /** The program a bridge command runs. */
  function ToolOf(a: Action): Option<Json>
  {
    match a
    case ListDevices(tool) => tool
    case Connect(tool, _) => tool
    case Install(tool, _) => tool
    case _ => None
  }

  function Last(trace: seq<Action>): Action
    requires |trace| > 0
  {
    trace[|trace| - 1]
  }

  // ---------------------------------------------------------------------------
  // What a trace may hold

  /**
   * An allowance: the kinds of action permitted, the argument every `connect`
   * and every `install` must be given, and the programs bridge commands may run.
   */
  datatype Allowance = Allowance(kinds: set<Kind>, connect: string, install: string, tools: set<Option<Json>>)

  predicate Allowed(a: Action, b: Allowance)
  {
    && KindOf(a) in b.kinds
    && (a.Connect? ==> a.target == b.connect)
    && (a.Install? ==> a.target == b.install)
    && (UsesBridge(a) ==> ToolOf(a) in b.tools)
  }

  /** Every action of the trace is allowed (checked from the last action back). */
  predicate Fits(trace: seq<Action>, b: Allowance)
  {
    |trace| == 0 || (Fits(trace[..|trace| - 1], b) && Allowed(trace[|trace| - 1], b))
  }

  /** A trace fits exactly when each of its actions is allowed. */
  lemma {:induction false} FitsAll(trace: seq<Action>, b: Allowance)
    ensures Fits(trace, b) <==> forall a :: a in trace ==> Allowed(a, b)
  {
    if |trace| > 0 {
      var init := trace[..|trace| - 1];
      FitsAll(init, b);
      assert trace == init + [trace[|trace| - 1]];
    }
  }

  lemma EmitFits(s: State, a: Action, b: Allowance)
    ensures Fits(s.trace, b) && Allowed(a, b) ==> Fits(Emit(s, a).trace, b)
  {
    assert Emit(s, a).trace[..|s.trace|] == s.trace;
  }

  // ---------------------------------------------------------------------------
  // The steps

  lemma LoadFacts(s: State)
    ensures LoadStep(s).0.selected == s.selected && LoadStep(s).0.devices == s.devices
    ensures LoadStep(s).1 <==> !s.file.Malformed?
    ensures LoadStep(s).1 ==>
      && LoadStep(s).0.file.Stored?
      && LoadStep(s).0.current == GetSettings(s.file).value.current
      && LoadStep(s).0.file.contents == LoadStep(s).0.current
  {
  }

  lemma LoadFits(s: State, b: Allowance)
    ensures Fits(s.trace, b) && KWrite in b.kinds && KFail in b.kinds ==> Fits(LoadStep(s).0.trace, b)
  {
    match s.file
    case Malformed => EmitFits(s, Fail(ConfigUnreadable), b);
    case Stored(_) => assert s.trace + Writes([]) == s.trace;
    case Absent =>
      assert Writes([Default]) == [WriteConfig(Default)];
      EmitFits(s, WriteConfig(Default), b);
  }

  lemma UpdateFacts(s: State, incoming: Config)
    ensures UpdateStep(s, incoming).0.selected == s.selected && UpdateStep(s, incoming).0.devices == s.devices
    ensures UpdateStep(s, incoming).1 <==> !s.file.Malformed?
  {
    LoadFacts(s);
  }

  lemma UpdateFits(s: State, incoming: Config, b: Allowance)
    ensures Fits(s.trace, b) && KWrite in b.kinds && KFail in b.kinds ==> Fits(UpdateStep(s, incoming).0.trace, b)
  {
    var (t, ok, stored) := LoadStep(s);
    LoadFits(s, b);
    if ok {
      EmitFits(t, WriteConfig(Merge(stored, incoming)), b);
    }
  }

  /**
   * `updateConfing` on the run's state does to the file what the store
   * specifies, and leaves `currentConfig` at the object read before the write.
   */
  lemma UpdateStepIsStoreUpdate(s: State, incoming: Config)
    requires !s.file.Malformed?
    ensures UpdateStep(s, incoming).1
    ensures UpdateStep(s, incoming).0.file == FileAfterUpdate(s.file, incoming)
    ensures UpdateStep(s, incoming).0.current == GetSettings(s.file).value.current
  {
  }

  /**
   * The reuse test of `downloadTools`: the state is left exactly as it was
   * (no download, no write) and the cached path returned iff the run is not
   * forced, the cached `adbPath` is truthy and it exists on disk.  Otherwise,
   * when the download succeeds, `<dir>/adb.exe` is both returned and written
   * to the file under `adbPath`.
   */
  lemma ToolReuse(s: State, force: bool, env: Environment)
    ensures var (t, ok, path) := DownloadStep(s, force, env);
      ReuseCached(force, Tool(s), env.toolExists) <==> (t == s && ok && path == Tool(s))
    ensures var (t, ok, path) := DownloadStep(s, force, env);
      !ReuseCached(force, Tool(s), env.toolExists) && env.provisioned.Some? && !s.file.Malformed? ==>
        && ok
        && path == Some(JText(AdbExe(env.provisioned.value)))
        && t.file.Stored?
        && Lookup(t.file.contents, AdbPathKey) == path
  {
    if !ReuseCached(force, Tool(s), env.toolExists) {
      var t := Emit(s, Download);
      assert |DownloadStep(s, force, env).0.trace| > |s.trace|;
      if env.provisioned.Some? && !s.file.Malformed? {
        var update := map[AdbPathKey := JText(AdbExe(env.provisioned.value))];
        UpdateStepIsStoreUpdate(t, update);
        UpdateStored(GetSettings(s.file).value.current, update);
      }
    }
  }

  lemma DownloadFacts(s: State, force: bool, env: Environment)
    ensures DownloadStep(s, force, env).0.selected == s.selected
    ensures DownloadStep(s, force, env).0.devices == s.devices
    ensures s.file.Stored? && env.provisioned.Some? ==>
      && DownloadStep(s, force, env).1
      && DownloadStep(s, force, env).0.file.Stored?
      && DownloadStep(s, force, env).0.current == (if ReuseCached(force, Tool(s), env.toolExists) then s.current
         else GetSettings(s.file).value.current)
  {
    if !ReuseCached(force, Tool(s), env.toolExists) && env.provisioned.Some? {
      UpdateFacts(Emit(s, Download), map[AdbPathKey := JText(AdbExe(env.provisioned.value))]);
    }
  }

  lemma DownloadFits(s: State, force: bool, env: Environment, b: Allowance)
    ensures Fits(s.trace, b) && KDownload in b.kinds && KWrite in b.kinds && KFail in b.kinds ==>
      Fits(DownloadStep(s, force, env).0.trace, b)
  {
    if !ReuseCached(force, Tool(s), env.toolExists) {
      var t := Emit(s, Download);
      EmitFits(s, Download, b);
      match env.provisioned
      case None => EmitFits(t, Fail(DownloadFailed), b);
      case Some(dir) => UpdateFits(t, map[AdbPathKey := JText(AdbExe(dir))], b);
    }
  }

  /**
   * After the first half of `start`: the run goes on exactly when the file
   * was readable and the bridge is there; the selected device is `-d` or the
   * stored one, and `currentConfig` is the object read at the start.
   */
  lemma PrepareFacts(inv: Invocation, env: Environment, s: State)
    ensures Prepare(inv, env, s).0.devices == s.devices
    ensures Prepare(inv, env, s).1 ==>
      && !s.file.Malformed?
      && Prepare(inv, env, s).0.selected == ChooseDevice(inv.device, GetSettings(s.file).value.current)
    ensures !s.file.Malformed? && env.provisioned.Some? ==>
      && Prepare(inv, env, s).1
      && Prepare(inv, env, s).0.file.Stored?
      && Prepare(inv, env, s).0.current == GetSettings(s.file).value.current
  {
    var s1 := LoadStep(s).0;
    LoadFacts(s);
    if LoadStep(s).1 {
      var s2 := s1.(selected := ChooseDevice(inv.device, s1.current));
      DownloadFacts(s2, inv.force, env);
      assert GetSettings(s2.file).value.current == s2.current;
    }
  }

  lemma PrepareFits(inv: Invocation, env: Environment, s: State, b: Allowance)
    ensures Fits(s.trace, b) && KDownload in b.kinds && KWrite in b.kinds && KFail in b.kinds ==>
      Fits(Prepare(inv, env, s).0.trace, b)
  {
    var s1 := LoadStep(s).0;
    LoadFits(s, b);
    if LoadStep(s).1 {
      DownloadFits(s1.(selected := ChooseDevice(inv.device, s1.current)), inv.force, env, b);
    }
  }

  lemma ListFacts(s: State, env: Environment)
    ensures ListStep(s, env).0.file == s.file && ListStep(s, env).0.current == s.current
    ensures ListStep(s, env).0.selected == s.selected
    ensures ListStep(s, env).1 <==> env.listing.Exited?
    ensures ListStep(s, env).1 ==> ListStep(s, env).2 == ParseDevices(env.listing.stdout)
    ensures s.trace <= ListStep(s, env).0.trace
  {
  }

  lemma ListFits(s: State, env: Environment, b: Allowance)
    ensures Fits(s.trace, b) && KList in b.kinds && KFail in b.kinds && Tool(s) in b.tools ==>
      Fits(ListStep(s, env).0.trace, b)
  {
    var t := Emit(s, ListDevices(Tool(s)));
    EmitFits(s, ListDevices(Tool(s)), b);
    EmitFits(t, Fail(BridgeFailed), b);
  }

  lemma ShowAllFacts(s: State, env: Environment)
    ensures ShowAllStep(s, env).0.file == s.file && ShowAllStep(s, env).0.current == s.current
    ensures ShowAllStep(s, env).1 <==> env.listing.Exited?
    ensures s.trace <= ShowAllStep(s, env).0.trace
  {
    ListFacts(s, env);
  }

  lemma ShowAllFits(s: State, env: Environment, b: Allowance)
    ensures (Fits(s.trace, b) && KList in b.kinds && KShow in b.kinds && KHold in b.kinds && KFail in b.kinds
      && Tool(s) in b.tools) ==> Fits(ShowAllStep(s, env).0.trace, b)
  {
    var (t, ok, list) := ListStep(s, env);
    ListFits(s, env, b);
    ShowHoldFits(t, Listing(t.selected, list), b);
  }

  /** Showing the entries and waiting for a key keeps a trace within an allowance that admits both. */
  lemma ShowHoldFits(t: State, entries: seq<Entry>, b: Allowance)
    ensures Fits(t.trace, b) && KShow in b.kinds && KHold in b.kinds ==>
      Fits(Emit(Emit(t, Show(entries)), HoldOn).trace, b)
  {
    EmitFits(t, Show(entries), b);
    EmitFits(Emit(t, Show(entries)), HoldOn, b);
  }

  lemma DeviceFlagFacts(s: State, device: string, env: Environment)
    ensures DeviceFlagStep(s, device, env).0.selected == s.selected
    ensures DeviceFlagStep(s, device, env).0.devices == s.devices
    ensures DeviceFlagStep(s, device, env).1 <==> env.connecting.Exited?
    ensures |s.trace| < |DeviceFlagStep(s, device, env).0.trace|
    ensures DeviceFlagStep(s, device, env).0.trace[|s.trace|] == Connect(Tool(s), ArrayText(s.devices))
    ensures env.connecting.Exited? && !s.file.Malformed? ==>
      && DeviceFlagStep(s, device, env).0.file.Stored?
      && Lookup(DeviceFlagStep(s, device, env).0.file.contents, DeviceKey) == Some(JText(device))
  {
    var t := Emit(s, Connect(Tool(s), ArrayText(s.devices)));
    if env.connecting.Exited? {
      var update := map[DeviceKey := JText(device)];
      UpdateFacts(t, update);
      LoadFacts(t);
      if !s.file.Malformed? {
        UpdateStepIsStoreUpdate(t, update);
        UpdateStored(GetSettings(s.file).value.current, update);
      }
    }
  }

  lemma DeviceFlagFits(s: State, device: string, env: Environment, b: Allowance)
    ensures (Fits(s.trace, b) && KConnect in b.kinds && KWrite in b.kinds && KFail in b.kinds
      && b.connect == ArrayText(s.devices) && Tool(s) in b.tools) ==> Fits(DeviceFlagStep(s, device, env).0.trace, b)
  {
    var a := Connect(Tool(s), ArrayText(s.devices));
    var t := Emit(s, a);
    EmitFits(s, a, b);
    if env.connecting.Failed? {
      EmitFits(t, Fail(BridgeFailed), b);
    } else {
      UpdateFits(t, map[DeviceKey := JText(device)], b);
    }
  }

  /** The kinds of action the install flow may add, given the number of targets. */
  function FlowKinds(targets: seq<string>): set<Kind>
  {
    {KList, KMessage, KShow, KHold, KFail} + (if |targets| == 1 then {KInstall} else {})
  }

  /** `b` allows the actions of the ambiguous-device branch, run with `tool`. */
  predicate AllowsAsking(b: Allowance, tool: Option<Json>)
  {
    KList in b.kinds && KMessage in b.kinds && KShow in b.kinds && KHold in b.kinds && KFail in b.kinds
    && tool in b.tools
  }

  /** `b` allows every action the install flow may add, run with `tool`. */
  predicate AllowsFlow(b: Allowance, targets: seq<string>, tool: Option<Json>)
    requires |targets| > 0
  {
    AllowsAsking(b, tool) && (|targets| == 1 ==> KInstall in b.kinds) && b.install == targets[0]
  }

  lemma AskFacts(s: State, env: Environment)
    ensures AskForDevice(s, env).file == s.file
    ensures s.trace <= AskForDevice(s, env).trace
  {
    ShowAllFacts(Emit(s, Message("More than one device connected")), env);
  }

  lemma AskFits(s: State, env: Environment, b: Allowance)
    ensures Fits(s.trace, b) && AllowsAsking(b, Tool(s)) ==> Fits(AskForDevice(s, env).trace, b)
  {
    var m := Emit(s, Message("More than one device connected"));
    EmitFits(s, Message("More than one device connected"), b);
    assert Tool(m) == Tool(s);
    ShowAllFits(m, env, b);
    EmitFits(ShowAllStep(m, env).0, Fail(PromptUnavailable), b);
  }

  /**
   * Past the selection the run prints the first listed device (or
   * `undefined`), then either refuses several targets or installs the only
   * one with the current tool.
   */
  lemma ProceedFacts(s: State, targets: seq<string>)
    requires |targets| > 0
    ensures Proceed(s, targets).file == s.file
    ensures s.trace <= Proceed(s, targets).trace
    ensures |Proceed(s, targets).trace| == |s.trace| + 2
    ensures Proceed(s, targets).trace[|s.trace|] == Message("Device connected: " + FirstOrUndefined(s.devices))
    ensures |targets| > 1 ==> Last(Proceed(s, targets).trace) == Message("Only one target is allowed")
    ensures |targets| == 1 ==> Last(Proceed(s, targets).trace) == Install(Tool(s), targets[0])
  {
  }

  lemma ProceedFits(s: State, targets: seq<string>, b: Allowance)
    requires |targets| > 0
    ensures (Fits(s.trace, b) && KMessage in b.kinds && (|targets| == 1 ==> KInstall in b.kinds)
      && b.install == targets[0] && Tool(s) in b.tools) ==> Fits(Proceed(s, targets).trace, b)
  {
    var m := Message("Device connected: " + FirstOrUndefined(s.devices));
    var t := Emit(s, m);
    EmitFits(s, m, b);
    var last := if |targets| > 1 then Message("Only one target is allowed") else Install(Tool(t), targets[0]);
    EmitFits(t, last, b);
  }

  /** The install flow writes nothing and keeps what the trace already held. */
  lemma InstallFlowFacts(s: State, targets: seq<string>, env: Environment)
    requires |targets| > 0
    ensures InstallFlow(s, targets, env).file == s.file
    ensures s.trace <= InstallFlow(s, targets, env).trace
  {
    var (t, ok, list) := ListStep(s, env);
    ListFacts(s, env);
    if ok {
      var u := t.(devices := list);
      AskFacts(u, env);
      ProceedFacts(u, targets);
    }
  }

  /**
   * The install flow installs only with exactly one target and then only that
   * target, and runs every bridge command with the state's tool.
   */
  lemma InstallFlowFits(s: State, targets: seq<string>, env: Environment, b: Allowance)
    requires |targets| > 0
    ensures Fits(s.trace, b) && AllowsFlow(b, targets, Tool(s)) ==> Fits(InstallFlow(s, targets, env).trace, b)
  {
    var (t, ok, list) := ListStep(s, env);
    ListFits(s, env, b);
    if ok {
      var u := t.(devices := list);
      assert u.trace == t.trace && Tool(u) == Tool(s);
      EmitFits(u, Message("No device connected"), b);
      AskFits(u, env, b);
      ProceedFits(u, targets, b);
    }
  }

  /** Without a selected device and with other than one listed device, the install flow only lists and reports. */
  lemma InstallFlowNoInstall(s: State, targets: seq<string>, env: Environment, out: seq<string>, b: Allowance)
    requires |targets| > 0 && env.listing == Exited(out)
    requires !Truthy(s.selected) && |ParseDevices(out)| != 1
    ensures Fits(s.trace, b) && AllowsAsking(b, Tool(s)) ==> Fits(InstallFlow(s, targets, env).trace, b)
  {
    var (t, ok, list) := ListStep(s, env);
    ListFits(s, env, b);
    var u := t.(devices := list);
    EmitFits(u, Message("No device connected"), b);
    AskFits(u, env, b);
  }

  /** The install flow on a state with the given device list and selection. */
  lemma InstallFlowOutcome(s: State, targets: seq<string>, env: Environment, out: seq<string>)
    requires |targets| > 0 && env.listing == Exited(out)
    ensures var r := InstallFlow(s, targets, env);
      && |r.trace| > 0
      && (!Truthy(s.selected) && ParseDevices(out) == [] ==> Last(r.trace) == Message("No device connected"))
      && (!Truthy(s.selected) ==> (Last(r.trace) == Fail(PromptUnavailable) <==> |ParseDevices(out)| > 1))
      && ((Truthy(s.selected) || |ParseDevices(out)| == 1) ==>
          && |r.trace| >= 2
          && r.trace[|r.trace| - 2] == Message("Device connected: " + FirstOrUndefined(ParseDevices(out)))
          && (|targets| == 1 ==> Last(r.trace) == Install(Tool(s), targets[0]))
          && (|targets| > 1 ==> Last(r.trace) == Message("Only one target is allowed")))
  {
    ListFacts(s, env);
    var (t, ok, list) := ListStep(s, env);
    ProceedFacts(t.(devices := list), targets);
  }

  // ---------------------------------------------------------------------------
  // Whole runs

  /** The kinds of action a run may hold, from its flags. */
  function RunKinds(inv: Invocation): set<Kind>
  {
    if inv.list then {KDownload, KWrite, KFail, KList, KShow, KHold}
    else {KDownload, KWrite, KFail, KConnect} + (if |inv.targets| > 0 then FlowKinds(inv.targets) else {})
  }

  function FirstTarget(targets: seq<string>): string
  {
    if |targets| > 0 then targets[0] else ""
  }

  /**
   * The programs a run's bridge commands may run: `currentConfig.adbPath` once
   * the settings are loaded, and with `-d` also its value after the update
   * that stores the device reloads the settings.
   */
  function RunTools(inv: Invocation, env: Environment, f: FileState): set<Option<Json>>
  {
    var t := Prepare(inv, env, Initial(f)).0;
    if inv.device == "" then {Tool(t)} else {Tool(t), Tool(DeviceFlagStep(t, inv.device, env).0)}
  }

  /**
   * The second half of `start`, from a prepared state whose `devices` is still
   * empty, stays within a run's allowance when that allowance admits the
   * state's tool and, with `-d`, the tool after the device is stored.
   */
  lemma DispatchFits(inv: Invocation, env: Environment, t: State, b: Allowance)
    requires b.kinds == RunKinds(inv) && b.connect == "" && b.install == FirstTarget(inv.targets)
    requires t.devices == [] && Tool(t) in b.tools
    requires inv.device != "" ==> Tool(DeviceFlagStep(t, inv.device, env).0) in b.tools
    ensures Fits(t.trace, b) ==> Fits(Dispatch(inv, env, t).trace, b)
  {
    if inv.list {
      ShowAllFits(t, env, b);
    } else {
      var (u, connected) := if inv.device != "" then DeviceFlagStep(t, inv.device, env) else (t, true);
      if inv.device != "" {
        assert ArrayText(t.devices) == "";
        DeviceFlagFits(t, inv.device, env, b);
      }
      if connected && |inv.targets| > 0 {
        InstallFlowFits(u, inv.targets, env, b);
      }
    }
  }

  /**
   * Every run holds only the kinds of action its flags allow; every `connect`
   * is given the empty argument, every `install` the first target, and every
   * bridge command runs one of the run's tools.
   */
  lemma RunShape(inv: Invocation, env: Environment, f: FileState)
    ensures Fits(Run(inv, env, f).trace, Allowance(RunKinds(inv), "", FirstTarget(inv.targets), RunTools(inv, env, f)))
  {
    var s := Initial(f);
    var b := Allowance(RunKinds(inv), "", FirstTarget(inv.targets), RunTools(inv, env, f));
    var (t, ready) := Prepare(inv, env, s);
    assert Fits(s.trace, b);
    PrepareFits(inv, env, s, b);
    PrepareFacts(inv, env, s);
    if ready {
      DispatchFits(inv, env, t, b);
      assert Run(inv, env, f) == Dispatch(inv, env, t);
    }
  }

  // ---------------------------------------------------------------------------
  // Selection

  /** The part of `start` after provisioning never calls the downloader. */
  lemma DispatchIgnoresDownloader(inv: Invocation, env: Environment, t: State, p: Option<string>)
    ensures Dispatch(inv, env, t) == Dispatch(inv, env.(provisioned := p), t)
  {
  }

  /**
   * When the cached bridge is reused the downloader is never called, so a run
   * is the same whatever the downloader would have done.  The run-level
   * lemmas below that assume a working downloader therefore cover every run
   * that reuses the cached bridge too.
   */
  lemma DownloaderUnusedWhenCached(inv: Invocation, env: Environment, f: FileState, dir: string)
    requires !f.Malformed?
    requires ReuseCached(inv.force, Lookup(GetSettings(f).value.current, AdbPathKey), env.toolExists)
    ensures Run(inv, env, f) == Run(inv, env.(provisioned := Some(dir)), f)
  {
    var s := Initial(f);
    var working := env.(provisioned := Some(dir));
    PrepareFacts(inv, env, s);
    assert Prepare(inv, env, s) == Prepare(inv, working, s);
    DispatchIgnoresDownloader(inv, env, Prepare(inv, env, s).0, Some(dir));
  }

  /**
   * The device a run works with is the `-d` value when one is given, and
   * otherwise the `device` stored in the settings file (none for a new file).
   */
  lemma SelectedDevice(inv: Invocation, env: Environment, f: FileState)
    requires !f.Malformed? && env.provisioned.Some?
    ensures Prepare(inv, env, Initial(f)).1
    ensures inv.device != "" ==> Prepare(inv, env, Initial(f)).0.selected == Some(JText(inv.device))
    ensures inv.device == "" && f.Stored? ==> Prepare(inv, env, Initial(f)).0.selected == Lookup(f.contents, DeviceKey)
    ensures inv.device == "" && f.Absent? ==> Prepare(inv, env, Initial(f)).0.selected == None
  {
    PrepareFacts(inv, env, Initial(f));
  }

  // ---------------------------------------------------------------------------
  // Dispatch

  /** A trace that fits a `-l` run's allowance neither commands the bridge nor prints a message. */
  lemma ListRunKinds(inv: Invocation, trace: seq<Action>, b: Allowance)
    requires inv.list && b.kinds == RunKinds(inv) && Fits(trace, b)
    ensures forall a :: a in trace ==> !Commands(a) && !a.Message?
  {
    FitsAll(trace, b);
    forall a | a in trace
      ensures !Commands(a) && !a.Message?
    {
      assert KindOf(a) in b.kinds;
    }
  }

  /** A trace that fits the allowance of a run without targets neither lists devices nor installs. */
  lemma NoTargetRunKinds(inv: Invocation, trace: seq<Action>, b: Allowance)
    requires !inv.list && |inv.targets| == 0 && b.kinds == RunKinds(inv) && Fits(trace, b)
    ensures forall a :: a in trace ==> !a.ListDevices? && !a.Install?
  {
    FitsAll(trace, b);
    forall a | a in trace
      ensures !a.ListDevices? && !a.Install?
    {
      assert KindOf(a) in b.kinds;
    }
  }

  /** In a trace that fits a run's allowance, an install needs exactly one target and is given it. */
  lemma RunInstalls(inv: Invocation, trace: seq<Action>, b: Allowance)
    requires b.kinds == RunKinds(inv) && b.install == FirstTarget(inv.targets) && Fits(trace, b)
    ensures forall a :: a in trace && a.Install? ==> !inv.list && |inv.targets| == 1 && a.target == inv.targets[0]
  {
    FitsAll(trace, b);
    forall a | a in trace && a.Install?
      ensures !inv.list && |inv.targets| == 1 && a.target == inv.targets[0]
    {
      assert Allowed(a, b);
    }
  }

  /** Every kind of action except the two that command the bridge. */
  const QuietKinds: set<Kind> := {KDownload, KWrite, KFail, KList, KMessage, KShow, KHold}

  /** A trace that fits an allowance of quiet kinds commands nothing. */
  lemma NoCommandKinds(trace: seq<Action>, b: Allowance)
    requires b.kinds == QuietKinds && Fits(trace, b)
    ensures forall a :: a in trace ==> !Commands(a)
  {
    FitsAll(trace, b);
    forall a | a in trace
      ensures !Commands(a)
    {
      assert Allowed(a, b);
    }
  }

  /** `-l` lists the devices and ends the run: no connect, no install, no message. */
  lemma ListFlagOnlyLists(inv: Invocation, env: Environment, f: FileState)
    requires inv.list
    ensures forall a :: a in Run(inv, env, f).trace ==> !Commands(a) && !a.Message?
  {
    RunShape(inv, env, f);
    ListRunKinds(inv, Run(inv, env, f).trace, Allowance(RunKinds(inv), "", FirstTarget(inv.targets), RunTools(inv, env, f)));
  }

  /** Without a positional target the run ends before the bridge lists devices or installs. */
  lemma NoTargetNoListing(inv: Invocation, env: Environment, f: FileState)
    requires !inv.list && |inv.targets| == 0
    ensures forall a :: a in Run(inv, env, f).trace ==> !a.ListDevices? && !a.Install?
  {
    RunShape(inv, env, f);
    NoTargetRunKinds(inv, Run(inv, env, f).trace, Allowance(RunKinds(inv), "", FirstTarget(inv.targets), RunTools(inv, env, f)));
  }

  /**
   * An install happens only on a run without `-l` and with exactly one
   * target, and it is given that target: never the selected device.  So more
   * than one positional target never reaches the install.
   */
  lemma InstallGetsTarget(inv: Invocation, env: Environment, f: FileState)
    ensures forall a :: a in Run(inv, env, f).trace && a.Install? ==>
      !inv.list && |inv.targets| == 1 && a.target == inv.targets[0]
  {
    RunShape(inv, env, f);
    RunInstalls(inv, Run(inv, env, f).trace, Allowance(RunKinds(inv), "", FirstTarget(inv.targets), RunTools(inv, env, f)));
  }

  /** A run with targets and without `-l` or `-d` that gets past the preparation is the install flow. */
  lemma RunIsInstallFlow(inv: Invocation, env: Environment, f: FileState)
    requires !inv.list && |inv.targets| > 0 && inv.device == ""
    requires Prepare(inv, env, Initial(f)).1
    ensures Run(inv, env, f) == InstallFlow(Prepare(inv, env, Initial(f)).0, inv.targets, env)
  {
  }

  /** Without a selected device and with other than one listed device, the prepared install flow commands nothing. */
  lemma PreparedFlowNoCommands(inv: Invocation, env: Environment, f: FileState, out: seq<string>)
    requires !inv.list && |inv.targets| > 0 && inv.device == ""
    requires f.Absent? || (f.Stored? && !Truthy(Lookup(f.contents, DeviceKey)))
    requires env.provisioned.Some? && env.listing == Exited(out) && |ParseDevices(out)| != 1
    ensures forall a :: a in InstallFlow(Prepare(inv, env, Initial(f)).0, inv.targets, env).trace ==> !Commands(a)
  {
    var s := Initial(f);
    var t := Prepare(inv, env, s).0;
    var b := Allowance(QuietKinds, "", "", {Tool(t)});
    SelectedDevice(inv, env, f);
    assert Fits(s.trace, b);
    PrepareFits(inv, env, s, b);
    PrepareFacts(inv, env, s);
    assert !Truthy(t.selected);
    InstallFlowNoInstall(t, inv.targets, env, out, b);
    NoCommandKinds(InstallFlow(t, inv.targets, env).trace, b);
  }

  /** Without a selected device and with other than one listed device, nothing is connected or installed. */
  lemma NoCommandsUnlessSelected(inv: Invocation, env: Environment, f: FileState, out: seq<string>)
    requires !inv.list && |inv.targets| > 0 && inv.device == ""
    requires f.Absent? || (f.Stored? && !Truthy(Lookup(f.contents, DeviceKey)))
    requires env.provisioned.Some? && env.listing == Exited(out) && |ParseDevices(out)| != 1
    ensures forall a :: a in Run(inv, env, f).trace ==> !Commands(a)
  {
    SelectedDevice(inv, env, f);
    PreparedFlowNoCommands(inv, env, f, out);
    RunIsInstallFlow(inv, env, f);
  }

  /**
   * With no selected device and an empty device list the run says "No device
   * connected" as its last action, and never connects or installs.
   */
  lemma NoDeviceConnected(inv: Invocation, env: Environment, f: FileState, out: seq<string>)
    requires !inv.list && |inv.targets| > 0 && inv.device == ""
    requires f.Absent? || (f.Stored? && !Truthy(Lookup(f.contents, DeviceKey)))
    requires env.provisioned.Some? && env.listing == Exited(out) && ParseDevices(out) == []
    ensures var r := Run(inv, env, f);
      && |r.trace| > 0 && Last(r.trace) == Message("No device connected")
      && forall a :: a in r.trace ==> !Commands(a)
  {
    var t := Prepare(inv, env, Initial(f)).0;
    SelectedDevice(inv, env, f);
    InstallFlowOutcome(t, inv.targets, env, out);
    NoCommandsUnlessSelected(inv, env, f, out);
  }

  /**
   * The prompt is reached exactly when there is a target, no selected device
   * and more than one listed device; it throws, so the run ends there, and
   * in that case nothing was connected or installed.
   */
  lemma PromptWhenAmbiguous(inv: Invocation, env: Environment, f: FileState, out: seq<string>)
    requires !inv.list && |inv.targets| > 0 && inv.device == ""
    requires f.Absent? || (f.Stored? && !Truthy(Lookup(f.contents, DeviceKey)))
    requires env.provisioned.Some? && env.listing == Exited(out)
    ensures var r := Run(inv, env, f);
      |r.trace| > 0 && (Last(r.trace) == Fail(PromptUnavailable) <==> |ParseDevices(out)| > 1)
    ensures |ParseDevices(out)| > 1 ==> forall a :: a in Run(inv, env, f).trace ==> !Commands(a)
  {
    var t := Prepare(inv, env, Initial(f)).0;
    SelectedDevice(inv, env, f);
    InstallFlowOutcome(t, inv.targets, env, out);
    if |ParseDevices(out)| > 1 {
      NoCommandsUnlessSelected(inv, env, f, out);
    }
  }

  /**
   * A device stored in the settings file is used without prompting, whatever
   * the number of listed devices: with one target the run ends by installing
   * it, with several by refusing them.
   */
  lemma StoredDeviceInstalls(inv: Invocation, env: Environment, c: Config, out: seq<string>)
    requires !inv.list && |inv.targets| > 0 && inv.device == ""
    requires Truthy(Lookup(c, DeviceKey))
    requires env.provisioned.Some? && env.listing == Exited(out)
    ensures var r := Run(inv, env, Stored(c));
      && |r.trace| > 0
      && (|inv.targets| == 1 ==> Last(r.trace) == Install(Lookup(c, AdbPathKey), inv.targets[0]))
      && (|inv.targets| > 1 ==> Last(r.trace) == Message("Only one target is allowed"))
  {
    var t := Prepare(inv, env, Initial(Stored(c))).0;
    SelectedDevice(inv, env, Stored(c));
    PrepareFacts(inv, env, Initial(Stored(c)));
    InstallFlowOutcome(t, inv.targets, env, out);
  }

  /**
   * Without a selected device and with exactly one listed device, the run
   * announces that device and then installs the only target with the
   * `adbPath` of the loaded settings (or refuses several targets).
   */
  lemma SingleDeviceInstalls(inv: Invocation, env: Environment, f: FileState, out: seq<string>)
    requires !inv.list && |inv.targets| > 0 && inv.device == ""
    requires f.Absent? || (f.Stored? && !Truthy(Lookup(f.contents, DeviceKey)))
    requires env.provisioned.Some? && env.listing == Exited(out) && |ParseDevices(out)| == 1
    ensures var r := Run(inv, env, f);
      && |r.trace| >= 2
      && r.trace[|r.trace| - 2] == Message("Device connected: " + ParseDevices(out)[0])
      && (|inv.targets| == 1 ==> Last(r.trace) == Install(Lookup(GetSettings(f).value.current, AdbPathKey), inv.targets[0]))
      && (|inv.targets| > 1 ==> Last(r.trace) == Message("Only one target is allowed"))
  {
    var t := Prepare(inv, env, Initial(f)).0;
    SelectedDevice(inv, env, f);
    PrepareFacts(inv, env, Initial(f));
    RunIsInstallFlow(inv, env, f);
    InstallFlowOutcome(t, inv.targets, env, out);
  }

  /**
   * `-d <id>` with targets: once connected, the named device counts as
   * selected, so after the listing the run installs the only target (or
   * refuses several) without prompting, whatever the number of listed
   * devices.  The tool is the `adbPath` of the settings file as it stood
   * before the connect, which the `-d` step reloads.
   */
  lemma DeviceFlagThenInstalls(inv: Invocation, env: Environment, f: FileState, out: seq<string>)
    requires !inv.list && inv.device != "" && |inv.targets| > 0 && !f.Malformed?
    requires env.provisioned.Some? && env.connecting.Exited? && env.listing == Exited(out)
    ensures var r := Run(inv, env, f);
      && |r.trace| > 0
      && (|inv.targets| == 1 ==>
          Last(r.trace) == Install(Lookup(Prepare(inv, env, Initial(f)).0.file.contents, AdbPathKey), inv.targets[0]))
      && (|inv.targets| > 1 ==> Last(r.trace) == Message("Only one target is allowed"))
  {
    var s := Initial(f);
    var t := Prepare(inv, env, s).0;
    PrepareFacts(inv, env, s);
    SelectedDevice(inv, env, f);
    DeviceFlagFacts(t, inv.device, env);
    var u := DeviceFlagStep(t, inv.device, env).0;
    assert Tool(u) == Lookup(t.file.contents, AdbPathKey);
    assert Run(inv, env, f) == InstallFlow(u, inv.targets, env);
    InstallFlowOutcome(u, inv.targets, env, out);
  }

  /**
   * `-d <id>` connects before anything is listed, passing the still-empty
   * module-level `devices` array (an empty argument) rather than the id, and
   * stores the id as the preferred device.
   */
  lemma DeviceFlagConnectsEmpty(inv: Invocation, env: Environment, f: FileState)
    requires !inv.list && inv.device != "" && !f.Malformed?
    requires env.provisioned.Some? && env.connecting.Exited?
    ensures var r := Run(inv, env, f);
      && (exists a :: a in r.trace && a.Connect?)
      && (forall a :: a in r.trace && a.Connect? ==> a.target == "")
      && r.file.Stored? && Lookup(r.file.contents, DeviceKey) == Some(JText(inv.device))
  {
    var s := Initial(f);
    var t := Prepare(inv, env, s).0;
    PrepareFacts(inv, env, s);
    DeviceFlagFacts(t, inv.device, env);
    var u := DeviceFlagStep(t, inv.device, env).0;
    if |inv.targets| > 0 {
      InstallFlowFacts(u, inv.targets, env);
    }
    var r := Run(inv, env, f);
    assert u.trace <= r.trace;
    assert r.trace[|t.trace|] == Connect(Tool(t), ArrayText(t.devices));
    RunShape(inv, env, f);
    FitsAll(r.trace, Allowance(RunKinds(inv), "", FirstTarget(inv.targets), RunTools(inv, env, f)));
  }

  /**
   * On the first run (no settings file) without `-d`, the bridge is
   * provisioned and its path written to the file, but `currentConfig` still
   * holds `adbPath: false`, so every bridge command of that run is issued
   * with `false` as the program.
   */
  lemma FirstRunUsesStaleTool(inv: Invocation, env: Environment, dir: string)
    requires inv.device == "" && env.provisioned == Some(dir)
    ensures var r := Run(inv, env, Absent);
      && r.file.Stored? && Lookup(r.file.contents, AdbPathKey) == Some(JText(AdbExe(dir)))
      && forall a :: a in r.trace && UsesBridge(a) ==> ToolOf(a) == Some(JBool(false))
  {
    var s := Initial(Absent);
    var t := Prepare(inv, env, s).0;
    PrepareFacts(inv, env, s);
    var s2 := LoadStep(s).0.(selected := ChooseDevice(inv.device, Default));
    ToolReuse(s2, inv.force, env);
    if inv.list {
      ShowAllFacts(t, env);
    } else if |inv.targets| > 0 {
      InstallFlowFacts(t, inv.targets, env);
    }
    RunShape(inv, env, Absent);
    FitsAll(Run(inv, env, Absent).trace, Allowance(RunKinds(inv), "", FirstTarget(inv.targets), RunTools(inv, env, Absent)));
  }

  /**
   * On the first run with `-d` and one target, only the connect is issued
   * with the stale `adbPath: false`: the `-d` step's update reloads
   * `currentConfig` from the file, which by then holds the downloaded path,
   * so the install uses that path.
   */
  lemma FirstRunDeviceFlagUsesNewPath(inv: Invocation, env: Environment, dir: string, out: seq<string>)
    requires !inv.list && inv.device != "" && |inv.targets| == 1
    requires env.provisioned == Some(dir) && env.connecting.Exited? && env.listing == Exited(out)
    ensures var r := Run(inv, env, Absent);
      && Connect(Some(JBool(false)), "") in r.trace
      && |r.trace| > 0 && Last(r.trace) == Install(Some(JText(AdbExe(dir))), inv.targets[0])
  {
    var s := Initial(Absent);
    var t := Prepare(inv, env, s).0;
    PrepareFacts(inv, env, s);
    var s2 := LoadStep(s).0.(selected := ChooseDevice(inv.device, Default));
    ToolReuse(s2, inv.force, env);
    assert Lookup(t.file.contents, AdbPathKey) == Some(JText(AdbExe(dir)));
    DeviceFlagThenInstalls(inv, env, Absent, out);
    DeviceFlagFacts(t, inv.device, env);
    var u := DeviceFlagStep(t, inv.device, env).0;
    InstallFlowFacts(u, inv.targets, env);
    var r := Run(inv, env, Absent);
    assert u.trace <= r.trace;
    assert r.trace[|t.trace|] == Connect(Some(JBool(false)), "");
  }
}
