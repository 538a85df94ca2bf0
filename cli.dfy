/**
 * The command-line run (`start`, src/index.js:27-84) and the steps it takes
 * through the module-level state `currentConfig`, `selectedDevice` and
 * `devices`, the settings file and the bridge.
 *
 * The outside world is an input: the parsed command line (`Invocation`) and
 * what the file system, the downloader and the bridge answer (`Environment`).
 * What the run does to the outside world is recorded, in order, as a trace of
 * `Action`s.  Each step is first a function on a `State` record (the
 * specification); the class `Session` then carries the same state in fields
 * and its methods are proved to do exactly what those functions say.
 */
module Cli {
  import opened ConfigStore
  import opened DeviceList
  import opened DeviceSelect

  /** The parsed command line: `-l`/`--list`, `-d <id>` ("" when absent), the positional targets, `-f`. */
  datatype Invocation = Invocation(list: bool, device: string, targets: seq<string>, force: bool)

  /** How one bridge command ends: the stdout chunks it captured, or an error. */
  datatype Reply = Exited(stdout: seq<string>) | Failed

  /** What the outside world answers during one run. */
  datatype Environment = Environment(
    toolExists: bool,             // `fs.existsSync(currentConfig.adbPath)` at the reuse test
    provisioned: Option<string>,  // the directory the downloader returns; None when it throws
    listing: Reply,               // the reply to every `devices` command of the run
    connecting: Reply)            // the reply to the `connect` command

  /** Why a run ends with an uncaught exception. */
  datatype Failure =
    | ConfigUnreadable   // `JSON.parse` rejected the settings file
    | DownloadFailed     // the downloader threw
    | BridgeFailed       // a `devices` or `connect` command reported an error
    | PromptUnavailable  // `readline.question` is not a function on the `readline` module

  /** One observable effect of the run. */
  datatype Action =
    | WriteConfig(contents: Config)               // the settings file is overwritten
    | Download                                    // the downloader is asked for the bridge
    | ListDevices(tool: Option<Json>)             // `<adbPath> devices`
    | Connect(tool: Option<Json>, target: string) // `<adbPath> connect <target>`
    | Show(entries: seq<Entry>)                   // the formatted device listing is printed
    | HoldOn                                      // wait for a key, then exit
    | Message(text: string)                       // a console line
    | Install(tool: Option<Json>, target: string) // `<adbPath> install <target>`
    | Fail(reason: Failure)                       // the run ends with an exception

  /** The module-level state, the settings file and the trace so far. */
  datatype State = State(
    file: FileState,
    current: Config,            // `currentConfig`
    selected: Option<Json>,     // `selectedDevice`
    devices: seq<string>,       // `devices`
    trace: seq<Action>)

  /** The state when the module has just been loaded (src/index.js:17-24). */
  function Initial(f: FileState): State
  {
    State(f, Default, Some(JText("")), [], [])
  }

  function Emit(s: State, a: Action): State
  {
    s.(trace := s.trace + [a])
  }

  /** The bridge command prefix, `currentConfig.adbPath`. */
  function Tool(s: State): Option<Json>
  {
    Lookup(s.current, AdbPathKey)
  }

  /** One `WriteConfig` per written object, in order. */
  function Writes(ws: seq<Config>): seq<Action>
  {
    seq(|ws|, k requires 0 <= k < |ws| => WriteConfig(ws[k]))
  }

  /** `${devices}`: an array in a template literal is its elements joined with commas. */
  function ArrayText(items: seq<string>): (r: string)
    ensures r == "" <==> |items| == 0 || (|items| == 1 && items[0] == "")
  {
    Join(items, ',')
  }

  // ---------------------------------------------------------------------------
  // The steps, as functions of the state

  /** `getSettings`: the new state, whether it returned normally, and its return value. */
  function LoadStep(s: State): (State, bool, Option<Config>)
  {
    match GetSettings(s.file)
    case None => (Emit(s, Fail(ConfigUnreadable)), false, None)
    case Some(l) =>
      (s.(file := AfterWrites(s.file, l.writes), current := l.current, trace := s.trace + Writes(l.writes)),
       true, l.returned)
  }

  /** `updateConfing`: load, then write the merge of the loaded object and the update. */
  function UpdateStep(s: State, incoming: Config): (State, bool)
  {
    var (t, ok, stored) := LoadStep(s);
    if !ok then (t, false)
    else
      var merged := Merge(stored, incoming);
      (t.(file := Stored(merged), trace := t.trace + [WriteConfig(merged)]), true)
  }

  /** `join(dir, './adb.exe')`. */
  function AdbExe(dir: string): string
  {
    dir + "/adb.exe"
  }

  /** The guard of `downloadTools`: keep the cached bridge. */
  predicate ReuseCached(force: bool, cached: Option<Json>, onDisk: bool)
  {
    !force && Truthy(cached) && onDisk
  }

  /** `downloadTools`: the new state, whether it returned normally, and the path it returns. */
  function DownloadStep(s: State, force: bool, env: Environment): (State, bool, Option<Json>)
  {
    if ReuseCached(force, Tool(s), env.toolExists) then (s, true, Tool(s))
    else
      var t := Emit(s, Download);
      match env.provisioned
      case None => (Emit(t, Fail(DownloadFailed)), false, None)
      case Some(dir) =>
        var path := JText(AdbExe(dir));
        var (u, ok) := UpdateStep(t, map[AdbPathKey := path]);
        (u, ok, if ok then Some(path) else None)
  }

  /** `getListDevices`: run `devices` and parse its output. */
  function ListStep(s: State, env: Environment): (State, bool, seq<string>)
  {
    var t := Emit(s, ListDevices(Tool(s)));
    match env.listing
    case Failed => (Emit(t, Fail(BridgeFailed)), false, [])
    case Exited(out) => (t, true, ParseDevices(out))
  }

  /** `showAllDevices`: list, print every entry through `lit`, then wait for a key. */
  function ShowAllStep(s: State, env: Environment): (State, bool)
  {
    var (t, ok, list) := ListStep(s, env);
    if !ok then (t, false)
    else (Emit(Emit(t, Show(Listing(t.selected, list))), HoldOn), true)
  }

  /** `connectToDevice`: run `connect` with the given argument. */
  function ConnectStep(s: State, target: string, env: Environment): (State, bool)
  {
    var t := Emit(s, Connect(Tool(s), target));
    if env.connecting.Failed? then (Emit(t, Fail(BridgeFailed)), false) else (t, true)
  }

  /** `argv.d || currentConfig.device`. */
  function ChooseDevice(device: string, current: Config): (r: Option<Json>)
    ensures Truthy(r) <==> device != "" || Truthy(Lookup(current, DeviceKey))
    ensures device != "" ==> r == Some(JText(device))
  {
    if device != "" then Some(JText(device)) else Lookup(current, DeviceKey)
  }

  /**
   * The `-d` branch (src/index.js:43-46): connect, passing the module-level
   * `devices` array, then remember the device.  The update is not awaited by
   * the source; it is taken to finish before the next step.
   */
  function DeviceFlagStep(s: State, device: string, env: Environment): (State, bool)
  {
    var (t, ok) := ConnectStep(s, ArrayText(s.devices), env);
    if !ok then (t, false)
    else var (u, _) := UpdateStep(t, map[DeviceKey := JText(device)]); (u, true)
  }

  /** `devices[0]` as `console.log` prints it. */
  function FirstOrUndefined(list: seq<string>): string
  {
    if |list| == 0 then "undefined" else list[0]
  }

  /**
   * No device selected and several connected (src/index.js:60-72): say so,
   * list them again, then prompt, which throws.
   */
  function AskForDevice(s: State, env: Environment): State
  {
    var (t, shown) := ShowAllStep(Emit(s, Message("More than one device connected")), env);
    if !shown then t else Emit(t, Fail(PromptUnavailable))
  }

  /** Go ahead with the listed devices (src/index.js:74-80): one target is installed, more are refused. */
  function Proceed(s: State, targets: seq<string>): State
    requires |targets| > 0
  {
    var t := Emit(s, Message("Device connected: " + FirstOrUndefined(s.devices)));
    if |targets| > 1 then Emit(t, Message("Only one target is allowed"))
    else Emit(t, Install(Tool(t), targets[0]))
  }

  /** The part of `start` after the targets check (src/index.js:51-80). */
  function InstallFlow(s: State, targets: seq<string>, env: Environment): State
    requires |targets| > 0
  {
    var (t, ok, list) := ListStep(s, env);
    if !ok then t
    else
      var u := t.(devices := list);
      if !Truthy(u.selected) && |list| == 0 then Emit(u, Message("No device connected"))
      else if !Truthy(u.selected) && |list| > 1 then AskForDevice(u, env)
      else Proceed(u, targets)
  }

  /**
   * The first half of `start` (src/index.js:28-36): load the settings, pick
   * the device, make sure the bridge is there.  The flag says whether the run
   * goes on.
   */
  function Prepare(inv: Invocation, env: Environment, s: State): (State, bool)
  {
    var (s1, loaded, _) := LoadStep(s);
    if !loaded then (s1, false)
    else
      var s2 := s1.(selected := ChooseDevice(inv.device, s1.current));
      var (s3, fetched, _) := DownloadStep(s2, inv.force, env);
      (s3, fetched)
  }

  /** The second half of `start` (src/index.js:38-80): list, connect, or install. */
  function Dispatch(inv: Invocation, env: Environment, s: State): State
  {
    if inv.list then ShowAllStep(s, env).0
    else
      var (t, connected) := if inv.device != "" then DeviceFlagStep(s, inv.device, env) else (s, true);
      if !connected || |inv.targets| == 0 then t
      else InstallFlow(t, inv.targets, env)
  }

  /** `start` (src/index.js:27-84) from a given state. */
  function StartStep(inv: Invocation, env: Environment, s: State): State
  {
    var (t, ready) := Prepare(inv, env, s);
    if !ready then t else Dispatch(inv, env, t)
  }

  /** One run of the program on a freshly loaded module. */
  function Run(inv: Invocation, env: Environment, f: FileState): State
  {
    StartStep(inv, env, Initial(f))
  }

  // ---------------------------------------------------------------------------
  // The session object

  /** The module-level state of the program, updated in place by its functions. */
  class Session {
    var file: FileState
    var currentConfig: Config
    var selectedDevice: Option<Json>
    var devices: seq<string>
    var trace: seq<Action>

    function Snapshot(): State
      reads this
    {
      State(file, currentConfig, selectedDevice, devices, trace)
    }

    constructor (f: FileState)
      ensures Snapshot() == Initial(f)
    {
      file := f;
      currentConfig := Default;
      selectedDevice := Some(JText(""));
      devices := [];
      trace := [];
    }

    method Record(a: Action)
      modifies this
      ensures Snapshot() == Emit(old(Snapshot()), a)
    {
      trace := trace + [a];
    }

    method GetSettings() returns (ok: bool, stored: Option<Config>)
      modifies this
      ensures (Snapshot(), ok, stored) == LoadStep(old(Snapshot()))
    {
      match file {
        case Malformed =>
          Record(Fail(ConfigUnreadable));
          ok, stored := false, None;
        case Stored(c) =>
          assert Writes([]) == [] && trace + [] == trace;
          currentConfig := c;
          ok, stored := true, Some(c);
        case Absent =>
          file := Stored(Default);
          assert Writes([Default]) == [WriteConfig(Default)];
          Record(WriteConfig(Default));
          currentConfig := Default;
          ok, stored := true, None;
      }
    }

    method UpdateConfig(incoming: Config) returns (ok: bool)
      modifies this
      ensures (Snapshot(), ok) == UpdateStep(old(Snapshot()), incoming)
    {
      var stored;
      ok, stored := GetSettings();
      if !ok {
        return;
      }
      var merged := Merge(stored, incoming);
      file := Stored(merged);
      Record(WriteConfig(merged));
    }

    method DownloadTools(force: bool, env: Environment) returns (ok: bool, path: Option<Json>)
      modifies this
      ensures (Snapshot(), ok, path) == DownloadStep(old(Snapshot()), force, env)
    {
      var cached := Lookup(currentConfig, AdbPathKey);
      if !force && Truthy(cached) && env.toolExists {
        return true, cached;
      }
      Record(Download);
      match env.provisioned {
        case None =>
          Record(Fail(DownloadFailed));
          ok, path := false, None;
        case Some(dir) =>
          var provisioned := JText(AdbExe(dir));
          ok := UpdateConfig(map[AdbPathKey := provisioned]);
          path := if ok then Some(provisioned) else None;
      }
    }

    method GetListDevices(env: Environment) returns (ok: bool, list: seq<string>)
      modifies this
      ensures (Snapshot(), ok, list) == ListStep(old(Snapshot()), env)
    {
      Record(ListDevices(Lookup(currentConfig, AdbPathKey)));
      match env.listing {
        case Failed =>
          Record(Fail(BridgeFailed));
          ok, list := false, [];
        case Exited(out) =>
          ok, list := true, ParseDevices(out);
      }
    }

    method ShowAllDevices(env: Environment) returns (ok: bool)
      modifies this
      ensures (Snapshot(), ok) == ShowAllStep(old(Snapshot()), env)
    {
      var list;
      ok, list := GetListDevices(env);
      if !ok {
        return;
      }
      Record(Show(Listing(selectedDevice, list)));
      Record(HoldOn);
    }

    method ConnectToDevice(target: string, env: Environment) returns (ok: bool)
      modifies this
      ensures (Snapshot(), ok) == ConnectStep(old(Snapshot()), target, env)
    {
      Record(Connect(Lookup(currentConfig, AdbPathKey), target));
      ok := !env.connecting.Failed?;
      if !ok {
        Record(Fail(BridgeFailed));
      }
    }

    /** The `-d` branch of `start` (src/index.js:43-46). */
    method UseDevice(device: string, env: Environment) returns (ok: bool)
      modifies this
      ensures (Snapshot(), ok) == DeviceFlagStep(old(Snapshot()), device, env)
    {
      ok := ConnectToDevice(ArrayText(devices), env);
      if !ok {
        return;
      }
      var remembered := UpdateConfig(map[DeviceKey := JText(device)]);
    }

    /** The rest of `start` once there is a target (src/index.js:51-80). */
    method InstallTargets(targets: seq<string>, env: Environment)
      requires |targets| > 0
      modifies this
      ensures Snapshot() == InstallFlow(old(Snapshot()), targets, env)
    {
      var ok, list := GetListDevices(env);
      if !ok {
        return;
      }
      devices := list;
      if !Truthy(selectedDevice) {
        if |devices| == 0 {
          Record(Message("No device connected"));
          return;
        }
        if |devices| > 1 {
          Record(Message("More than one device connected"));
          ok := ShowAllDevices(env);
          if ok {
            Record(Fail(PromptUnavailable));
          }
          return;
        }
      }
      Record(Message("Device connected: " + FirstOrUndefined(devices)));
      if |targets| > 1 {
        Record(Message("Only one target is allowed"));
        return;
      }
      Record(Install(Lookup(currentConfig, AdbPathKey), targets[0]));
    }

    method Start(inv: Invocation, env: Environment)
      modifies this
      ensures Snapshot() == StartStep(inv, env, old(Snapshot()))
    {
      var ok, stored := GetSettings();
      if !ok {
        return;
      }
      selectedDevice := ChooseDevice(inv.device, currentConfig);
      var path;
      ok, path := DownloadTools(inv.force, env);
      if !ok {
        return;
      }
      if inv.list {
        ok := ShowAllDevices(env);
        return;
      }
      if inv.device != "" {
        ok := UseDevice(inv.device, env);
        if !ok {
          return;
        }
      }
      if |inv.targets| == 0 {
        return;
      }
      InstallTargets(inv.targets, env);
    }
  }
}
