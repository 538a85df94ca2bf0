/**
 * The persisted settings file (`config.json`) and the two operations on it:
 * `getSettings` (load, creating the file with defaults when it is missing)
 * and `updateConfing` (load, then write the stored object spread-merged with
 * an update).
 *
 * The file is abstract state: absent, holding a JSON object, or holding text
 * that `JSON.parse` rejects.  Values are the JSON scalars the program stores.
 */
module ConfigStore {

  datatype Option<+T> = None | Some(value: T)

  /** A JSON scalar as stored under one key of the settings object. */
  datatype Json = JNull | JBool(b: bool) | JNum(n: int) | JText(s: string)

  /** A settings object: an open map from keys to values. */
  type Config = map<string, Json>

  /** What is on disk at the settings path. */
  datatype FileState = Absent | Stored(contents: Config) | Malformed

  const AdbPathKey: string := "adbPath"
  const DeviceKey: string := "device"

  /** The object written when no settings file exists: `{adbPath: false}`. */
  const Default: Config := map[AdbPathKey := JBool(false)]

  /** `config[key]`, with `None` standing for `undefined`. */
  function Lookup(c: Config, key: string): Option<Json>
  {
    if key in c then Some(c[key]) else None
  }

  /** JavaScript truthiness of a looked-up value. */
  predicate Truthy(v: Option<Json>)
  {
    match v
    case None => false
    case Some(JNull) => false
    case Some(JBool(b)) => b
    case Some(JNum(n)) => n != 0
    case Some(JText(s)) => s != ""
  }

  /**
   * `{...stored, ...incoming}`: the keys of both, each key of the update with
   * its new value, every other stored key with its old value.  Spreading
   * `undefined` (no stored object) contributes nothing.
   */
  function Merge(stored: Option<Config>, incoming: Config): (r: Config)
    ensures r.Keys == incoming.Keys + (if stored.Some? then stored.value.Keys else {})
    ensures forall k :: k in incoming ==> r[k] == incoming[k]
    ensures stored.Some? ==> forall k :: k in stored.value && k !in incoming ==> r[k] == stored.value[k]
  {
    match stored
    case None => incoming
    case Some(c) => c + incoming
  }

  /** The outcome of `getSettings` when it does not throw. */
  datatype Loaded = Loaded(
    returned: Option<Config>,  // its return value: None when it created the file
    current: Config,           // the new value of the module's `currentConfig`
    writes: seq<Config>)       // the objects written to the file, in order

  /** The outcome of `updateConfing` when it does not throw. */
  datatype Updated = Updated(
    current: Config,           // `currentConfig` afterwards (set by the inner load)
    writes: seq<Config>)       // the objects written to the file, in order

  /** The file after a sequence of writes. */
  function AfterWrites(f: FileState, writes: seq<Config>): FileState
  {
    if writes == [] then f else Stored(writes[|writes| - 1])
  }

  /**
   * `getSettings` (src/index.js:103-115).  None: `JSON.parse` throws on a
   * malformed file and nothing recovers it.
   */
  function GetSettings(f: FileState): (r: Option<Loaded>)
    ensures r.None? <==> f.Malformed?
    ensures r.Some? ==> AfterWrites(f, r.value.writes) == Stored(r.value.current)
  {
    match f
    case Malformed => None
    case Stored(c) => Some(Loaded(Some(c), c, []))
    case Absent => Some(Loaded(None, Default, [Default]))
  }

  /**
   * `updateConfing` (src/index.js:117-126): load, then write the stored object
   * merged with the update.  The in-memory `currentConfig` is left at what the
   * inner load read, not at the merged object.
   */
  function UpdateConfig(f: FileState, incoming: Config): (r: Option<Updated>)
    ensures r.None? <==> f.Malformed?
    ensures r.Some? ==> r.value.current == GetSettings(f).value.current
    ensures r.Some? ==> r.value.writes != []
    ensures r.Some? ==> (
      var written := r.value.writes[|r.value.writes| - 1];
      incoming.Keys <= written.Keys && forall k :: k in incoming ==> written[k] == incoming[k])
  {
    match GetSettings(f)
    case None => None
    case Some(l) => Some(Updated(l.current, l.writes + [Merge(l.returned, incoming)]))
  }

  // ---------------------------------------------------------------------------
  // Properties of writing

  /**
   * Every `writeFileSync` replaces the whole file, so the file ends with the
   * last object written, and two batches of writes leave what one batch
   * holding both leaves.
   */
  lemma AfterWritesAppend(f: FileState, w1: seq<Config>, w2: seq<Config>)
    ensures AfterWrites(AfterWrites(f, w1), w2) == AfterWrites(f, w1 + w2)
    ensures w1 + w2 != [] ==> AfterWrites(f, w1 + w2) == Stored((w1 + w2)[|w1 + w2| - 1])
  {
  }

  // ---------------------------------------------------------------------------
  // Properties of loading

  /**
   * Loading fails exactly on a malformed file.  Otherwise afterwards the file
   * holds an object equal to `currentConfig`; a missing file becomes the
   * default object, written once, and the load returns `undefined`.
   */
  lemma LoadOutcome(f: FileState)
    ensures GetSettings(f).None? <==> f.Malformed?
    ensures GetSettings(f).Some? ==>
      AfterWrites(f, GetSettings(f).value.writes) == Stored(GetSettings(f).value.current)
    ensures f.Absent? ==> GetSettings(f) == Some(Loaded(None, Default, [Default]))
    ensures f.Stored? ==>
      GetSettings(f).value.returned == Some(f.contents) && GetSettings(f).value.writes == []
  {
  }

  /** Loading twice is loading once: the second load reads back what the first left. */
  lemma LoadIdempotent(f: FileState)
    requires !f.Malformed?
    ensures var l := GetSettings(f).value;
      var again := GetSettings(AfterWrites(f, l.writes)).value;
      again.returned == Some(l.current) && again.current == l.current && again.writes == []
  {
    LoadOutcome(f);
  }

  // ---------------------------------------------------------------------------
  // Properties of updating

  /**
   * An update of a stored object writes once, and the file then holds every
   * key of the update with its new value, every other stored key with its old
   * value, and no other key.
   */
  lemma UpdateStored(c: Config, incoming: Config)
    ensures var u := UpdateConfig(Stored(c), incoming);
      && u.Some? && |u.value.writes| == 1
      && var w := u.value.writes[0];
      && w.Keys == c.Keys + incoming.Keys
      && (forall k :: k in incoming ==> w[k] == incoming[k])
      && (forall k :: k in c && k !in incoming ==> w[k] == c[k])
  {
  }

  /**
   * With no file, the inner load writes the default object but returns
   * `undefined`, so the file ends up holding the update alone: the default
   * `adbPath: false` is not carried over.
   */
  lemma UpdateAbsent(incoming: Config)
    ensures UpdateConfig(Absent, incoming) == Some(Updated(Default, [Default, incoming]))
    ensures AfterWrites(Absent, UpdateConfig(Absent, incoming).value.writes) == Stored(incoming)
  {
    assert [Default] + [Merge(None, incoming)] == [Default, incoming];
  }

  /** An update leaves `currentConfig` at what was on disk before it, not at the merged object. */
  lemma UpdateKeepsCurrent(f: FileState, incoming: Config)
    requires !f.Malformed?
    ensures UpdateConfig(f, incoming).Some?
    ensures UpdateConfig(f, incoming).value.current == GetSettings(f).value.current
  {
  }

  /** The file after updating. */
  function FileAfterUpdate(f: FileState, incoming: Config): (g: FileState)
    requires !f.Malformed?
    ensures g.Stored?
  {
    AfterWrites(f, UpdateConfig(f, incoming).value.writes)
  }

  /**
   * Two updates in a row leave the stored object merged with the first and
   * then the second: per key, the last writer wins and untouched keys survive.
   */
  lemma {:induction false} SequentialUpdates(c: Config, p1: Config, p2: Config)
    ensures FileAfterUpdate(FileAfterUpdate(Stored(c), p1), p2) == Stored(c + p1 + p2)
    ensures forall k :: k in c + p1 + p2 ==>
      (c + p1 + p2)[k] == if k in p2 then p2[k] else if k in p1 then p1[k] else c[k]
  {
    var once := FileAfterUpdate(Stored(c), p1);
    assert once == Stored(c + p1);
    assert FileAfterUpdate(once, p2) == Stored((c + p1) + p2);
  }

  /**
   * Update then load: the loaded object has the new value under the updated
   * key and the old value under every other key.
   */
  lemma UpdateThenLoad(c: Config, key: string, v: Json)
    ensures var loaded := GetSettings(FileAfterUpdate(Stored(c), map[key := v])).value.current;
      && key in loaded && loaded[key] == v
      && (forall k :: k in c && k != key ==> k in loaded && loaded[k] == c[k])
      && loaded.Keys == c.Keys + {key}
  {
    UpdateStored(c, map[key := v]);
  }
}
