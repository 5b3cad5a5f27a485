/**
 * The component registry (`components.json` under the application's config
 * directory) and the npm version query, as in `src-tauri/src/commands/registry.rs`.
 *
 * JSON values are replaced by typed records: a field that is absent or has the
 * wrong JSON type is `None`, which is exactly how the source's
 * `get(..).and_then(as_str / as_bool / as_array)` chains see it.
 */
module Registry {
  import opened Wrappers
  import opened Seqs
  import opened Text

  /** An element of a JSON array the source filters with `as_str`. */
  datatype JsonElem = Str(s: string) | NonString

  /** `versions`: a version range per Vue major version. */
  datatype Versions = Versions(vue2: Option<string>, vue3: Option<string>)

  /** `supported`: the support matrix; a flag that is absent or not a boolean is `None`. */
  datatype Support = Support(vue2: Option<bool>, vue3: Option<bool>, ts: Option<bool>, js: Option<bool>)

  /** One `ComponentRegistryItem` of the registry. */
  datatype Item = Item(
    key: Option<string>,
    labelText: Option<string>,
    package: Option<string>,
    packages: Option<seq<JsonElem>>,
    desc: Option<string>,
    versions: Option<Versions>,
    supported: Option<Support>,
    dev: Option<bool>)

  /** The registry document; `components` is `None` when absent or not an array. */
  datatype Document = Document(components: Option<seq<Item>>)

  /** The registry file on disk. `Unreadable` covers a failed read and text that is not JSON. */
  datatype RegistryFile = Missing | Stored(doc: Document) | Unreadable

  const ConfigDirUnavailable := "config dir not available"
  const UnparsableRegistry := "registry file is not valid JSON"

  /** The string elements of a JSON array, in order (`filter_map(as_str)`). */
  function StringElements(elems: seq<JsonElem>): (names: seq<string>)
    ensures |names| <= |elems|
    ensures forall n :: n in names ==> Str(n) in elems
  {
    if elems == [] then []
    else if elems[0].Str? then [elems[0].s] + StringElements(elems[1..])
    else StringElements(elems[1..])
  }

  /** Filtering distributes over concatenation. */
  lemma {:induction false} StringElementsAppend(xs: seq<JsonElem>, ys: seq<JsonElem>)
    ensures StringElements(xs + ys) == StringElements(xs) + StringElements(ys)
  {
    if xs != [] {
      ConsAppend(xs, ys);
      StringElementsAppend(xs[1..], ys);
      if xs[0].Str? {
        Assoc([xs[0].s], StringElements(xs[1..]), StringElements(ys));
      }
    } else {
      assert xs + ys == ys;
    }
  }

  /** A non-string element contributes nothing, wherever it stands. */
  lemma StringElementsSkip(xs: seq<JsonElem>, ys: seq<JsonElem>)
    ensures StringElements(xs + [NonString] + ys) == StringElements(xs + ys)
  {
    StringElementsAppend(xs + [NonString], ys);
    StringElementsAppend(xs, [NonString]);
    StringElementsAppend(xs, ys);
    assert StringElements([NonString]) == [];
    AppendNil(StringElements(xs));
  }

  /** An array of strings only keeps all of them, in order. */
  lemma {:induction false} StringElementsAllStrings(names: seq<string>)
    ensures StringElements(seq(|names|, i requires 0 <= i < |names| => Str(names[i]))) == names
  {
    if names != [] {
      var elems := seq(|names|, i requires 0 <= i < |names| => Str(names[i]));
      assert elems[1..] == seq(|names[1..]|, i requires 0 <= i < |names[1..]| => Str(names[1..][i]));
      StringElementsAllStrings(names[1..]);
    }
  }

  /** An item with only the fields the default registry sets. */
  function DefaultItem(key: string, labelText: string, packages: seq<string>, desc: string,
                       versions: Option<Versions>, supported: Support, dev: Option<bool>): Item
  {
    Item(Some(key), Some(labelText), None,
         Some(seq(|packages|, i requires 0 <= i < |packages| => Str(packages[i]))),
         Some(desc), versions, Some(supported), dev)
  }

  const AllSupported := Support(Some(true), Some(true), Some(true), Some(true))

  /** The six components seeded when no registry file exists. */
  function DefaultComponents(): (items: seq<Item>)
    ensures |items| == 6
    ensures forall i :: 0 <= i < |items| ==> items[i].key.Some? && items[i].packages.Some?
  {
    [ DefaultItem("router", "vue-router", ["vue-router"], "路由管理",
                  Some(Versions(Some("^3.x"), Some("^4.6.3"))), AllSupported, Some(false)),
      DefaultItem("pinia", "pinia", ["pinia", "pinia-plugin-persistedstate"], "轻量状态管理",
                  Some(Versions(None, Some("^2.3.1"))), AllSupported, Some(false)),
      DefaultItem("sass", "sass", ["sass", "sass-loader"], "CSS 预处理器",
                  Some(Versions(Some("^1.94.0"), Some("^1.94.0"))), AllSupported, Some(true)),
      DefaultItem("naive-ui", "naive-ui", ["naive-ui"], "Vue 3 组件库",
                  None, Support(Some(false), Some(true), Some(true), Some(false)), None),
      DefaultItem("vfonts", "vfonts", ["vfonts"], "网页与代码字体",
                  None, AllSupported, None),
      DefaultItem("xicons", "@vicons/ionicons5", ["@vicons/ionicons5"], "图标库",
                  None, AllSupported, None) ]
  }

  /** The document written when no registry file exists: the six default components. */
  function DefaultDocument(): (d: Document)
    ensures d.components.Some? && |d.components.value| == 6
    ensures forall i :: 0 <= i < 6 ==> d.components.value[i].key.Some? && d.components.value[i].packages.Some?
  {
    Document(Some(DefaultComponents()))
  }

  /** What a scaffold job sees of the registry: a missing or unreadable file reads as no components. */
  function JobComponents(file: RegistryFile): (items: seq<Item>)
    ensures file.Stored? && file.doc.components.Some? ==> items == file.doc.components.value
    ensures !file.Stored? ==> items == []
  {
    match file
    case Stored(doc) => doc.components.GetOr([])
    case _ => []
  }

  /** The registry file and the config directory it lives in. */
  class RegistryStore {
    var file: RegistryFile
    /** Whether the application's config directory can be resolved. */
    const configDir: bool
    /**
     * The error the file system reports when the registry file (or its
     * directory) cannot be written, or `None` when writes succeed.
     */
    const writeError: Option<string>

    constructor (file: RegistryFile, configDir: bool, writeError: Option<string>)
      ensures this.file == file && this.configDir == configDir && this.writeError == writeError
    {
      this.file := file;
      this.configDir := configDir;
      this.writeError := writeError;
    }

    /**
     * `read_component_registry`: seeds the default registry the first time,
     * otherwise returns what is stored. A failed seeding write is returned as
     * its error and leaves the file missing.
     */
    method Read() returns (r: Result<Document, string>)
      modifies this`file
      ensures !configDir ==> r == Err(ConfigDirUnavailable) && file == old(file)
      ensures configDir && old(file) == Missing && writeError.None? ==>
        r == Ok(DefaultDocument()) && file == Stored(DefaultDocument())
      ensures configDir && old(file) == Missing && writeError.Some? ==>
        r == Err(writeError.value) && file == Missing
      ensures configDir && old(file).Stored? ==> r == Ok(old(file).doc) && file == old(file)
      ensures configDir && old(file) == Unreadable ==> r == Err(UnparsableRegistry) && file == old(file)
    {
      if !configDir {
        return Err(ConfigDirUnavailable);
      }
      match file
      case Missing =>
        if writeError.Some? {
          return Err(writeError.value);
        }
        file := Stored(DefaultDocument());
        r := Ok(DefaultDocument());
      case Stored(doc) =>
        r := Ok(doc);
      case Unreadable =>
        r := Err(UnparsableRegistry);
    }

    /**
     * `save_component_registry`: replaces the whole file. A failed directory
     * creation or write is returned as its error and leaves the file as it was.
     */
    method Save(payload: Document) returns (r: Result<Unit, string>)
      modifies this`file
      ensures !configDir ==> r == Err(ConfigDirUnavailable) && file == old(file)
      ensures configDir && writeError.Some? ==> r == Err(writeError.value) && file == old(file)
      ensures configDir && writeError.None? ==> r == Ok(Unit) && file == Stored(payload)
    {
      if !configDir {
        return Err(ConfigDirUnavailable);
      }
      if writeError.Some? {
        return Err(writeError.value);
      }
      file := Stored(payload);
      r := Ok(Unit);
    }
  }

  /**
   * A save followed by a read returns exactly what was saved; when the save
   * fails, the read sees the file as it was before.
   */
  method SaveThenRead(store: RegistryStore, payload: Document) returns (r: Result<Document, string>)
    requires store.configDir
    modifies store
    ensures store.writeError.None? ==> r == Ok(payload) && store.file == Stored(payload)
    ensures store.writeError.Some? ==> store.file == old(store.file)
    ensures store.writeError.Some? && old(store.file).Stored? ==> r == Ok(old(store.file).doc)
  {
    var _ := store.Save(payload);
    r := store.Read();
  }

  /**
   * Seeding happens once: a second read returns what the first returned, and
   * writes nothing.
   */
  method ReadTwice(store: RegistryStore) returns (first: Result<Document, string>, second: Result<Document, string>)
    requires store.configDir
    modifies store
    ensures second == first
    ensures old(store.file) != Unreadable && store.writeError.None? ==>
      first.Ok? && store.file == Stored(first.value)
    ensures old(store.file) == Missing && store.writeError.None? ==> first == Ok(DefaultDocument())
    ensures store.writeError.Some? ==> store.file == old(store.file)
  {
    first := store.Read();
    second := store.Read();
  }

  // ---------------------------------------------------------------------
  // fetch_npm_versions

  /** How `stdout` of `pnpm view <pkg> versions --json` parses. */
  datatype VersionsJson = NotJson | NotArray | Array(elems: seq<JsonElem>)

  /** `stdout` as bytes: valid UTF-8 text (already parsed) or not. */
  datatype Stdout = InvalidUtf8(reason: string) | Utf8(json: VersionsJson)

  /**
   * What awaiting the query produced. The enum order is the order the source
   * checks: the 8 s timeout, then the worker's join, then the spawn, then the
   * exit status.
   */
  datatype QueryOutcome =
    | TimedOut
    | JoinFailed(reason: string)
    | SpawnFailed(reason: string)
    | Finished(success: bool, stdout: Stdout, stderr: string)

  const MaxVersions := 100
  const ToolNotFound := "pnpm not found"
  const QueryTimeout := "npm version query timed out (8s)"
  const RunFailedPrefix := "failed to run pnpm: "
  const QueryFailedPrefix := "version query failed: "

  /** The command line of the query. */
  function QueryArgs(package: string): (args: seq<string>)
    ensures |args| == 4 && args[0] == "view" && args[1] == package
    ensures args[2..] == ["versions", "--json"]
  {
    ["view", package, "versions", "--json"]
  }

  /**
   * Reverses the list in place (newest first, as npm lists oldest first) and
   * truncates it to `MaxVersions`, as `versions.reverse(); versions.truncate(100)`.
   */
  method NewestFirst(xs: seq<string>) returns (vs: seq<string>)
    ensures |vs| == if |xs| > MaxVersions then MaxVersions else |xs|
    ensures forall i :: 0 <= i < |vs| ==> vs[i] == xs[|xs| - 1 - i]
  {
    var a := new string[|xs|](i requires 0 <= i < |xs| => xs[i]);
    var n := a.Length;
    var i := 0;
    while i < n / 2
      invariant 0 <= i <= n / 2
      invariant forall k :: 0 <= k < i ==> a[k] == xs[n - 1 - k] && a[n - 1 - k] == xs[k]
      invariant forall k :: i <= k < n - i ==> a[k] == xs[k]
    {
      a[i], a[n - 1 - i] := a[n - 1 - i], a[i];
      i := i + 1;
    }
    var len := if n > MaxVersions then MaxVersions else n;
    vs := a[..len];
  }

  /** `fetch_npm_versions` with the tool lookup and the awaited process given as inputs. */
  method FetchNpmVersions(tool: Option<string>, package: string, outcome: QueryOutcome)
    returns (command: Option<seq<string>>, r: Result<seq<string>, string>)
    ensures tool.None? ==> command == None && r == Err(ToolNotFound)
    ensures tool.Some? ==> command == Some([tool.value] + QueryArgs(package))
    ensures tool.Some? && outcome.TimedOut? ==> r == Err(QueryTimeout)
    ensures tool.Some? && (outcome.JoinFailed? || outcome.SpawnFailed?) ==> r == Err(RunFailedPrefix + outcome.reason)
    ensures tool.Some? && outcome.Finished? && !outcome.success ==>
      r == Err(QueryFailedPrefix + Trim(outcome.stderr))
    ensures tool.Some? && outcome.Finished? && outcome.success && outcome.stdout.InvalidUtf8? ==>
      r == Err(outcome.stdout.reason)
    ensures tool.Some? && outcome.Finished? && outcome.success && outcome.stdout.Utf8? ==>
      r.Ok? && |r.value| <= MaxVersions
    ensures tool.Some? && outcome.Finished? && outcome.success && outcome.stdout.Utf8? && !outcome.stdout.json.Array? ==>
      r == Ok([])
    ensures tool.Some? && outcome.Finished? && outcome.success && outcome.stdout.Utf8? && outcome.stdout.json.Array? ==>
      var names := StringElements(outcome.stdout.json.elems);
      && |r.value| == (if |names| > MaxVersions then MaxVersions else |names|)
      && forall i :: 0 <= i < |r.value| ==> r.value[i] == names[|names| - 1 - i]
  {
    if tool.None? {
      return None, Err(ToolNotFound);
    }
    command := Some([tool.value] + QueryArgs(package));
    match outcome
    case TimedOut =>
      r := Err(QueryTimeout);
    case JoinFailed(e) =>
      r := Err(RunFailedPrefix + e);
    case SpawnFailed(e) =>
      r := Err(RunFailedPrefix + e);
    case Finished(success, stdout, stderr) =>
      if !success {
        r := Err(QueryFailedPrefix + Trim(stderr));
      } else if stdout.InvalidUtf8? {
        r := Err(stdout.reason);
      } else {
        var names := if stdout.json.Array? then StringElements(stdout.json.elems) else [];
        var vs := NewestFirst(names);
        r := Ok(vs);
      }
  }
}
