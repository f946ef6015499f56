/**
 * The client's configuration resolution: where the bootstrap file
 * `config.enc` and `settings.cfg` live, the bounded upward search for
 * `config.enc`, the layering of decrypted fields and `[overrides]` keys, and
 * the final validation of the four required fields.
 *
 * The filesystem is a set of rendered paths of existing regular files;
 * decryption, JSON parsing and INI parsing are inputs.
 */
module ConfigResolver {
  import opened Common
  import opened Text

  /** A filesystem path: an anchor (`C:\`, `/`, or empty for a relative path) and its components. */
  datatype Path = Path(anchor: string, parts: seq<string>)

  /** `path.parent`: the anchor is its own parent. */
  function Parent(p: Path): Path {
    if p.parts == [] then p else Path(p.anchor, p.parts[..|p.parts| - 1])
  }

  /** `path / name`. */
  function Child(p: Path, name: string): Path {
    Path(p.anchor, p.parts + [name])
  }

  /** `str(path)` with Windows separators. */
  function Render(p: Path): string {
    p.anchor + Joined(p.parts, "\\")
  }

  /** `~/AppData/Roaming/Ace Centre/AACSpeakHelper`, the per-user folder of a bundled build. */
  function AppDataDir(home: Path): Path {
    Child(Child(Child(Child(home, "AppData"), "Roaming"), "Ace Centre"), "AACSpeakHelper")
  }

  /** `get_google_creds_path`: the per-user folder when bundled, the working directory otherwise. */
  function GoogleCredsPath(frozen: bool, home: Path, cwd: Path): (r: Path)
    ensures r.parts != [] && r.parts[|r.parts| - 1] == "google_creds.json"
    ensures Parent(r) == if frozen then AppDataDir(home) else cwd
  {
    Child(if frozen then AppDataDir(home) else cwd, "google_creds.json")
  }

  /** `get_config_path`: the per-user folder when bundled, the script's folder otherwise. */
  function SettingsPath(frozen: bool, home: Path, scriptDir: Path): (r: Path)
    ensures r.parts != [] && r.parts[|r.parts| - 1] == "settings.cfg"
    ensures Parent(r) == if frozen then AppDataDir(home) else scriptDir
  {
    Child(if frozen then AppDataDir(home) else scriptDir, "settings.cfg")
  }

  /** The directory `load_config` starts from: the executable's folder when bundled, else the working directory. */
  function StartDir(frozen: bool, executable: Path, cwd: Path): (r: Path)
    ensures !frozen ==> r == cwd
    ensures frozen ==> r.anchor == executable.anchor
    ensures frozen && executable.parts != [] ==>
      Child(r, executable.parts[|executable.parts| - 1]) == executable
    ensures frozen && executable.parts == [] ==> r == executable
  {
    if frozen then Parent(executable) else cwd
  }

  /** A bundled client keeps its credentials file and its default settings file in one folder. */
  lemma BundledFilesShareFolder(home: Path, cwd: Path, scriptDir: Path)
    ensures Parent(GoogleCredsPath(true, home, cwd)) == Parent(SettingsPath(true, home, scriptDir))
  {
  }

  // ---------------------------------------------------------------------------
  // find_config_enc

  /** The `k`-th directory of the search: `start`, its parent, its grandparent, ... */
  function Level(start: Path, k: nat): Path
    decreases k
  {
    if k == 0 then start else Level(Parent(start), k - 1)
  }

  /** At one directory, `config.enc` is checked before `_internal/config.enc`. */
  function Candidate(dir: Path, files: set<string>): Option<Path> {
    if Render(Child(dir, "config.enc")) in files then Some(Child(dir, "config.enc"))
    else if Render(Child(Child(dir, "_internal"), "config.enc")) in files then Some(Child(Child(dir, "_internal"), "config.enc"))
    else None
  }

  /** The first candidate found within `depth` levels from `dir`; `None` is FileNotFoundError. */
  function Search(dir: Path, depth: int, files: set<string>): Option<Path>
    decreases depth
  {
    if depth <= 0 then None
    else if Candidate(dir, files).Some? then Candidate(dir, files)
    else Search(Parent(dir), depth - 1, files)
  }

  predicate FoundAt(start: Path, k: nat, files: set<string>) {
    Candidate(Level(start, k), files).Some?
  }

  /** `find_config_enc(start_path, max_depth)`; `None` stands for the raised FileNotFoundError. */
  method FindConfigEnc(start: Path, maxDepth: int, files: set<string>) returns (r: Option<Path>)
    ensures r == Search(start, maxDepth, files)
  {
    var current := start;
    var depth := 0;
    while depth < maxDepth
      invariant 0 <= depth
      invariant Search(start, maxDepth, files) == Search(current, maxDepth - depth, files)
    {
      var configPath := Child(current, "config.enc");
      var internalConfigPath := Child(Child(current, "_internal"), "config.enc");
      if Render(configPath) in files {
        return Some(configPath);
      }
      if Render(internalConfigPath) in files {
        return Some(internalConfigPath);
      }
      current := Parent(current);
      depth := depth + 1;
    }
    return None;
  }

  /** A candidate at level `k` below `depth` makes the search succeed. */
  lemma {:induction false} SearchReaches(dir: Path, depth: int, files: set<string>, k: nat)
    requires k < depth && FoundAt(dir, k, files)
    ensures Search(dir, depth, files).Some?
    decreases k
  {
    if Candidate(dir, files).None? {
      assert k > 0;
      assert Level(dir, k) == Level(Parent(dir), k - 1);
      SearchReaches(Parent(dir), depth - 1, files, k - 1);
    }
  }

  /** No candidate at `dir` nor in the `k` levels above its parent: none in the first `k + 1` levels. */
  lemma NoCandidateAbove(dir: Path, files: set<string>, k: nat)
    requires Candidate(dir, files).None?
    requires forall j: nat :: j < k ==> !FoundAt(Parent(dir), j, files)
    ensures forall j: nat :: j < k + 1 ==> !FoundAt(dir, j, files)
  {
    forall j: nat | j < k + 1
      ensures !FoundAt(dir, j, files)
    {
      if j > 0 {
        assert !FoundAt(Parent(dir), j - 1, files);
        assert Level(dir, j) == Level(Parent(dir), j - 1);
      } else {
        assert Level(dir, 0) == dir;
      }
    }
  }

  /** A successful search returns the candidate of level `k`, with no candidate above it. */
  lemma {:induction false} SearchStopsFirst(dir: Path, depth: int, files: set<string>) returns (k: nat)
    ensures Search(dir, depth, files).Some? ==>
      k < depth && Search(dir, depth, files) == Candidate(Level(dir, k), files)
        && forall j: nat :: j < k ==> !FoundAt(dir, j, files)
    decreases depth
  {
    k := 0;
    if depth > 0 && Candidate(dir, files).None? {
      var k' := SearchStopsFirst(Parent(dir), depth - 1, files);
      k := k' + 1;
      if Search(dir, depth, files).Some? {
        assert Level(dir, k) == Level(Parent(dir), k');
        NoCandidateAbove(dir, files, k');
      }
    } else if depth > 0 {
      assert Level(dir, 0) == dir;
    }
  }

  /**
   * The search succeeds exactly when some level below `depth` holds a
   * candidate, and then returns the candidate of the FIRST such level.
   */
  lemma SearchFindsFirstLevel(dir: Path, depth: int, files: set<string>)
    ensures Search(dir, depth, files).Some? <==> exists k: nat :: k < depth && FoundAt(dir, k, files)
    ensures Search(dir, depth, files).Some? ==>
      exists k: nat :: k < depth && Search(dir, depth, files) == Candidate(Level(dir, k), files)
        && forall j: nat :: j < k ==> !FoundAt(dir, j, files)
  {
    var first := SearchStopsFirst(dir, depth, files);
    if Search(dir, depth, files).Some? {
      assert FoundAt(dir, first, files);
    }
    if exists k: nat :: k < depth && FoundAt(dir, k, files) {
      var k: nat :| k < depth && FoundAt(dir, k, files);
      SearchReaches(dir, depth, files, k);
    }
  }

  // ---------------------------------------------------------------------------
  // [overrides] layering

  /** The client's flat configuration dict; `None` is a key set to JSON null. */
  type Config = map<string, Option<string>>

  /** An `[overrides]` entry as ConfigParser yields it: option name (lower-cased) and value. */
  type Item = (string, string)

  /** `{key.upper(): value for key, value in items}`, assigned in order. */
  function OverrideMap(items: seq<Item>): map<string, string>
    decreases |items|
  {
    if items == [] then map[]
    else OverrideMap(items[..|items| - 1])[Upper(items[|items| - 1].0) := items[|items| - 1].1]
  }

  /** A single `[overrides]` item gives a dict of one upper-cased key. */
  lemma SingleOverride(option: string, value: string)
    ensures OverrideMap([(option, value)]) == map[Upper(option) := value]
  {
    assert [(option, value)][..0] == [];
  }

  /** `config.update(overrides)`: every override replaces or adds its key, other keys stay. */
  function Update(config: Config, overrides: map<string, string>): Config {
    map k | k in config.Keys + overrides.Keys :: if k in overrides then Some(overrides[k]) else config[k]
  }

  /**
   * Every override key is stored upper-cased, and the value stored under a
   * key is that of the LAST item naming it; no other key is present.
   */
  lemma {:induction false} OverrideMapLastWins(items: seq<Item>, key: string)
    ensures key in OverrideMap(items) <==> exists i :: 0 <= i < |items| && Upper(items[i].0) == key
    ensures key in OverrideMap(items) ==>
      exists i :: 0 <= i < |items| && Upper(items[i].0) == key && OverrideMap(items)[key] == items[i].1
        && forall j :: i < j < |items| ==> Upper(items[j].0) != key
    decreases |items|
  {
    if items != [] {
      var n := |items| - 1;
      var init := items[..n];
      OverrideMapLastWins(init, key);
      forall i | 0 <= i < n
        ensures items[i] == init[i]
      {
      }
      if Upper(items[n].0) != key && key in OverrideMap(items) {
        var i :| 0 <= i < n && Upper(init[i].0) == key && OverrideMap(init)[key] == init[i].1
          && forall j :: i < j < n ==> Upper(init[j].0) != key;
        assert Upper(items[i].0) == key && OverrideMap(items)[key] == items[i].1;
      }
    }
  }

  /** Assigning one override more extends the layered dict by that key. */
  lemma UpdateStep(config: Config, items: seq<Item>, i: nat)
    requires i < |items|
    ensures Update(config, OverrideMap(items[..i + 1]))
         == Update(config, OverrideMap(items[..i]))[Upper(items[i].0) := Some(items[i].1)]
  {
    assert items[..i + 1][..i] == items[..i];
  }

  /** The loop at client.py 191-193: `config[key.upper()] = value` for each override in order. */
  method ApplyOverrideItems(config: Config, items: seq<Item>) returns (c: Config)
    ensures c == Update(config, OverrideMap(items))
  {
    c := config;
    var i := 0;
    while i < |items|
      invariant 0 <= i <= |items|
      invariant c == Update(config, OverrideMap(items[..i]))
    {
      var (key, value) := items[i];
      UpdateStep(config, items, i);
      c := c[Upper(key) := Some(value)];
      i := i + 1;
    }
    assert items[..|items|] == items;
  }

  /** What ConfigParser read from a settings file: a parse error, or the `[overrides]` items if the section exists. */
  datatype IniFile = Malformed | Parsed(overrides: Option<seq<Item>>)

  /** The exceptions `load_config` and `load_standard_config` let escape. */
  datatype LoadError = EnvironmentError | ValueError | FileNotFoundError | ParsingError

  /** `load_standard_config`: the upper-cased `[overrides]` dict, empty when the section is missing. */
  method LoadStandardConfig(settings: IniFile) returns (r: Result<map<string, string>, LoadError>)
    ensures settings.Malformed? <==> r.Err?
    ensures r.Err? ==> r.error == ParsingError
    ensures settings.Parsed? && settings.overrides.None? ==> r == Ok(map[])
    ensures settings.Parsed? && settings.overrides.Some? ==> r == Ok(OverrideMap(settings.overrides.value))
  {
    if settings.Malformed? {
      return Err(ParsingError);
    }
    var overrides: map<string, string> := map[];
    if settings.overrides.Some? {
      var items := settings.overrides.value;
      var i := 0;
      while i < |items|
        invariant 0 <= i <= |items|
        invariant overrides == OverrideMap(items[..i])
      {
        assert items[..i + 1][..i] == items[..i];
        overrides := overrides[Upper(items[i].0) := items[i].1];
        i := i + 1;
      }
      assert items[..|items|] == items;
    }
    return Ok(overrides);
  }

  /**
   * Layering is idempotent: when `main` re-applies the overrides that
   * `load_config` already applied (the same settings file), nothing changes.
   */
  lemma UpdateIdempotent(config: Config, overrides: map<string, string>)
    ensures Update(Update(config, overrides), overrides) == Update(config, overrides)
  {
  }

  // ---------------------------------------------------------------------------
  // load_config

  /** Outcome of Fernet decryption followed by `json.loads`: a string-valued object, or an error. */
  datatype Decrypted = Undecryptable | Decrypted(fields: map<string, string>)

  /** Writing `google_creds.json`: opening it for writing creates the file before `json.loads` of the payload can fail. */
  datatype CredsWrite = Written | OpenFailed | DumpFailed

  /** Everything `load_config` reads from its surroundings. */
  datatype ClientEnv = ClientEnv(
    frozen: bool,               // sys.frozen
    executable: Path,           // sys.executable
    cwd: Path,                  // Path.cwd()
    home: Path,                 // Path.home()
    files: set<string>,         // existing regular files
    encryptionKey: Option<string>, // CONFIG_ENCRYPTION_KEY
    decrypted: Decrypted,       // the decrypted and parsed config.enc
    credsPath: Path,            // get_google_creds_path()
    credsWrite: CredsWrite,
    settings: IniFile)          // startDir/settings.cfg, when it exists
  {
    /** The directory `load_config` searches from. */
    function Start(): Path {
      StartDir(frozen, executable, cwd)
    }  }

  /** The value `load_config` returns or raises, and the files that exist afterwards. */
  datatype Loaded = Loaded(result: Result<Config, LoadError>, files: set<string>)

  /** Python truthiness of a configuration value. */
  predicate Truthy(v: Option<string>) {
    v.Some? && v.value != ""
  }

  /** `dict.get(key)`. */
  function Lookup(c: Config, key: string): Option<string> {
    if key in c then c[key] else None
  }

  function Field(fields: map<string, string>, key: string): Option<string> {
    if key in fields then Some(fields[key]) else None
  }

  /** All four required fields are truthy. */
  predicate Complete(c: Config) {
    Truthy(Lookup(c, "MICROSOFT_TOKEN")) && Truthy(Lookup(c, "MICROSOFT_REGION"))
    && Truthy(Lookup(c, "MICROSOFT_TOKEN_TRANS")) && Truthy(Lookup(c, "GOOGLE_CREDS_PATH"))
  }

  /** The final checks of `load_config` (and of `main`): required fields, then the credentials file. */
  function Validate(c: Config, files: set<string>): (r: Result<Config, LoadError>)
    ensures r.Ok? <==> Complete(c) && Lookup(c, "GOOGLE_CREDS_PATH").value in files
    ensures r.Ok? ==> r.value == c
    ensures r.Err? ==> r.error == (if Complete(c) then FileNotFoundError else ValueError)
  {
    if !Complete(c) then Err(ValueError)
    else if Lookup(c, "GOOGLE_CREDS_PATH").value !in files then Err(FileNotFoundError)
    else Ok(c)
  }

  /**
   * What the decrypting `try` block leaves in `config` and on disk. An
   * exception inside it only resets `encrypted_config_path`: entries already
   * written stay, and a failed validation of them changes nothing.
   */
  function DecryptedLayer(env: ClientEnv): (Config, set<string>) {
    match env.decrypted
    case Undecryptable => (map[], env.files)
    case Decrypted(f) =>
      if !Truthy(Field(f, "GOOGLE_CREDS_JSON")) then (map[], env.files)
      else if env.credsWrite == OpenFailed then (map[], env.files)
      else if env.credsWrite == DumpFailed then (map[], env.files + {Render(env.credsPath)})
      else
        (map["GOOGLE_CREDS_PATH" := Some(Render(env.credsPath)),
             "MICROSOFT_TOKEN" := Field(f, "MICROSOFT_TOKEN"),
             "MICROSOFT_REGION" := Field(f, "MICROSOFT_REGION"),
             "MICROSOFT_TOKEN_TRANS" := Field(f, "MICROSOFT_TOKEN_TRANS")],
         env.files + {Render(env.credsPath)})
  }

  /** `load_config`, as a function of its surroundings. */
  function LoadConfigSpec(env: ClientEnv): Loaded {
    var found := Search(env.Start(), 5, env.files);
    if found.Some? && !Truthy(env.encryptionKey) then Loaded(Err(EnvironmentError), env.files)
    else
      var (config, files) := if found.Some? then DecryptedLayer(env) else (map[], env.files);
      var hasSettings := Render(Child(env.Start(), "settings.cfg")) in files;
      if hasSettings && env.settings.Malformed? then Loaded(Err(ParsingError), files)
      else
        var layered :=
          if hasSettings && env.settings.overrides.Some?
          then Update(config, OverrideMap(env.settings.overrides.value))
          else config;
        Loaded(Validate(layered, files), files)
  }

  /** `load_config()`. */
  method LoadConfig(env: ClientEnv) returns (loaded: Loaded)
    ensures loaded == LoadConfigSpec(env)
    ensures loaded.result.Ok? ==>
      Complete(loaded.result.value) && Lookup(loaded.result.value, "GOOGLE_CREDS_PATH").value in loaded.files
  {
    var config: Config := map[];
    var files := env.files;
    var encryptedConfigPath := FindConfigEnc(env.Start(), 5, env.files);
    if encryptedConfigPath.Some? {
      if !Truthy(env.encryptionKey) {
        return Loaded(Err(EnvironmentError), files);
      }
      if env.decrypted.Decrypted? {
        var decryptedConfig := env.decrypted.fields;
        if Truthy(Field(decryptedConfig, "GOOGLE_CREDS_JSON")) {
          if env.credsWrite != OpenFailed {
            files := files + {Render(env.credsPath)};
          }
          if env.credsWrite == Written {
            config := config["GOOGLE_CREDS_PATH" := Some(Render(env.credsPath))];
            config := config["MICROSOFT_TOKEN" := Field(decryptedConfig, "MICROSOFT_TOKEN")];
            config := config["MICROSOFT_REGION" := Field(decryptedConfig, "MICROSOFT_REGION")];
            config := config["MICROSOFT_TOKEN_TRANS" := Field(decryptedConfig, "MICROSOFT_TOKEN_TRANS")];
            // A failed validation here raises ValueError, which the enclosing
            // handler turns into the fallback: `config` keeps these entries.
          }
        }
      }
    }
    var settingsCfgPath := Child(env.Start(), "settings.cfg");
    if Render(settingsCfgPath) in files {
      match env.settings
      case Malformed =>
        return Loaded(Err(ParsingError), files);
      case Parsed(None) =>
      case Parsed(Some(items)) =>
        config := ApplyOverrideItems(config, items);
    }
    if !Complete(config) {
      return Loaded(Err(ValueError), files);
    }
    if Lookup(config, "GOOGLE_CREDS_PATH").value !in files {
      return Loaded(Err(FileNotFoundError), files);
    }
    return Loaded(Ok(config), files);
  }

  /**
   * A missing key raises EnvironmentError exactly when `config.enc` was
   * found: outside the fallback `try`, it is never downgraded.
   */
  lemma EnvironmentErrorIffFoundWithoutKey(env: ClientEnv)
    ensures LoadConfigSpec(env).result == Err(EnvironmentError)
        <==> Search(env.Start(), 5, env.files).Some? && !Truthy(env.encryptionKey)
  {
  }

  /**
   * If decryption wrote GOOGLE_CREDS_PATH but a Microsoft field is missing,
   * the entries survive the fallback: an override supplying only the missing
   * field makes `load_config` succeed with the decrypted credentials path.
   */
  lemma {:induction false} FallbackKeepsDecryptedEntries(env: ClientEnv, fields: map<string, string>, token: string)
    requires Search(env.Start(), 5, env.files).Some? && Truthy(env.encryptionKey)
    requires env.decrypted == Decrypted(fields) && env.credsWrite == Written
    requires Truthy(Field(fields, "GOOGLE_CREDS_JSON"))
    requires "MICROSOFT_TOKEN" !in fields
    requires Truthy(Field(fields, "MICROSOFT_REGION")) && Truthy(Field(fields, "MICROSOFT_TOKEN_TRANS"))
    requires Render(Child(env.Start(), "settings.cfg")) in env.files
    requires env.settings == Parsed(Some([("microsoft_token", token)])) && token != ""
    requires Render(env.credsPath) != ""
    ensures LoadConfigSpec(env).result.Ok?
    ensures Lookup(LoadConfigSpec(env).result.value, "GOOGLE_CREDS_PATH") == Some(Render(env.credsPath))
    ensures Lookup(LoadConfigSpec(env).result.value, "MICROSOFT_TOKEN") == Some(token)
  {
    SingleOverride("microsoft_token", token);
    assert Upper("microsoft_token") == "MICROSOFT_TOKEN";
    var (base, files) := DecryptedLayer(env);
    assert Lookup(base, "GOOGLE_CREDS_PATH") == Some(Render(env.credsPath));
    var layered := Update(base, map["MICROSOFT_TOKEN" := token]);
    assert Lookup(layered, "MICROSOFT_TOKEN") == Some(token);
    assert Lookup(layered, "GOOGLE_CREDS_PATH") == Some(Render(env.credsPath));
    assert Render(env.credsPath) in files;
    assert Complete(layered);
  }

  /**
   * With an `[overrides]` section, each key of the returned config is the
   * last override naming it (upper-cased) if there is one, and otherwise the
   * value the decrypted layer left.
   */
  lemma {:induction false} OverridesWinOverDecrypted(env: ClientEnv, key: string)
    requires !(Search(env.Start(), 5, env.files).Some? && !Truthy(env.encryptionKey))
    requires Render(Child(env.Start(), "settings.cfg")) in (if Search(env.Start(), 5, env.files).Some? then DecryptedLayer(env).1 else env.files)
    requires env.settings.Parsed? && env.settings.overrides.Some?
    requires LoadConfigSpec(env).result.Ok?
    ensures var c := LoadConfigSpec(env).result.value;
            var items := env.settings.overrides.value;
            var base := if Search(env.Start(), 5, env.files).Some? then DecryptedLayer(env).0 else map[];
            && (key in c <==> key in base || exists i :: 0 <= i < |items| && Upper(items[i].0) == key)
            && (key in c && key !in OverrideMap(items) ==> c[key] == base[key])
            && (key in OverrideMap(items) ==>
                  (exists i :: 0 <= i < |items| && Upper(items[i].0) == key
                     && c[key] == Some(items[i].1) && forall j :: i < j < |items| ==> Upper(items[j].0) != key))
  {
    OverrideMapLastWins(env.settings.overrides.value, key);
  }
}
