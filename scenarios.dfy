/**
 * The behaviours exercised by lib/config.spec.js, replayed against the
 * contracts of `Config`: each method builds a store the way the test does
 * and its postcondition states what the test asserts.  The parsers are
 * parameters; where a test reads `config.json` or `config.toml`, the
 * parser is required to turn the text into `ConfigJson()`.
 */
module ConfigScenarios {
  import opened Wrappers
  import opened EnvKey
  import opened NestedMap
  import opened Merge
  import opened ConfigStore

  /** The path of a two-segment key. */
  lemma TwoSegments(a: string, b: string)
    requires '.' !in a && '.' !in b
    ensures Split(a + "." + b) == [a, b]
  {
    assert Join([a, b]) == a + "." + b;
    SplitJoin([a, b]);
  }

  /** A store with defaults only reads them back unchanged. */
  lemma SnapshotOfDefaults(defaults: Tree)
    requires defaults.Node?
    ensures Merged(defaults, Empty, Empty) == defaults
  {
    MergeIntoEmpty(defaults);
    MergeEmpty(defaults);
  }

  /** The object `config.json` (and `config.toml`) parse to: `http.host` and `http.port`. */
  function ConfigJson(): Tree {
    Node(map["http" := Node(map["host" := Leaf(Str("0.0.0.0")), "port" := Leaf(Num(4000))])])
  }

  /** What `ConfigJson()` holds, and that it has no `http.root`. */
  lemma ConfigJsonContents()
    ensures Get(ConfigJson(), ["http", "host"]) == Some(Leaf(Str("0.0.0.0")))
    ensures Get(ConfigJson(), ["http", "port"]) == Some(Leaf(Num(4000)))
    ensures Absent(ConfigJson(), ["http", "root"])
  {
    assert ["http", "host"][1..] == ["host"];
    assert ["http", "port"][1..] == ["port"];
    assert ["http", "root"][1..] == ["root"];
  }

  /** The name of the variable the environment tests set, `PREFIX_HTTP_HOST`. */
  function HostVariable(): string {
    "PREFIX" + "_" + "HTTP" + "_" + "HOST"
  }

  /** The environment of those tests, as far as `PREFIX` matches it: the one variable. */
  function HostEnv(): map<string, string> {
    map[HostVariable() := "localhost"]
  }

  /** A key set in `envs` overrides whatever the file and the defaults say. */
  lemma EnvWins(defaults: Tree, file: Tree, p: Path, x: Scalar)
    requires p != []
    ensures Get(Merged(defaults, file, Set(Empty, p, Leaf(x))), p) == Some(Leaf(x))
  {
    GetSet(Empty, p, Leaf(x), p);
    assert p[|p|..] == [];
    Precedence(defaults, file, Set(Empty, p, Leaf(x)), p, x);
  }

  /**
   * `autoEnv` over that environment, with the prefix in either case, stores
   * `localhost` at `http.host`.
   */
  lemma AutoEnvOfHostEnv(env: map<string, string>, names: seq<string>, prefix: string, replacer: string)
    requires env == HostEnv() && names == [HostVariable()]
    requires (prefix == "PREFIX" || prefix == "prefix") && replacer == "_"
    ensures forall n :: n in names ==> n in env
    ensures AutoEnvTree(env, names, prefix, replacer) == Set(Empty, ["http", "host"], Leaf(Str("localhost")))
  {
    var name := HostVariable();
    ExampleWords();
    assert name == "PREFIX" + ['_'] + ("HTTP" + ['_'] + "HOST");
    LowerAround("PREFIX", '_', "HTTP" + ['_'] + "HOST");
    LowerAround("HTTP", '_', "HOST");
    assert Lower(name) == "prefix" + ("_" + "http" + "_" + "host");
    assert MatchesPrefix(name, prefix);
    FromEnvKeyExample();
    TwoSegments("http", "host");
    assert EnvPath(name, prefix, "_") == ["http", "host"];
    assert names[..0] == [];
  }

  /** A default makes its key present, and only its key (lines 14-19). */
  method HasScenario(json: Parser, toml: Parser) returns (port: bool, root: bool)
    ensures port && !root
  {
    var portKey, rootKey := "http" + "." + "port", "http" + "." + "root";
    TwoSegments("http", "port");
    TwoSegments("http", "root");
    var config := new Config("", "", json, toml);
    var _ := config.SetDefault(portKey, Leaf(Num(5000)));
    SnapshotOfDefaults(config.defaults);
    port := config.Has(portKey);
    root := config.Has(rootKey);
    GetSet(Empty, ["http", "port"], Leaf(Num(5000)), ["http", "root"]);
  }

  /** Writes after the first read do not reach the snapshot (lines 21-28). */
  method FreezeScenario(json: Parser, toml: Parser) returns (frozen: bool, port: Option<Tree>)
    ensures frozen && port == Some(Leaf(Num(5000)))
  {
    var portKey := "http" + "." + "port";
    TwoSegments("http", "port");
    var config := new Config("", "", json, toml);
    var _ := config.SetDefault(portKey, Leaf(Num(5000)));
    SnapshotOfDefaults(config.defaults);
    config.Freeze();
    frozen := config.frozen;
    var _ := config.SetDefault(portKey, Leaf(Num(4000)));
    port := config.Get(portKey);
  }

  /** The store of the defaults test, before its first read. */
  method DefaultsSetup(json: Parser, toml: Parser) returns (config: Config)
    ensures fresh(config) && config.Valid() && !config.frozen
    ensures Get(Merged(config.defaults, config.file, config.envs), ["http", "root"]) == Some(Leaf(Str("/")))
    ensures Get(Merged(config.defaults, config.file, config.envs), ["http", "port"]) == Some(Leaf(Num(5000)))
  {
    TwoSegments("http", "root");
    TwoSegments("http", "port");
    config := new Config("", "", json, toml);
    var _ := config.SetDefault("http" + "." + "root", Leaf(Str("/")));
    var _ := config.SetDefault("http" + "." + "port", Leaf(Num(5000)));
    SnapshotOfDefaults(config.defaults);
    GetSet(Empty, ["http", "root"], Leaf(Str("/")), ["http", "root"]);
    GetSet(Set(Empty, ["http", "root"], Leaf(Str("/"))), ["http", "port"], Leaf(Num(5000)), ["http", "root"]);
    GetSet(Set(Empty, ["http", "root"], Leaf(Str("/"))), ["http", "port"], Leaf(Num(5000)), ["http", "port"]);
  }

  /** Defaults read back (lines 31-38). */
  method DefaultsScenario(json: Parser, toml: Parser) returns (root: Option<Tree>, port: Option<Tree>)
    ensures root == Some(Leaf(Str("/")))
    ensures port == Some(Leaf(Num(5000)))
  {
    TwoSegments("http", "root");
    TwoSegments("http", "port");
    var config := DefaultsSetup(json, toml);
    root := config.Get("http" + "." + "root");
    port := config.Get("http" + "." + "port");
  }

  /** `Config.fromFile` of a file the json parser turns into `ConfigJson()`. */
  method LoadConfigJson(text: string, json: Parser, toml: Parser) returns (config: Config)
    requires json(text) == Success(ConfigJson())
    ensures fresh(config) && config.Valid() && !config.frozen
    ensures config.defaults == Empty && config.file == ConfigJson() && config.envs == Empty
    ensures config.envKeyReplacer == "_"
  {
    var loaded := Config.FromFile("", Some(text), json, toml);
    config := loaded.value;
  }

  /**
   * The snapshot of the test that overrides defaults from `config.json`:
   * the file decides `http.host` and `http.port` whatever the defaults say,
   * and the default `http.root` survives.
   */
  lemma OverrideDefaultsSnapshot(defaults: Tree)
    requires Get(defaults, ["http", "root"]) == Some(Leaf(Str("/")))
    ensures Get(Merged(defaults, ConfigJson(), Empty), ["http", "root"]) == Some(Leaf(Str("/")))
    ensures Get(Merged(defaults, ConfigJson(), Empty), ["http", "host"]) == Some(Leaf(Str("0.0.0.0")))
    ensures Get(Merged(defaults, ConfigJson(), Empty), ["http", "port"]) == Some(Leaf(Num(4000)))
  {
    ConfigJsonContents();
    Precedence(defaults, ConfigJson(), Empty, ["http", "root"], Str("/"));
    Precedence(defaults, ConfigJson(), Empty, ["http", "host"], Str("0.0.0.0"));
    Precedence(defaults, ConfigJson(), Empty, ["http", "port"], Num(4000));
  }

  /** The store of the test that overrides defaults from `config.json`, before its first read. */
  method OverrideDefaultsSetup(text: string, json: Parser, toml: Parser) returns (config: Config)
    requires json(text) == Success(ConfigJson())
    ensures fresh(config) && config.Valid() && !config.frozen
    ensures Get(Merged(config.defaults, config.file, config.envs), ["http", "root"]) == Some(Leaf(Str("/")))
    ensures Get(Merged(config.defaults, config.file, config.envs), ["http", "host"]) == Some(Leaf(Str("0.0.0.0")))
    ensures Get(Merged(config.defaults, config.file, config.envs), ["http", "port"]) == Some(Leaf(Num(4000)))
  {
    TwoSegments("http", "root");
    config := LoadConfigJson(text, json, toml);
    var _ := config.SetDefault("http" + "." + "host", Leaf(Str("127.0.0.1")));
    var _ := config.SetDefault("http" + "." + "port", Leaf(Num(5000)));
    var before := config.defaults;
    var _ := config.SetDefault("http" + "." + "root", Leaf(Str("/")));
    GetSet(before, ["http", "root"], Leaf(Str("/")), ["http", "root"]);
    OverrideDefaultsSnapshot(config.defaults);
  }

  /** File values beat defaults; defaults the file lacks survive the merge (lines 40-49). */
  method OverrideDefaultsScenario(text: string, json: Parser, toml: Parser)
    returns (root: Option<Tree>, host: Option<Tree>, port: Option<Tree>)
    requires json(text) == Success(ConfigJson())
    ensures root == Some(Leaf(Str("/")))
    ensures host == Some(Leaf(Str("0.0.0.0")))
    ensures port == Some(Leaf(Num(4000)))
  {
    TwoSegments("http", "root");
    TwoSegments("http", "host");
    TwoSegments("http", "port");
    var config := OverrideDefaultsSetup(text, json, toml);
    root := config.Get("http" + "." + "root");
    host := config.Get("http" + "." + "host");
    port := config.Get("http" + "." + "port");
  }

  /**
   * `fromFile` with no format, with `json` and with `toml` loads the file
   * through the matching parser (lines 53-69).
   */
  method FromFileScenario(format: string, text: string, json: Parser, toml: Parser)
    returns (host: Option<Tree>, port: Option<Tree>)
    requires || (FormatOrJson(format) == "json" && json(text) == Success(ConfigJson()))
             || (format == "toml" && toml(text) == Success(ConfigJson()))
    ensures host == Some(Leaf(Str("0.0.0.0")))
    ensures port == Some(Leaf(Num(4000)))
  {
    var hostKey, portKey := "http" + "." + "host", "http" + "." + "port";
    TwoSegments("http", "host");
    TwoSegments("http", "port");
    var loaded := Config.FromFile(format, Some(text), json, toml);
    var config := loaded.value;
    ConfigJsonContents();
    Precedence(Empty, ConfigJson(), Empty, ["http", "host"], Str("0.0.0.0"));
    Precedence(Empty, ConfigJson(), Empty, ["http", "port"], Num(4000));
    host := config.Get(hostKey);
    port := config.Get(portKey);
  }

  /** A file that does not exist leaves only the defaults (lines 71-75). */
  method MissingFileScenario(json: Parser, toml: Parser) returns (host: Option<Tree>)
    ensures host == Some(Leaf(Str("127.0.0.1")))
  {
    var hostKey := "http" + "." + "host";
    TwoSegments("http", "host");
    var loaded := Config.FromFile("", None, json, toml);
    var config := loaded.value;
    var _ := config.SetDefault(hostKey, Leaf(Str("127.0.0.1")));
    SnapshotOfDefaults(config.defaults);
    GetSet(Empty, ["http", "host"], Leaf(Str("127.0.0.1")), ["http", "host"]);
    host := config.Get(hostKey);
  }

  /** An existing file in a format with no parser is an error (lines 77-81). */
  method UnknownFormatScenario(text: string, json: Parser, toml: Parser) returns (r: Result<Config, LoadError>)
    ensures r == Failure(UnrecognisedParser("yaml"))
  {
    r := Config.FromFile("yaml", Some(text), json, toml);
  }

  /** A parser registered under a new format is used by `fromFile` (lines 84-91). */
  method AddParserScenario(text: string, custom: Parser, json: Parser, toml: Parser) returns (host: Option<Tree>)
    requires custom(text) == Success(ConfigJson())
    ensures host == Some(Leaf(Str("0.0.0.0")))
  {
    var hostKey := "http" + "." + "host";
    TwoSegments("http", "host");
    var config := new Config("", "", json, toml);
    var _ := config.AddParser("custom", custom);
    var _ := config.LoadFile("custom", Some(text));
    ConfigJsonContents();
    Precedence(Empty, ConfigJson(), Empty, ["http", "host"], Str("0.0.0.0"));
    host := config.Get(hostKey);
  }

  /** `bindEnv('http.host')` with prefix `PREFIX` reads `PREFIX_HTTP_HOST` (lines 93-103). */
  method BindEnvScenario(env: map<string, string>, json: Parser, toml: Parser) returns (host: Option<Tree>)
    requires HostVariable() in env && env[HostVariable()] == "localhost"
    ensures host == Some(Leaf(Str("localhost")))
  {
    var hostKey := "http" + "." + "host";
    TwoSegments("http", "host");
    ToEnvKeyExample();
    var config := new Config("PREFIX", "", json, toml);
    var _ := config.BindEnv(hostKey, env);
    EnvWins(Empty, Empty, ["http", "host"], Str("localhost"));
    host := config.Get(hostKey);
  }

  /** The store of the `autoEnv` tests over defaults, before its first read. */
  method AutoEnvSetup(prefix: string, json: Parser, toml: Parser) returns (config: Config)
    requires prefix == "PREFIX" || prefix == "prefix"
    ensures fresh(config) && config.Valid() && !config.frozen
    ensures config.defaults == Set(Empty, ["http", "host"], Leaf(Str("0.0.0.0"))) && config.file == Empty
    ensures config.envs == Set(Empty, ["http", "host"], Leaf(Str("localhost")))
  {
    TwoSegments("http", "host");
    config := new Config(prefix, "", json, toml);
    var _ := config.SetDefault("http" + "." + "host", Leaf(Str("0.0.0.0")));
    var env, names := HostEnv(), [HostVariable()];
    AutoEnvOfHostEnv(env, names, config.envPrefix, config.envKeyReplacer);
    var _ := config.AutoEnv(env, names);
  }

  /**
   * `autoEnv` overrides a default, whatever the case of the prefix
   * (lines 105-122).
   */
  method AutoEnvScenario(prefix: string, json: Parser, toml: Parser) returns (host: Option<Tree>)
    requires prefix == "PREFIX" || prefix == "prefix"
    ensures host == Some(Leaf(Str("localhost")))
  {
    TwoSegments("http", "host");
    var config := AutoEnvSetup(prefix, json, toml);
    EnvWins(config.defaults, Empty, ["http", "host"], Str("localhost"));
    host := config.Get("http" + "." + "host");
  }

  /** The store of the `autoEnv` test over a file, before its first read. */
  method AutoEnvOverFileSetup(text: string, json: Parser, toml: Parser) returns (config: Config)
    requires json(text) == Success(ConfigJson())
    ensures fresh(config) && config.Valid() && !config.frozen
    ensures config.defaults == Empty && config.file == ConfigJson()
    ensures config.envs == Set(Empty, ["http", "host"], Leaf(Str("localhost")))
  {
    config := LoadConfigJson(text, json, toml);
    config.envPrefix := "PREFIX";
    var env, names := HostEnv(), [HostVariable()];
    AutoEnvOfHostEnv(env, names, config.envPrefix, config.envKeyReplacer);
    var _ := config.AutoEnv(env, names);
  }

  /** `autoEnv` overrides a value from the file (lines 124-129). */
  method AutoEnvOverFileScenario(text: string, json: Parser, toml: Parser) returns (host: Option<Tree>)
    requires json(text) == Success(ConfigJson())
    ensures host == Some(Leaf(Str("localhost")))
  {
    TwoSegments("http", "host");
    var config := AutoEnvOverFileSetup(text, json, toml);
    EnvWins(Empty, ConfigJson(), ["http", "host"], Str("localhost"));
    host := config.Get("http" + "." + "host");
  }
}
