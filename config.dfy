/**
 * The layered configuration store of lib/config.js.  A `Config` collects
 * three source trees (defaults, the parsed file and environment values),
 * and on the first read merges them once, later sources winning, into a
 * snapshot that every later read is served from.
 *
 * The process environment is passed in as a map (with the order in which
 * `Object.keys` enumerates it), the file read as an optional text, and the
 * `json`/`toml` parsers as functions.
 */
module ConfigStore {
  import opened Wrappers
  import opened EnvKey
  import opened NestedMap
  import opened Merge

  /** A format parser: text to a tree, or the message of the error it throws. */
  type Parser = string -> Result<Tree, string>

  /** The errors `fromFile` lets escape. */
  datatype LoadError =
    | UnrecognisedParser(format: string)  // no parser registered for the format
    | ParseError(message: string)         // thrown by the parser itself

  /** `merge.all([defaults, file, envs])`: folded from `{}`, later sources win. */
  function Merged(defaults: Tree, file: Tree, envs: Tree): Tree {
    DeepMerge(DeepMerge(DeepMerge(Empty, defaults), file), envs)
  }

  /**
   * Precedence: a leaf of the snapshot is the environment's, else (where the
   * environment leaves the place open) the file's, else (where the file
   * leaves it open too) the default.
   */
  lemma Precedence(defaults: Tree, file: Tree, envs: Tree, p: Path, x: Scalar)
    ensures Get(Merged(defaults, file, envs), p) == Some(Leaf(x)) <==>
              || Get(envs, p) == Some(Leaf(x))
              || (Absent(envs, p) && Get(file, p) == Some(Leaf(x)))
              || (Absent(envs, p) && Absent(file, p) && Get(defaults, p) == Some(Leaf(x)))
  {
    MergeIntoEmpty(defaults);
    MergeLeaf(defaults, file, p, x);
    MergeLeaf(DeepMerge(defaults, file), envs, p, x);
  }

  /** A key exists in the snapshot iff some source supplies it and no later source hides it. */
  lemma MergedHas(defaults: Tree, file: Tree, envs: Tree, p: Path)
    ensures Has(Merged(defaults, file, envs), p) <==>
              || Has(envs, p)
              || (Absent(envs, p) && Has(file, p))
              || (Absent(envs, p) && Absent(file, p) && Has(defaults, p))
  {
    MergeIntoEmpty(defaults);
    MergeHas(defaults, file, p);
    MergeHas(DeepMerge(defaults, file), envs, p);
  }

  /** The value `process.env[name]` that `bindEnv` stores: `undefined` when unset. */
  function EnvValue(env: map<string, string>, name: string): Tree {
    if name in env then Leaf(Str(env[name])) else Leaf(Undefined)
  }

  /** `autoEnv`'s filter: the name starts with the prefix, ignoring case. */
  predicate MatchesPrefix(name: string, prefix: string) {
    Lower(prefix) <= Lower(name)
  }

  /**
   * The filter does not look for the replacer after the prefix: every name
   * that starts with the prefix in any case matches (`PREFIXED_FOO` for
   * `PREFIX`; every name for the empty prefix).
   */
  lemma MatchesAnyContinuation(prefix: string, rest: string)
    ensures MatchesPrefix(Upper(prefix) + rest, prefix)
    ensures MatchesPrefix(Lower(prefix) + rest, prefix)
  {
    LowerAppend(Upper(prefix), rest);
    LowerAppend(Lower(prefix), rest);
    LowerOfUpper(prefix);
    LowerIdempotent(prefix);
  }

  /** The path `autoEnv` stores an environment variable at. */
  function EnvPath(name: string, prefix: string, replacer: string): Path {
    Split(FromEnvKey(name, prefix, replacer))
  }

  /**
   * The tree `autoEnv` builds: starting from `{}`, each matching name in
   * enumeration order is stored at its path.
   */
  function AutoEnvTree(env: map<string, string>, names: seq<string>, prefix: string, replacer: string): (r: Tree)
    requires forall n :: n in names ==> n in env
    ensures r.Node?
  {
    if names == [] then Empty
    else
      var t := AutoEnvTree(env, names[..|names| - 1], prefix, replacer);
      var name := names[|names| - 1];
      if MatchesPrefix(name, prefix) then Set(t, EnvPath(name, prefix, replacer), Leaf(Str(env[name])))
      else t
  }

  /**
   * `autoEnv` draws on nothing but the environment: every leaf of its tree is
   * the value of a matching variable, stored at that variable's path.
   */
  lemma {:induction false} AutoEnvLeafOrigin(env: map<string, string>, names: seq<string>, prefix: string, replacer: string, p: Path, x: Scalar)
    requires forall n :: n in names ==> n in env
    requires Get(AutoEnvTree(env, names, prefix, replacer), p) == Some(Leaf(x))
    ensures exists n :: n in names && MatchesPrefix(n, prefix) && EnvPath(n, prefix, replacer) == p && x == Str(env[n])
    decreases |names|
  {
    var init := names[..|names| - 1];
    var name := names[|names| - 1];
    var t := AutoEnvTree(env, init, prefix, replacer);
    if MatchesPrefix(name, prefix) {
      var q := EnvPath(name, prefix, replacer);
      SetLeafOrigin(t, q, Leaf(Str(env[name])), p, x);
      if q <= p && Get(Leaf(Str(env[name])), p[|q|..]) == Some(Leaf(x)) {
        assert p[|q|..] == [];
        assert p == q;
      } else {
        AutoEnvLeafOrigin(env, init, prefix, replacer, p, x);
      }
    } else {
      AutoEnvLeafOrigin(env, init, prefix, replacer, p, x);
    }
  }

  /**
   * A matching variable is found at its path, unless a later matching
   * variable's path overlaps it.
   */
  lemma {:induction false} AutoEnvBinds(env: map<string, string>, names: seq<string>, prefix: string, replacer: string, i: nat)
    requires forall n :: n in names ==> n in env
    requires i < |names| && MatchesPrefix(names[i], prefix)
    requires forall j :: i < j < |names| && MatchesPrefix(names[j], prefix) ==>
               Disjoint(EnvPath(names[j], prefix, replacer), EnvPath(names[i], prefix, replacer))
    ensures Get(AutoEnvTree(env, names, prefix, replacer), EnvPath(names[i], prefix, replacer))
         == Some(Leaf(Str(env[names[i]])))
    decreases |names|
  {
    var init := names[..|names| - 1];
    var name := names[|names| - 1];
    if i < |names| - 1 {
      AutoEnvBinds(env, init, prefix, replacer, i);
      if MatchesPrefix(name, prefix) {
        var t := AutoEnvTree(env, init, prefix, replacer);
        GetSet(t, EnvPath(name, prefix, replacer), Leaf(Str(env[name])), EnvPath(names[i], prefix, replacer));
      }
    }
  }

  /** `format || 'json'`. */
  function FormatOrJson(format: string): string {
    if format == "" then "json" else format
  }

  /** Simple file configuration loader (`class Config`). */
  class Config {
    var frozen: bool
    var defaults: Tree
    var file: Tree
    var envs: Tree
    var data: Tree
    var envPrefix: string
    var envKeyReplacer: string
    var parsers: map<string, Parser>

    /** Defaults and environment values are objects; the snapshot stays `{}` until the store is frozen. */
    ghost predicate Valid()
      reads this
    {
      defaults.Node? && envs.Node? && (!frozen ==> data == Empty)
    }

    /** `new Config(envPrefix, envKeyReplacer)`: an empty `envKeyReplacer` means `_`. */
    constructor (envPrefix: string, envKeyReplacer: string, json: Parser, toml: Parser)
      ensures Valid() && !frozen
      ensures defaults == Empty && file == Empty && envs == Empty && data == Empty
      ensures this.envPrefix == envPrefix
      ensures this.envKeyReplacer == if envKeyReplacer == "" then "_" else envKeyReplacer
      ensures parsers == map["json" := json, "toml" := toml]
    {
      frozen := false;
      defaults := Empty;
      file := Empty;
      envs := Empty;
      data := Empty;
      this.envPrefix := envPrefix;
      this.envKeyReplacer := if envKeyReplacer == "" then "_" else envKeyReplacer;
      var builtins: map<string, Parser> := map["json" := json, "toml" := toml];
      parsers := builtins;
    }

    /** Merges the three sources into the snapshot, on the first call only. */
    method Freeze()
      requires Valid()
      modifies this`frozen, this`data
      ensures Valid() && frozen
      ensures data == if old(frozen) then old(data) else Merged(defaults, file, envs)
    {
      if !frozen {
        data := Merged(defaults, file, envs);
        frozen := true;
      }
    }

    /** Looks `key` up in the snapshot, freezing first. */
    method Get(key: string) returns (r: Option<Tree>)
      requires Valid()
      modifies this`frozen, this`data
      ensures Valid() && frozen
      ensures data == if old(frozen) then old(data) else Merged(defaults, file, envs)
      ensures r == NestedMap.Get(data, Split(key))
    {
      Freeze();
      r := NestedMap.Get(data, Split(key));
    }

    /** Whether `key` is present in the snapshot, freezing first. */
    method Has(key: string) returns (r: bool)
      requires Valid()
      modifies this`frozen, this`data
      ensures Valid() && frozen
      ensures data == if old(frozen) then old(data) else Merged(defaults, file, envs)
      ensures r == NestedMap.Has(data, Split(key))
    {
      Freeze();
      r := NestedMap.Has(data, Split(key));
    }

    /** Stores a default value for `key`; only `defaults` changes. */
    method SetDefault(key: string, value: Tree) returns (self: Config)
      requires Valid()
      modifies this`defaults
      ensures Valid() && self == this
      ensures defaults == Set(old(defaults), Split(key), value)
    {
      defaults := Set(defaults, Split(key), value);
      self := this;
    }

    /** Binds `key` to the environment variable named by `toEnvKey`; only `envs` changes. */
    method BindEnv(key: string, env: map<string, string>) returns (self: Config)
      requires Valid()
      modifies this`envs
      ensures Valid() && self == this
      ensures envs == Set(old(envs), Split(key), EnvValue(env, ToEnvKey(key, envPrefix, envKeyReplacer)))
    {
      var envKey := ToEnvKey(key, envPrefix, envKeyReplacer);
      var value := EnvValue(env, envKey);
      envs := Set(envs, Split(key), value);
      self := this;
    }

    /**
     * Replaces `envs` wholesale by a tree of every variable that matches the
     * prefix; `names` is the environment's key order.
     */
    method AutoEnv(env: map<string, string>, names: seq<string>) returns (self: Config)
      requires Valid()
      requires forall n :: n in names <==> n in env
      modifies this`envs
      ensures Valid() && self == this
      ensures envs == AutoEnvTree(env, names, envPrefix, envKeyReplacer)
    {
      var acc := Empty;
      var i := 0;
      while i < |names|
        invariant 0 <= i <= |names|
        invariant acc == AutoEnvTree(env, names[..i], envPrefix, envKeyReplacer)
      {
        var name := names[i];
        assert names[..i + 1][..i] == names[..i] && names[..i + 1][i] == name;
        if MatchesPrefix(name, envPrefix) {
          var configKey := FromEnvKey(name, envPrefix, envKeyReplacer);
          acc := Set(acc, Split(configKey), Leaf(Str(env[name])));
        }
        i := i + 1;
      }
      assert names[..|names|] == names;
      envs := acc;
      self := this;
    }

    /** Registers (or replaces) the parser for `format`. */
    method AddParser(format: string, parser: Parser) returns (self: Config)
      requires Valid()
      modifies this`parsers
      ensures Valid() && self == this
      ensures parsers == old(parsers)[format := parser]
    {
      parsers := parsers[format := parser];
      self := this;
    }

    /**
     * Instance `fromFile`: `contents` is what reading the file gave, `None`
     * when it does not exist.  A missing file leaves `file` alone and is not
     * an error whatever the format; otherwise the format must have a parser,
     * and a parse error escapes.
     */
    method LoadFile(format: string, contents: Option<string>) returns (r: Result<Config, LoadError>)
      requires Valid()
      modifies this`file
      ensures Valid()
      ensures contents.None? ==> r == Success(this) && file == old(file)
      ensures contents.Some? && FormatOrJson(format) !in parsers ==>
                r == Failure(UnrecognisedParser(FormatOrJson(format))) && file == old(file)
      ensures contents.Some? && FormatOrJson(format) in parsers ==>
                match parsers[FormatOrJson(format)](contents.value)
                case Success(t) => r == Success(this) && file == t
                case Failure(m) => r == Failure(ParseError(m)) && file == old(file)
    {
      var fmt := FormatOrJson(format);
      if contents.None? {
        return Success(this);
      }
      if fmt !in parsers {
        return Failure(UnrecognisedParser(fmt));
      }
      var parsed := parsers[fmt](contents.value);
      match parsed
      case Success(t) =>
        file := t;
        r := Success(this);
      case Failure(m) =>
        r := Failure(ParseError(m));
    }

    /** Static `fromFile`: a store with the default prefix and replacer, loaded from one file. */
    static method FromFile(format: string, contents: Option<string>, json: Parser, toml: Parser)
      returns (r: Result<Config, LoadError>)
      ensures r.Success? ==> fresh(r.value) && r.value.Valid() && !r.value.frozen
      ensures r.Success? ==> r.value.defaults == Empty && r.value.envs == Empty && r.value.data == Empty
      ensures r.Success? ==> r.value.envPrefix == "" && r.value.envKeyReplacer == "_"
      ensures r.Success? ==> r.value.parsers == map["json" := json, "toml" := toml]
      ensures contents.None? ==> r.Success? && r.value.file == Empty
      ensures contents.Some? && FormatOrJson(format) !in {"json", "toml"} ==>
                r == Failure(UnrecognisedParser(FormatOrJson(format)))
      ensures contents.Some? && FormatOrJson(format) == "json" ==>
                match json(contents.value)
                case Success(t) => r.Success? && r.value.file == t
                case Failure(m) => r == Failure(ParseError(m))
      ensures contents.Some? && format == "toml" ==>
                match toml(contents.value)
                case Success(t) => r.Success? && r.value.file == t
                case Failure(m) => r == Failure(ParseError(m))
    {
      var config := new Config("", "", json, toml);
      var loaded := config.LoadFile(format, contents);
      if contents.Some? && format == "toml" {
        assert config.parsers["toml"](contents.value) == toml(contents.value);
        match toml(contents.value)
        case Success(t) => assert loaded == Success(config) && config.file == t;
        case Failure(m) => assert loaded == Failure(ParseError(m));
      } else if contents.Some? && FormatOrJson(format) == "json" {
        assert config.parsers["json"](contents.value) == json(contents.value);
        match json(contents.value)
        case Success(t) => assert loaded == Success(config) && config.file == t;
        case Failure(m) => assert loaded == Failure(ParseError(m));
      }
      if loaded.Failure? {
        return Failure(loaded.error);
      }
      r := Success(config);
    }
  }
}
