# node-simple-config in Dafny

A model of `lib/config.js` of node-simple-config, a layered configuration
store. A `Config` collects values from three sources:

- defaults set with `setDefault`;
- one parsed file, loaded with `fromFile` through a parser registered per
  format (`json` and `toml` built in, more via `addParser`);
- environment variables, bound one key at a time with `bindEnv` or all
  at once with `autoEnv`.

On the first `get`/`has` (or an explicit `freeze`) the three sources are
deep-merged once, later sources winning (defaults < file < environment).
Every later read is served from that snapshot, so writes after the first
read have no effect (assuming, as the model does, that the merge copies
nested objects). Keys are dotted paths (`http.port`). Environment
variable names are derived from keys with `toEnvKey` and mapped back with
`fromEnvKey`.

Files:

- `wrappers.dfy`: `Option` and `Result`.
- `env_key.dfy` (module `EnvKey`): ASCII case mapping, JavaScript's
  first-occurrence `String.replace`, and `toEnvKey` / `fromEnvKey` with
  their round trips.
- `nested_map.dfy` (module `NestedMap`): configuration trees and the
  `object-path` operations the store uses (`get`, `has`, `set` on a key
  split at every dot).
- `merge.dfy` (module `Merge`): the `deepmerge` of two trees, and what a
  merged tree holds at a path.
- `config.dfy` (module `ConfigStore`):
  - the `Config` class: its fields and every method;
  - the merged snapshot and its precedence;
  - the tree `autoEnv` builds.
- `scenarios.dfy` (module `ConfigScenarios`): the behaviours checked by
  `lib/config.spec.js`, written as methods. Each method's postcondition is
  the test's assertion.

Inputs the original takes from its surroundings become parameters:

- the process environment is a `map<string, string>`, plus the order in
  which `Object.keys` lists it;
- reading a file gives `Some(text)`, or `None` when the file does not
  exist;
- the `json` and `toml` parsers are functions passed to the constructor,
  returning a tree or the message of the error they throw.

Behaviours of the code that the model reproduces and proves:

- Both `toEnvKey` and `fromEnvKey` replace only the first separator,
  because `String.replace` with a string pattern replaces only the first
  occurrence:
  - `a.b.c` becomes `P_A_B.C` (`DeepKeyExample`);
  - `P_A_B_C` becomes `a.b_c`, not `a.b.c` (`DeepNameExample`).

  The key round trip still holds for any number of dots, because each
  direction touches only the first separator.
- `autoEnv` keeps every variable whose lower-cased name starts with the
  lower-cased prefix, whether or not the replacer follows. With prefix
  `PREFIX`, `PREFIXED_FOO` is kept; with the empty prefix, every variable
  is kept (`MatchesAnyContinuation`).
- `bindEnv` of a variable that is not set stores `undefined`. In the merge
  that is a value like any other, so it hides a default or file value at
  the same key.

## Model

| member | source | states |
|---|---|---|
| EnvKey.UpperMapsLetters | lib/config.js:176 | `toUpperCase` turns each lower-case letter into its upper-case letter, keeps every other character, and leaves no lower-case letter |
| EnvKey.UpperIdempotent | lib/config.js:176 | upper-casing twice is upper-casing once |
| EnvKey.LowerMapsLetters | lib/config.js:190-192 | `toLowerCase` turns each upper-case letter into its lower-case letter, keeps every other character, and leaves no upper-case letter |
| EnvKey.LowerIdempotent | lib/config.js:190-192 | lower-casing twice is lower-casing once |
| EnvKey.LowerOfUpper | lib/config.js:190-192 | lower-casing an upper-cased string is the same as lower-casing it directly |
| EnvKey.IndexOf | lib/config.js:177 | the index `replace` acts on is an occurrence of the pattern with no earlier occurrence; `None` exactly when the pattern occurs nowhere |
| EnvKey.ReplaceFirstAbsent | lib/config.js:177 | `replace` of a character that does not occur returns the string unchanged |
| EnvKey.ReplaceFirstChar | lib/config.js:176-177 | `replace` of a one-character pattern rewrites its first occurrence only; the rest of the string, later occurrences included, is kept |
| EnvKey.ReplaceFirstAtStart | lib/config.js:193 | a pattern at the start of the string is removed from there |
| EnvKey.ToEnvKeyNoDot | lib/config.js:175-180 | a key without a dot becomes upper-cased prefix, replacer, upper-cased key |
| EnvKey.ToEnvKeyFirstDot | lib/config.js:175-180 | only the first dot of a key becomes the replacer; the later segments keep their dots |
| EnvKey.FromEnvKeyShape | lib/config.js:189-195 | a name of the form prefix, replacer, head, replacer, tail (in any case) gives `head.tail` in lower case |
| EnvKey.FromEnvKeyNoReplacer | lib/config.js:189-195 | a name whose part after prefix and replacer holds no further replacer gives that part in lower case |
| EnvKey.EnvKeyRoundTrip | lib/config.js:175-195 | for a one-character replacer that is not an upper-case letter, a lower-case key without the replacer survives `toEnvKey` and then `fromEnvKey`, for any prefix and any number of dots |
| EnvKey.EnvNameRoundTrip | lib/config.js:175-195 | a name made of the upper-cased prefix, the replacer and an upper-case rest without dots survives `fromEnvKey` and then `toEnvKey` |
| EnvKey.ToEnvKeyExample | lib/config.spec.js:93-101 | `http.host` with prefix `PREFIX` is the variable `PREFIX_HTTP_HOST` |
| EnvKey.FromEnvKeyExample | lib/config.spec.js:105-122 | `PREFIX_HTTP_HOST` is the key `http.host`, with the prefix written `PREFIX` or `prefix` |
| EnvKey.DeepKeyExample | lib/config.js:176-177 | `a.b.c` with prefix `P` becomes `P_A_B.C`: the second dot stays |
| EnvKey.DeepNameExample | lib/config.js:191-194 | `P_A_B_C` with prefix `P` becomes `a.b_c`: the second separator stays |
| NestedMap.Split | lib/config.js:55 | a key is cut at every dot: at least one segment, no segment holds a dot, joining the segments gives the key back |
| NestedMap.SplitJoin | lib/config.js:55 | splitting joined dot-free segments gives the segments back |
| NestedMap.Set | lib/config.js:74 | `set` leaves an object at a non-empty path and the value readable at the path |
| NestedMap.GetSet | lib/config.js:74 | after `set` at `q`: below `q` the stored value, at places unrelated to `q` the old contents, on the way to `q` an object |
| NestedMap.SetLeafOrigin | lib/config.js:100 | a leaf read after `set` was stored by it or was already there at an untouched place |
| Merge.AbsentIsMissing | lib/config.js:38-42 | a place a tree leaves open is not present in it |
| Merge.MergeGet | lib/config.js:38-42 | the merge holds the earlier tree's value where the later leaves a place open, the later tree's leaf where it has one, nothing where a later scalar hides the place, an object where the later tree has one |
| Merge.MergeLeaf | lib/config.js:38-42 | a leaf of the merge is the later tree's leaf, or the earlier tree's where the later leaves the place open (both directions) |
| Merge.MergeHas | lib/config.js:38-42 | a place exists in the merge iff the later tree has it, or leaves it open and the earlier tree has it |
| Merge.MergeIntoEmpty | lib/config.js:38-42 | merging a tree into `{}` gives the tree itself |
| Merge.MergeEmpty | lib/config.js:38-42 | merging `{}` into an object changes nothing |
| ConfigStore.Precedence | lib/config.js:38-42 | a leaf of the snapshot is the environment's, else the file's where the environment leaves the place open, else the default's where both leave it open (both directions) |
| ConfigStore.MergedHas | lib/config.js:63-66 | a key exists in the snapshot iff some source has it and every later source leaves it open |
| ConfigStore.MatchesAnyContinuation | lib/config.js:95-97 | every name that begins with the prefix, in upper or lower case, passes the filter, whatever follows |
| ConfigStore.AutoEnvTree | lib/config.js:94-102 | the tree built by the filter-and-reduce is an object |
| ConfigStore.AutoEnvLeafOrigin | lib/config.js:94-102 | every leaf of that tree is the value of a matching variable, stored at that variable's path |
| ConfigStore.AutoEnvBinds | lib/config.js:94-102 | a matching variable's value is found at its path unless a later matching variable's path overlaps it |
| ConfigStore.Config.constructor | lib/config.js:18-30 | not frozen; the defaults, file, environment and snapshot trees are `{}`; the prefix is stored as given; an empty replacer becomes `_`; the parsers are `json` and `toml` |
| ConfigStore.Config.Freeze | lib/config.js:36-46 | the first call sets the snapshot to the merge of defaults, file and environment and marks the store frozen; later calls change nothing |
| ConfigStore.Config.Get | lib/config.js:53-56 | freezes first, then returns what the snapshot holds at the key's path |
| ConfigStore.Config.Has | lib/config.js:63-66 | freezes first, then says whether the snapshot holds the key's path |
| ConfigStore.Config.SetDefault | lib/config.js:73-76 | stores the value at the key's path in the defaults; nothing else changes; returns the store |
| ConfigStore.Config.BindEnv | lib/config.js:82-87 | stores the value of the variable named by `toEnvKey` (`undefined` when unset) at the key's path in the environment tree; nothing else changes |
| ConfigStore.Config.AutoEnv | lib/config.js:93-105 | replaces the environment tree with the tree of all matching variables, in enumeration order; nothing else changes |
| ConfigStore.Config.AddParser | lib/config.js:112-115 | registers or replaces the parser for the format; nothing else changes |
| ConfigStore.Config.LoadFile | lib/config.js:122-139 | a missing file returns the store unchanged; an unregistered format (default `json`) is an error and leaves the file tree alone; otherwise the parser's tree becomes the file tree, or its error escapes |
| ConfigStore.Config.FromFile | lib/config.js:147-151 | a fresh store with the default prefix and replacer, loaded from the file: the outcome for a missing file, a format other than `json`/`toml`, and each built-in parser's success or error |
| ConfigScenarios.EnvWins | lib/config.js:38-42 | a key set in the environment tree is read back whatever the defaults and the file hold |
| ConfigScenarios.AutoEnvOfHostEnv | lib/config.spec.js:105-122 | `autoEnv` over `PREFIX_HTTP_HOST=localhost`, with the prefix in either case, stores `localhost` at `http.host` |
| ConfigScenarios.HasScenario | lib/config.spec.js:14-19 | after a default for `http.port`, `has('http.port')` is true and `has('http.root')` is false |
| ConfigScenarios.FreezeScenario | lib/config.spec.js:21-28 | after `freeze` the store is frozen and a later write does not reach `get('http.port')`, which stays 5000 |
| ConfigScenarios.DefaultsScenario | lib/config.spec.js:31-38 | defaults for `http.root` and `http.port` are read back |
| ConfigScenarios.OverrideDefaultsSnapshot | lib/config.spec.js:40-49 | the file's `http.host` and `http.port` beat the defaults; the default `http.root` survives |
| ConfigScenarios.OverrideDefaultsScenario | lib/config.spec.js:40-49 | the same, through `fromFile`, `setDefault` and `get` |
| ConfigScenarios.FromFileScenario | lib/config.spec.js:53-69 | with no format, `json` or `toml`, the file is loaded through the matching parser and its `http.host` and `http.port` are read |
| ConfigScenarios.MissingFileScenario | lib/config.spec.js:71-75 | a missing file leaves the store usable and its defaults readable |
| ConfigScenarios.UnknownFormatScenario | lib/config.spec.js:77-81 | an existing file in format `yaml` is the error `Unrecognised parser yaml` |
| ConfigScenarios.AddParserScenario | lib/config.spec.js:84-91 | a parser added under `custom` is the one `fromFile` uses for that format |
| ConfigScenarios.BindEnvScenario | lib/config.spec.js:93-103 | `bindEnv('http.host')` with prefix `PREFIX` reads `PREFIX_HTTP_HOST` |
| ConfigScenarios.AutoEnvScenario | lib/config.spec.js:105-122 | `autoEnv` overrides a default, with the prefix in either case |
| ConfigScenarios.AutoEnvOverFileScenario | lib/config.spec.js:124-129 | `autoEnv` overrides a value from the file |

## Left out

- Reading the file: `fileLoader`, `fs`, and joining the path to the
  working directory are replaced by the optional file text. The message
  printed with `console.error` for a missing file is not modelled.
- The `json` and `toml` parsers, and lib/parsers.js: parsers are opaque
  functions supplied by the caller.
- `Object.freeze(this.data)`. Values are immutable in the model. The
  freeze test writes to `config.data.port`; the scenario instead writes a
  default after freezing.
- Case mapping outside ASCII. JavaScript's Unicode upper/lower casing is
  restricted to the letters A-Z and a-z.
- EnvKey.ReplaceFirst: does not model the `$&`, `$1` and similar
  patterns that `String.replace` expands in the replacement string. The
  replacer and the dot are taken literally.
- JSON/TOML values: numbers are integers (no floating point). There are no
  arrays, and so none of `object-path`'s numeric indices.
- `object-path` and `deepmerge` are modelled only for the calls
  lib/config.js makes:
  - the empty key (which `object-path` treats as the whole object) is split
    like any other key;
  - properties of strings (such as `length`) are not reachable with `get`.
- NestedMap.Set: a scalar met on the way to the path is replaced by an
  object. `object-path` creates an intermediate object only where the
  current value is `undefined`. Through any other scalar it descends into
  the scalar, and the write is lost silently or throws a `TypeError`. In
  the store this happens in `autoEnv` when a variable such as `PREFIX_HTTP`
  is enumerated before `PREFIX_HTTP_HOST`.
- ConfigStore.Merged: a file whose parsed value is not an object is not
  modelled. `deepmerge` ignores a top-level number or boolean, turns a
  string's characters into keys, and throws on `null`. The model lets
  such a scalar hide every default, so `Precedence`, `MergedHas` and
  `MergeGet`'s "a later scalar hides the place" describe the program only
  when the file and the environment trees are objects at the top. Below
  the top level a later scalar does replace the earlier value, as modelled.
- The model assumes the merge copies nested objects (the default of
  `deepmerge` from version 2 on). With a version that shares nested
  objects with `defaults`, `file` or `envs`, and a shallow
  `Object.freeze`, a `setDefault` after the first read would show through
  the snapshot. `FreezeScenario` states the copying behaviour.
- `parsers` lookups of inherited properties (for example the format name
  `toString`) are not modelled. Only formats registered in the map exist.
- ConfigStore.Config.constructor: the built-in parsers are parameters,
  where the original constructor creates them itself. An absent
  `envPrefix` is the empty string.
- ConfigStore.Config.AutoEnv: the filter and the reduce are fused into
  one loop. This produces the same tree.
- The scenarios replace the real environment with one holding only
  `PREFIX_HTTP_HOST`. The `autoEnv` scenarios therefore do not cover other
  variables that happen to match the prefix; `AutoEnvBinds` states the
  general case.
