# cli-engine-config in Dafny

This is a model of the configuration resolver of heroku/cli-engine-config. A CLI
built on cli-engine calls `buildConfig(options)` once. The call combines four inputs
into one configuration record:

- the caller's partial configuration;
- the CLI's `package.json` (the manifest, with its `cli-engine` section);
- `process.env`;
- the facts reported by `os` and `process`.

Two revisions of the resolver are modelled:

- **`src/config.ts`** (module `ConfigTs`). It starts from a built-in manifest, which it
  replaces with one found under the caller's root. Some fields are computed directly.
  Others are getters that read the finished object (`this.bin`, `this.platform`, ...).
  The caller's keys are spread over everything, and the memo `__cache` is reset.
  - `hooks()` normalises every hook entry to a list.
  - `topics()` names unnamed topics in place.
  - `dir()` computes a data, config or cache directory and caches it per category.
- **`src/config.js`** (module `ConfigJs`). It builds a record of defaults and copies the
  caller's keys over it with `Object.assign`. It then recomputes `windows`, fills the
  three directories unless the caller gave them, and marks the result `_version: '1'`.

Shared pieces:

- Module `Runtime` holds the JavaScript and Node behaviour the resolver relies on:
  - absent versus present object keys;
  - `||` on strings;
  - `path.join` as a plain `/` join;
  - the last element of `split`;
  - ASCII `toUpperCase`;
  - `Array.prototype.join`;
  - `parseInt`.
- Module `Dirs` holds the base-directory order that both revisions of `dir()` share:
  1. the supplied base or a home-relative default;
  2. `LOCALAPPDATA` on Windows;
  3. `XDG_DATA_HOME` on every platform;
  4. then `/<dirname>` is appended.

Inputs that are not modelled directly:

- `process.env` is a `map<string, string>`.
- The `os`/`process` facts (home and temp directories, architecture, platform, `argv`,
  Node version, install root) form the `Host` record.
- A `package.json` read from disk is an optional parsed `ManifestFile` argument.

The imperative parts keep their shape:

- `hooks()` is a loop that fills a map.
- `topics()` is a loop that changes the `name` of `Topic` objects in place.
- The object returned by the `config.ts` `buildConfig` is a `Config` class whose `cache`
  field is `__cache`. Its `Dir`, `DataDir`, `ConfigDir` and `CacheDir` methods update
  that cache.
- The `config.js` `buildConfig` is a method that updates its record one assignment at a
  time.

The methods `Hooks`, `Config.Dir`, `ConfigJs.Dir` and `ConfigJs.BuildConfig` are proved
against pure specification functions (`NormalizedHooks`, `CachedDir`, `Dirs.DirPath`,
`Build`), and the properties of those functions are proved as lemmas. `Topics`,
`NewConfig` and the `config.ts` `BuildConfig` also state their effect on the topic
objects they name in place: every name is kept or given as `topics()` gives it, and
a marked configuration leaves those objects unchanged.

Points of the source's behaviour that the model keeps:

- `platform` maps `win32` to `windows` in `config.ts` (src/config.ts:289-291); `config.js`
  keeps `os.platform()` as it is (src/config.js:103).
- `home` is `os.homedir() || os.tmpdir()` in both revisions. No environment variable is
  consulted for it.
- All three directories read `XDG_DATA_HOME` (src/config.ts:83, src/config.js:58). There
  is no per-category `XDG_*_HOME` variable. `LOCALAPPDATA` applies to every category on
  Windows. The macOS `~/Library/Caches` path is only the starting base of the cache
  directory, and both environment overrides still replace it.
- The `config.js` debug level reads `HEROKU_DEBUG` alone (src/config.js:64-69).
- In `config.js`, `bin` falls back to the literal `'cli-engine'`, not to the name
  (src/config.js:106).
- `updateDisabled` is declared in the option types (src/config.ts:49, src/config.js:35),
  but neither `buildConfig` sets it. It is present only when the caller passes it.
- `config.ts` reads `package.json` with the merge as written at src/config.ts:263-270
  (see "## Findings"). `Build` and `BuildConfig` follow that code. `BuildIntended` is the
  same resolver with the evidently intended merge.

## Model

| member | source | states |
|---|---|---|
| Runtime.LastSegment | src/config.ts:137-149 | the last piece of a split is a suffix of the input with no separator in it, and a separator comes right before it when it is shorter than the input |
| Runtime.LastSegmentAfterSeparator | src/config.ts:137-149 | whatever precedes the last separator does not affect the last piece: `split` of `a + sep + b` ends with `b` |
| Runtime.Upper | src/config.ts:95-100 | `toUpperCase` keeps the length, upper-cases letter by letter, and leaves no lower-case letter |
| Runtime.JoinWith | src/config.ts:98 | joining nothing gives the empty string, one part gives that part, and the length is the parts' total plus one separator between each pair |
| Runtime.JoinWithAvoids | src/config.ts:95-100 | a character that is neither in any part nor the separator is not in the joined string |
| Runtime.TrimStart | src/config.js:67 | `parseInt` starts at a suffix of the input that does not begin with white space |
| Runtime.TrimStartRemovesSpace | src/config.js:67 | everything trimmed off the front is white space |
| Runtime.TrimStartSkips | src/config.js:67 | white space in front of a string that does not start with white space is exactly what is trimmed |
| Runtime.LeadingDigits | src/config.js:67 | `parseInt` reads the longest prefix of digits: all digits, and the next character is not one |
| Runtime.ParseInt | src/config.js:67 | blank input is `NaN`; a number is read only when, after white space, a digit comes first or right after one sign; a negative result needs a `-` |
| Runtime.LeadingDigitRun | src/config.js:67 | a run of digits (decimal or hexadecimal) followed by a non-digit is read up to exactly its end |
| Runtime.Signed | src/config.js:67 | a sign keeps or negates the magnitude, and only `-` gives a negative value |
| Runtime.DecimalMagnitude | src/config.js:67 | a decimal numeral not starting `0x` is read as a base-10 magnitude up to its last digit |
| Runtime.HexMagnitude | src/config.js:67 | after `0x` or `0X`, the run of hexadecimal digits is read as a base-16 magnitude |
| Runtime.ParseIntSignedDecimal | src/config.js:67 | white space, then an optional `+` or `-`, then a decimal numeral and a non-digit gives the numeral's value, negated after `-` |
| Runtime.ParseIntHex | src/config.js:67 | white space, then an optional sign, then `0x` or `0X` and hexadecimal digits gives their base-16 value, negated after `-` |
| Runtime.ParseIntLeadingDecimal | src/config.js:67 | `parseInt` of a decimal numeral followed by anything that is not a digit (and not `x` after a lone `0`) is that numeral's value |
| Runtime.ParseIntRejects | src/config.js:67 | a string starting with something other than a digit, white space or sign parses to `NaN` |
| Dirs.Base | src/config.ts:81-83 | the base is never empty: `XDG_DATA_HOME` when set, else `LOCALAPPDATA` on Windows when set, else the supplied base or the home-relative default |
| Dirs.DirPath | src/config.ts:81-84 | the directory is the base that the priority order picks, joined with `dirname`; it is non-empty and ends in `/<dirname>` |
| Dirs.SuppliedBaseUsed | src/config.js:113-114 | without `XDG_DATA_HOME`, and without `LOCALAPPDATA` on Windows, a supplied base such as `~/Library/Caches` is the base |
| Dirs.XdgDataHomeServesEveryCategory | src/config.js:58 | with `XDG_DATA_HOME` set, data, config and cache directories coincide at `$XDG_DATA_HOME/<dirname>` whatever base was supplied |
| Dirs.LocalAppDataOnlyOnWindows | src/config.ts:82 | off Windows, removing `LOCALAPPDATA` from the environment changes no directory |
| Dirs.LocalAppDataBeatsGivenBase | src/config.js:56-59 | on Windows without `XDG_DATA_HOME`, `LOCALAPPDATA` replaces even a supplied base |
| Dirs.HomeRelativeDefaults | src/config.ts:81 | without overrides and without a supplied base, the data directory is `~/.local/share/<dirname>` and any other category's is `~/.<category>/<dirname>` |
| ConfigTs.ReplaceDashes | src/config.ts:97 | every dash becomes an underscore, every other character and the length are kept, and no dash is left |
| ConfigTs.EnvVarKey | src/config.ts:95-100 | a scoped variable name has no dash and no lower-case letter |
| ConfigTs.EnvVarKeyFixesKeys | src/config.ts:95-100 | a name already in key form is its own key |
| ConfigTs.EnvVarKeyIdempotent | src/config.ts:95-100 | applying `envVarKey` to its own result changes nothing |
| ConfigTs.ScopedKey | src/config.ts:95-100 | the key of `(bin, suffix)` is the key of `bin`, `_`, and the key of the suffix |
| ConfigTs.EnvVarTrue | src/config.ts:102-105 | a variable counts as true if and only if it is set to exactly `1` or `true`; a true variable is never empty |
| ConfigTs.Debug | src/config.ts:90-93 | the debug level is always 0 or 1 |
| ConfigTs.DebugLevel | src/config.ts:90-105 | the level is 1 if and only if `DEBUG` contains `*` or `<BIN>_DEBUG` (bin upper-cased, dashes as underscores) is `1` or `true` |
| ConfigTs.DebugKey | src/config.ts:91 | the CLI's debug variable is `<BIN>_DEBUG`: the upper-cased `bin`, dashes as underscores, then `_DEBUG` |
| ConfigTs.SingleKey | src/config.ts:95-100 | the key of one part is that part with dashes replaced, upper-cased |
| ConfigTs.Shell | src/config.ts:137-149 | the shell contains no `/`; it is the last `/`-separated piece of `SHELL` when that is set, else on Windows the last `\`- or `/`-separated piece of `COMSPEC` when that is set, else `unknown` |
| ConfigTs.ShellFromComspec | src/config.ts:137-149 | `COMSPEC=C:\ProgramFiles\cmd.exe` gives `cmd.exe` on Windows and `unknown` elsewhere |
| ConfigTs.ShellFromShell | src/config.ts:137-149 | `SHELL=/bin/bash` gives `bash` even on Windows, `/usr/bin/fish` gives `fish`, and an empty environment gives `unknown` |
| ConfigTs.UserAgent | src/config.ts:151-154 | the user agent begins `<name>/<version>` and ends ` (<platform>-<arch>) node-<version>`; on `stable` nothing lies between the two, otherwise exactly ` <channel>` |
| ConfigTs.ChannelShown | src/config.ts:151-154 | any channel other than `stable` appears as ` <channel>` between the version and the platform part |
| ConfigTs.ChannelFollowsVersion | src/config.ts:151-154 | a channel other than `stable` reads as ` <channel>` appended to the version |
| ConfigTs.StableChannelHidden | src/config.ts:151-154 | on `stable` the agent is exactly `<name>/<version> (<platform>-<arch>) node-<node version>` |
| ConfigTs.CommandsDir | src/config.ts:156-161 | the commands directory exists if and only if the caller gave a root and a manifest whose section names `commands`, and is then `<root>/<commands>` |
| ConfigTs.UpdateHost | src/config.ts:188-192 | the update host exists if and only if `updateHost` or `s3.host` is set, is never empty, is `updateHost` when that is set, and is `s3.host` otherwise |
| ConfigTs.NormalizedHooks | src/config.ts:163-169 | the hooks map has the input's keys, each mapped to its scripts as a list |
| ConfigTs.Hooks | src/config.ts:163-169 | the loop builds exactly the normalised hooks map |
| ConfigTs.HooksShape | src/config.ts:166 | a single script `v` becomes `[v]` and a list is kept unchanged |
| ConfigTs.HooksIdempotent | src/config.ts:163-169 | normalising hooks that are already lists changes nothing |
| ConfigTs.Topics | src/config.ts:180-186 | the same map is returned; every entry ends up named; an existing name is kept; an unnamed entry that no other key shares gets its own key; any other new name is a key that shares the object |
| ConfigTs.MergeManifestAsWritten | src/config.ts:263-270 | as written, a file's `cli-engine` section replaces the merged section verbatim |
| ConfigTs.MergeManifest | src/config.ts:263-270 | the file's keys win at the top level and its section is merged key by key over the default section, so `hooks`, `defaultCommand` and `userPlugins` are always set |
| ConfigTs.MergeAsWrittenDropsDefaults | src/config.ts:263-270 | as written, a section without `userPlugins` leaves it unset where the merge sets `false` |
| ConfigTs.MergeAgreesWithoutSection | src/config.ts:263-270 | without a `cli-engine` section in the file, the as-written and merged manifests agree |
| ConfigTs.LoadManifest | src/config.ts:258-272 | only `pjson` can change; it changes if and only if the caller gave a root and no `pjson` and a `package.json` was found, and it is then the manifest merged as written |
| ConfigTs.LoadManifestIntended | src/config.ts:258-272 | the same step with the intended merge: the new `pjson` is the file's section merged over the default section |
| ConfigTs.Spread | src/config.ts:344 | every key of the caller's object replaces the derived one, and every key the caller left out keeps the derived value |
| ConfigTs.Resolve | src/config.ts:283-345 | every key the caller gave appears verbatim, `_version` is `'1'` unless given, and `pjson` is the caller's manifest or the built-in one |
| ConfigTs.ResolvedIdentity | src/config.ts:293-296 | `bin` is the section's `bin`, else the final `name`; `dirname` is the section's `dirname`, else the final `bin`; `defaultCommand` falls back to `help` |
| ConfigTs.ResolvedPlatform | src/config.ts:289-301 | without a caller value, a `win32` host reads `windows` and an `ia32` host `x86`, other values pass through, and `win32`/`ia32` never appear; `windows` holds if and only if the final platform is `windows` |
| ConfigTs.GettersReadResolvedValues | src/config.ts:302-316 | `shell`, `debug` and `userAgent` are computed from the final values, including the caller's `bin`, `platform`, `name` and `version` |
| ConfigTs.ResolvedHostKeys | src/config.ts:287-292 | unless the caller gives them, `root` is the install root, `argv` is the process arguments after the first, `mock` is `false` and `legacyConverter` is the section's; the object itself holds only the caller's `dataDir`, `configDir` and `cacheDir`, because those are getters |
| ConfigTs.ResolvedCollections | src/config.ts:287-298 | hooks and topics come from the manifest unless given; `commandsDir`, `updateHost`, `userPlugins` follow the manifest; `home` is the home directory, else the temp directory |
| ConfigTs.ResolveLoaded | src/config.ts:296-343 | once the manifest is in place, `hooks` is the normalised hooks of its section and `topics` its topics unless the caller gave them, and `userPlugins` is the section's unless given |
| ConfigTs.Build | src/config.ts:255-347 | a configuration marked `_version: '1'` is returned unchanged; otherwise every caller key is kept and an unmarked input is marked |
| ConfigTs.BuildIntended | src/config.ts:255-347 | with the intended merge, a manifest read from disk always yields `userPlugins`, `hooks` and `defaultCommand`, and caller keys still win |
| ConfigTs.BuildIsIdempotent | src/config.ts:257 | resolving a resolved configuration returns it unchanged, whatever the environment and manifest the second time |
| ConfigTs.DefaultsWithoutManifest | src/config.ts:273-298 | with nothing given: name, bin and dirname `cli-engine`, version `0.0.0`, command `help`, channel `stable`, empty hooks and topics, `userPlugins` false, no commands directory or update host |
| ConfigTs.WindowsPlatform | src/config.ts:290 | on a `win32` host the platform reads `windows` and the `windows` flag is true |
| ConfigTs.ReadManifestSection | src/config.ts:258-298 | a manifest read from disk gives its section's `userPlugins` as it stands (absent when omitted, where the intended merge gives `false`), its normalised hooks, and its `defaultCommand` or `help` |
| ConfigTs.CachedDir | src/config.ts:77-88 | a non-empty cached entry for the category is the answer; without one, the answer is the directory the base order gives; it is never empty |
| ConfigTs.DirAnswersFromCache | src/config.ts:78-80 | once a category has been answered, a later call returns the same directory whatever the environment or supplied base are then |
| ConfigTs.MacCacheDir | src/config.ts:323-325 | on macOS without overrides the cache directory is `~/Library/Caches/<dirname>` |
| ConfigTs.Config.constructor | src/config.ts:345 | a new configuration object starts with an empty `__cache` |
| ConfigTs.Config.Dir | src/config.ts:77-88 | returns the cached directory for the category or the one the base order gives, and records it under `dir:<category>` |
| ConfigTs.Config.DataDir | src/config.ts:317-319 | the caller's `dataDir` when given (cache untouched), else `dir('data')` |
| ConfigTs.Config.ConfigDir | src/config.ts:320-322 | the caller's `configDir` when given (cache untouched), else `dir('config')` |
| ConfigTs.Config.CacheDir | src/config.ts:323-325 | the caller's `cacheDir` when given, else `dir('cache')`, starting from `~/Library/Caches` on macOS |
| ConfigTs.NewConfig | src/config.ts:283-346 | the returned object is new, has an empty `__cache` and holds the configuration resolved over the loaded manifest, and the manifest's topic objects are named as `topics()` names them |
| ConfigTs.BuildConfig | src/config.ts:255-347 | a marked input is returned as the same object, with its `pjson` and the manifest's topic objects unchanged; otherwise a found manifest is stored on the caller's object, the manifest's topics are named as `topics()` names them (existing names kept, an unnamed sole-key entry named after its key), and a fresh object with an empty cache holds the resolved configuration |
| ConfigJs.HerokuDebug | src/config.js:64-69 | `HEROKU_DEBUG=true` gives 1, unset or empty gives 0, anything else is its `parseInt` |
| ConfigJs.DebugLevel | src/config.js:100 | a debug value that is missing or falsy falls back to 0: unset or empty gives 0, `true` gives 1, a value `parseInt` rejects gives 0, and a parsed value is the level |
| ConfigJs.DebugReadsLeadingInteger | src/config.js:64-69 | a leading decimal numeral in `HEROKU_DEBUG` is the debug level, whatever follows it |
| ConfigJs.DebugIgnoresWords | src/config.js:100 | a value that does not start like a number gives level 0, because a failed parse falls back to 0 |
| ConfigJs.Defaults | src/config.js:90-108 | the default record always names the CLI, its directory, the home directory and the platform |
| ConfigJs.Assign | src/config.js:109 | every key of the options replaces the default, every key the options leave out keeps the default, and assigning nothing changes nothing |
| ConfigJs.Dir | src/config.js:55-62 | the directory follows the shared base order and ends in `/<dirname>` |
| ConfigJs.Build | src/config.js:88-119 | a truthy `_version` returns the input; otherwise caller keys win, `windows` follows the final platform, all three directories are set (the caller's unless empty), and `_version` is `'1'` |
| ConfigJs.BuildConfig | src/config.js:88-119 | the step-by-step assignments produce exactly the built configuration |
| ConfigJs.MacCacheDir | src/config.js:113-114 | on macOS, without the environment overrides and without a caller's `cacheDir`, the cache directory is `~/Library/Caches/<dirname>` |
| ConfigJs.BuildIsIdempotent | src/config.js:89 | building a built configuration returns it unchanged |
| ConfigJs.FallbackChains | src/config.js:90-107 | each key the caller leaves out falls back: name to the manifest or `cli-engine`; dirname to the section, else the caller's name, else that fallback name; bin to the section or `cli-engine`; version, command and `s3` to the manifest or defaults; `pjson` to an empty manifest; `debug` to the `HEROKU_DEBUG` level; `home` to the home directory, else the temp directory; `platform`, `arch` and `root` to the host's (and `windows` then follows the host); `channel` to `stable`; `updateDisabled` stays unset |
| ConfigJs.DefaultProps | src/config.test.js:7-19 | with no options the documented defaults hold and `windows` follows the host platform |
| ConfigJs.ReadsManifestValues | src/config.test.js:21-34 | name, version and dirname are read from the manifest |
| ConfigJs.VersionFromOptions | src/config.test.js:36-39 | a `version` option wins |
| ConfigJs.BinIgnoresName | src/config.js:106 | a name without a section `bin` leaves `bin` at `cli-engine`, while `dirname` follows the name |
| ConfigJs.WindowsFollowsPlatform | src/config.js:110 | a caller's `windows` is overwritten from the final platform |

## Left out

- Reading `package.json` (`fs.existsSync`, `fs.readJSONSync`) is not modelled. The parsed file is an optional argument, and a file that fails to parse (which throws) is not modelled.
- Creating directories (`fs.mkdirpSync`) is not modelled. The call can throw (for example on a permission error), and the `dir()` call and the getter or `buildConfig` that made it then throw. The model assumes it succeeds.
- `loadUserConfig`, `envSkipAnalytics` and the `userConfig`, `skipAnalytics` and `install` getters (src/config.ts:107-135, 171-178, 326-334) are not modelled. They read and write a JSON file and generate an identifier.
- `skipAnalytics`, `netrcLogin` and `_skipAnalytics` in src/config.js (lines 70-86, 105, 116-118) are not modelled. They are asynchronous and read a netrc file.
- `path.join` is a plain `a + "/" + b`. Node's normalisation (`.`, `..`, doubled slashes) is not modelled. On Windows, Node joins with `\`, so the source's Windows directories end in `\<dirname>`, not in `/<dirname>` as in the model.
- `toUpperCase` is modelled on ASCII letters only.
- `parseInt` is exact on unbounded integers. The model does not lose precision above 2^53 as a JavaScript number does.
- A key present with the value `undefined` is treated as an absent key. In JavaScript, the spread and `Object.assign` copy it.
- `buildConfig(null)` is not modelled.
- A caller-supplied `pjson` without a `cli-engine` section is not modelled: in `src/config.ts` it makes the property accesses throw, and the model's manifest always has a section.
- Getters are evaluated once, with one snapshot of the environment, except the three directories. A getter in the source re-reads `process.env` on each access.
- ConfigTs.Topics: when two keys share one topic object, the contract says only that the object is named after one of those keys. JavaScript names it after the first of those keys in `Object.entries` order (integer-like keys first, in ascending order, then the others in insertion order; the first non-empty one when that key is empty), and the model does not track that order.
- The class-based revision exercised by src/config.test.ts (`corePlugins`, `npmRegistry`, `reexecBin`, `XDG_CACHE_HOME`, `platform` staying `win32`) is not part of this model. schema.js and the interface-only files are not part of this model either.

## Findings

| source | as written | input that shows it | evidently intended | confidence | as-written member | corrected member |
|---|---|---|---|---|---|---|
| src/config.ts:263-270 | the file's whole object is spread after the merged `cli-engine` section, so a file that has that section replaces the merged one | a `package.json` whose section is `{"bin": "my"}`: the result has no `userPlugins`, `hooks` or `defaultCommand` in `pjson['cli-engine']`, and `userPlugins` resolves to `undefined` instead of `false` | the file's section merged key by key over the default section | high, not executed | ConfigTs.ReadManifestSection | ConfigTs.BuildIntended |
