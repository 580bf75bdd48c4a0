/** The older resolver of src/config.js. `buildConfig(options)` builds a record
    of defaults, copies the caller's keys over it with `Object.assign`, and then
    sets `windows`, the three directories and `_version` one assignment at a time. */
module ConfigJs {
  import opened Runtime
  import Dirs

  datatype S3 = S3(host: Option<string>, bucket: Option<string>)

  /** The 'cli-engine' section of package.json. */
  datatype Cli = Cli(
    dirname: Option<string>,
    defaultCommand: Option<string>,
    bin: Option<string>,
    s3: Option<S3>,
    plugins: Option<seq<string>>)

  /** A parsed package.json; every key may be missing (`null` reads as missing). */
  datatype Manifest = Manifest(
    name: Option<string>,
    version: Option<string>,
    dependencies: Option<map<string, string>>,
    cli: Option<Cli>)

  /** `{}` as a manifest and as a section. */
  const NoManifest := Manifest(None, None, None, None)
  const NoCli := Cli(None, None, None, None, None)
  const NoS3 := S3(None, None)

  /** `ConfigOptions`, that is `$Shape<Config>`: a key is present or absent.
      `_version` is `schemaVersion`. */
  datatype Options = Options(
    name: Option<string>,
    dirname: Option<string>,
    bin: Option<string>,
    s3: Option<S3>,
    root: Option<string>,
    home: Option<string>,
    pjson: Option<Manifest>,
    updateDisabled: Option<string>,
    defaultCommand: Option<string>,
    channel: Option<string>,
    version: Option<string>,
    debug: Option<int>,
    dataDir: Option<string>,
    cacheDir: Option<string>,
    configDir: Option<string>,
    arch: Option<string>,
    platform: Option<string>,
    windows: Option<bool>,
    schemaVersion: Option<string>)

  /** `{}`: no key given. */
  const NoOptions := Options(None, None, None, None, None, None, None, None, None, None,
                             None, None, None, None, None, None, None, None, None)

  /** `debug()`: `HEROKU_DEBUG` of `"true"` is 1, any other non-empty value is read
      with `parseInt` (`None` standing for `NaN`), and an unset or empty one is 0. */
  function HerokuDebug(env: Env): (level: Option<int>)
    ensures Get(env, "HEROKU_DEBUG") == Some("true") ==> level == Some(1)
    ensures !Truthy(Get(env, "HEROKU_DEBUG")) ==> level == Some(0)
    ensures Truthy(Get(env, "HEROKU_DEBUG")) && env["HEROKU_DEBUG"] != "true" ==>
      level == ParseInt(env["HEROKU_DEBUG"])
  {
    var v := Get(env, "HEROKU_DEBUG");
    if v == Some("true") then Some(1)
    else if Truthy(v) then ParseInt(v.value)
    else Some(0)
  }

  /** `debug() || 0`: a failed parse (`NaN`) becomes 0 as well. */
  function DebugLevel(env: Env): (level: int)
    ensures !Truthy(Get(env, "HEROKU_DEBUG")) ==> level == 0
    ensures Get(env, "HEROKU_DEBUG") == Some("true") ==> level == 1
    ensures Truthy(Get(env, "HEROKU_DEBUG")) && env["HEROKU_DEBUG"] != "true" && ParseInt(env["HEROKU_DEBUG"]).None? ==>
      level == 0
    ensures Truthy(Get(env, "HEROKU_DEBUG")) && env["HEROKU_DEBUG"] != "true" && ParseInt(env["HEROKU_DEBUG"]).Some? ==>
      level == ParseInt(env["HEROKU_DEBUG"]).value
  {
    match HerokuDebug(env)
    case Some(n) => n
    case None => 0
  }

  /** A leading decimal numeral in `HEROKU_DEBUG` is the debug level; whatever
      follows it is ignored. */
  lemma DebugReadsLeadingInteger(env: Env, ds: string, tail: string)
    requires ds != [] && forall i :: 0 <= i < |ds| ==> IsDecimal(ds[i])
    requires tail == [] || !IsDecimal(tail[0])
    requires !(ds == "0" && tail != [] && (tail[0] == 'x' || tail[0] == 'X'))
    requires Get(env, "HEROKU_DEBUG") == Some(ds + tail)
    ensures DebugLevel(env) == NumeralValue(ds, false)
  {
    assert (ds + tail)[0] == ds[0];
    ParseIntLeadingDecimal(ds, tail);
  }

  /** A value that is not a number, such as `"yes"`, gives level 0. */
  lemma DebugIgnoresWords(env: Env)
    requires Truthy(Get(env, "HEROKU_DEBUG")) && env["HEROKU_DEBUG"] != "true"
    requires var v := env["HEROKU_DEBUG"]; !IsDecimal(v[0]) && !IsJsSpace(v[0]) && v[0] != '-' && v[0] != '+'
    ensures DebugLevel(env) == 0
  {
    ParseIntRejects(env["HEROKU_DEBUG"]);
  }

  /** The `defaults` record of src/config.js:90-108. */
  function Defaults(options: Options, host: Host, env: Env): (d: Options)
    ensures d.name.Some? && d.dirname.Some? && d.home.Some? && d.platform.Some?
  {
    var pjson := Pick(options.pjson, NoManifest);
    var cli := Pick(pjson.cli, NoCli);
    var name := Or(options.name, Or(pjson.name, "cli-engine"));
    Options(
      name := Some(name),
      dirname := Some(Or(cli.dirname, name)),
      bin := Some(Or(cli.bin, "cli-engine")),
      s3 := Some(Pick(cli.s3, NoS3)),
      root := Some(host.installRoot),
      home := Some(Or(Some(host.homedir), host.tmpdir)),
      pjson := Some(pjson),
      updateDisabled := None,
      defaultCommand := Some(Or(cli.defaultCommand, "help")),
      channel := Some("stable"),
      version := Some(Or(pjson.version, "0.0.0")),
      debug := Some(DebugLevel(env)),
      dataDir := None,
      cacheDir := None,
      configDir := None,
      arch := Some(host.arch),
      platform := Some(host.platform),
      windows := None,
      schemaVersion := None)
  }

  /** Every key present in `given` appears verbatim in `r`. */
  predicate Overrides(given: Options, r: Options)
  {
    && Keeps(given.name, r.name) && Keeps(given.dirname, r.dirname) && Keeps(given.bin, r.bin)
    && Keeps(given.s3, r.s3) && Keeps(given.root, r.root) && Keeps(given.home, r.home)
    && Keeps(given.pjson, r.pjson) && Keeps(given.updateDisabled, r.updateDisabled)
    && Keeps(given.defaultCommand, r.defaultCommand) && Keeps(given.channel, r.channel)
    && Keeps(given.version, r.version) && Keeps(given.debug, r.debug) && Keeps(given.dataDir, r.dataDir)
    && Keeps(given.cacheDir, r.cacheDir) && Keeps(given.configDir, r.configDir) && Keeps(given.arch, r.arch)
    && Keeps(given.platform, r.platform) && Keeps(given.windows, r.windows)
    && Keeps(given.schemaVersion, r.schemaVersion)
  }

  /** Every key absent from `given` has, in `r`, the value it has in `base`. */
  predicate FillsFrom(given: Options, base: Options, r: Options)
  {
    && Fills(given.name, base.name, r.name) && Fills(given.dirname, base.dirname, r.dirname)
    && Fills(given.bin, base.bin, r.bin) && Fills(given.s3, base.s3, r.s3)
    && Fills(given.root, base.root, r.root) && Fills(given.home, base.home, r.home)
    && Fills(given.pjson, base.pjson, r.pjson)
    && Fills(given.updateDisabled, base.updateDisabled, r.updateDisabled)
    && Fills(given.defaultCommand, base.defaultCommand, r.defaultCommand)
    && Fills(given.channel, base.channel, r.channel) && Fills(given.version, base.version, r.version)
    && Fills(given.debug, base.debug, r.debug) && Fills(given.dataDir, base.dataDir, r.dataDir)
    && Fills(given.cacheDir, base.cacheDir, r.cacheDir)
    && Fills(given.configDir, base.configDir, r.configDir) && Fills(given.arch, base.arch, r.arch)
    && Fills(given.platform, base.platform, r.platform) && Fills(given.windows, base.windows, r.windows)
    && Fills(given.schemaVersion, base.schemaVersion, r.schemaVersion)
  }

  /** `Object.assign(target, source)`: the keys of `source` are copied over `target`. */
  function Assign(target: Options, source: Options): (r: Options)
    ensures Overrides(source, r)
    ensures FillsFrom(source, target, r)
    ensures source == NoOptions ==> r == target
  {
    Options(
      Over(source.name, target.name), Over(source.dirname, target.dirname), Over(source.bin, target.bin),
      Over(source.s3, target.s3), Over(source.root, target.root), Over(source.home, target.home),
      Over(source.pjson, target.pjson), Over(source.updateDisabled, target.updateDisabled),
      Over(source.defaultCommand, target.defaultCommand), Over(source.channel, target.channel),
      Over(source.version, target.version), Over(source.debug, target.debug), Over(source.dataDir, target.dataDir),
      Over(source.cacheDir, target.cacheDir), Over(source.configDir, target.configDir),
      Over(source.arch, target.arch), Over(source.platform, target.platform), Over(source.windows, target.windows),
      Over(source.schemaVersion, target.schemaVersion))
  }

  /** `dir(config, category, d)`: the base starts as `d` or the home-relative
      default, `LOCALAPPDATA` replaces it on Windows, `XDG_DATA_HOME` replaces it
      everywhere, and the CLI's directory name is appended. */
  method Dir(config: Options, category: string, given: Option<string>, env: Env) returns (d: string)
    requires config.home.Some? && config.dirname.Some?
    ensures d == Dirs.DirPath(category, given, config.home.value, config.windows == Some(true),
                              config.dirname.value, env)
  {
    d := Or(given, Dirs.HomeDefault(config.home.value, category));
    if config.windows == Some(true) {
      d := Or(Get(env, "LOCALAPPDATA"), d);
    }
    d := Or(Get(env, "XDG_DATA_HOME"), d);
    d := Join(d, config.dirname.value);
  }

  /** `process.platform === 'darwin' ? path.join(home, 'Library', 'Caches') : null`. */
  function MacCaches(host: Host, home: string): Option<string>
  {
    if host.platform == "darwin" then Some(Join(Join(home, "Library"), "Caches")) else None
  }

  /** What `buildConfig(options)` returns. An input with a truthy `_version` is
      returned as it is. Otherwise every key the caller gave is kept except
      `windows`, which always follows the final `platform`; an empty directory
      key is replaced; and `_version` becomes `'1'`. */
  function Build(options: Options, host: Host, env: Env): (c: Options)
    ensures Truthy(options.schemaVersion) ==> c == options
    ensures !Truthy(options.schemaVersion) ==>
      && c.schemaVersion == Some("1")
      && c.platform.Some? && c.windows == Some(c.platform.value == "win32")
      && Overrides(options.(dataDir := None, configDir := None, cacheDir := None, windows := None,
                            schemaVersion := None), c)
      && c.home.Some? && c.dirname.Some?
      && Truthy(c.dataDir) && Truthy(c.configDir) && Truthy(c.cacheDir)
      && (Truthy(options.dataDir) ==> c.dataDir == options.dataDir)
      && (Truthy(options.configDir) ==> c.configDir == options.configDir)
      && (Truthy(options.cacheDir) ==> c.cacheDir == options.cacheDir)
      && (!Truthy(options.dataDir) ==>
            c.dataDir == Some(Dirs.DirPath("data", None, c.home.value, c.windows.value, c.dirname.value, env)))
      && (!Truthy(options.configDir) ==>
            c.configDir == Some(Dirs.DirPath("config", None, c.home.value, c.windows.value, c.dirname.value, env)))
      && (!Truthy(options.cacheDir) ==>
            c.cacheDir == Some(Dirs.DirPath("cache", MacCaches(host, c.home.value), c.home.value,
                                            c.windows.value, c.dirname.value, env)))
  {
    if Truthy(options.schemaVersion) then options
    else
      var merged := Assign(Defaults(options, host, env), options);
      var config := merged.(windows := Some(merged.platform == Some("win32")));
      var windows := config.windows == Some(true);
      var home := config.home.value;
      var dirname := config.dirname.value;
      var dataDir := if Truthy(config.dataDir) then config.dataDir
                     else Some(Dirs.DirPath("data", None, home, windows, dirname, env));
      var configDir := if Truthy(config.configDir) then config.configDir
                       else Some(Dirs.DirPath("config", None, home, windows, dirname, env));
      var cacheDir := if Truthy(config.cacheDir) then config.cacheDir
                      else Some(Dirs.DirPath("cache", MacCaches(host, home), home, windows, dirname, env));
      config.(dataDir := dataDir, configDir := configDir, cacheDir := cacheDir, schemaVersion := Some("1"))
  }

  /** `buildConfig(options)`, one assignment at a time. */
  method BuildConfig(options: Options, host: Host, env: Env) returns (config: Options)
    ensures config == Build(options, host, env)
  {
    if Truthy(options.schemaVersion) {
      return options;
    }
    config := Assign(Defaults(options, host, env), options);
    config := config.(windows := Some(config.platform == Some("win32")));
    if !Truthy(config.dataDir) {
      var d := Dir(config, "data", None, env);
      config := config.(dataDir := Some(d));
    }
    if !Truthy(config.configDir) {
      var d := Dir(config, "config", None, env);
      config := config.(configDir := Some(d));
    }
    var defaultCacheDir := MacCaches(host, config.home.value);
    if !Truthy(config.cacheDir) {
      var d := Dir(config, "cache", defaultCacheDir, env);
      config := config.(cacheDir := Some(d));
    }
    config := config.(schemaVersion := Some("1"));
  }

  /** On macOS, without the environment overrides and without a caller's
      `cacheDir`, the cache directory is `~/Library/Caches/<dirname>`. */
  lemma MacCacheDir(options: Options, host: Host, env: Env)
    requires !Truthy(options.schemaVersion) && !Truthy(options.cacheDir)
    requires host.platform == "darwin"
    requires !Truthy(Get(env, "XDG_DATA_HOME")) && !Truthy(Get(env, "LOCALAPPDATA"))
    ensures var c := Build(options, host, env);
      c.cacheDir == Some(Join(Join(Join(c.home.value, "Library"), "Caches"), c.dirname.value))
  {
    var c := Build(options, host, env);
    Dirs.SuppliedBaseUsed("cache", MacCaches(host, c.home.value), c.home.value, c.windows.value, c.dirname.value, env);
  }

  /** Building a built configuration returns it unchanged. */
  lemma BuildIsIdempotent(options: Options, host: Host, env: Env, host': Host, env': Env)
    ensures Build(Build(options, host, env), host', env') == Build(options, host, env)
  {
  }

  /** The fallback chains: `name` from the options, the manifest or `'cli-engine'`;
      `dirname` from the section or that name; `bin` from the section or the
      literal `'cli-engine'`; `version`, `defaultCommand` and `s3` from the manifest
      or their defaults; `debug` from the environment; `home` from the home directory
      or else the temporary one; `platform`, `arch` and `root` from the host; and
      `channel` is `'stable'`. */
  lemma FallbackChains(options: Options, host: Host, env: Env)
    requires !Truthy(options.schemaVersion)
    ensures var c := Build(options, host, env);
      var pjson := Pick(options.pjson, NoManifest);
      var cli := Pick(pjson.cli, NoCli);
      && (options.name.None? ==> c.name == Some(Or(pjson.name, "cli-engine")))
      && (options.dirname.None? ==>
            c.dirname == Some(Or(cli.dirname, Or(options.name, Or(pjson.name, "cli-engine")))))
      && (options.bin.None? ==> c.bin == Some(Or(cli.bin, "cli-engine")))
      && (options.version.None? ==> c.version == Some(Or(pjson.version, "0.0.0")))
      && (options.defaultCommand.None? ==> c.defaultCommand == Some(Or(cli.defaultCommand, "help")))
      && (options.s3.None? ==> c.s3 == Some(Pick(cli.s3, NoS3)))
      && (options.pjson.None? ==> c.pjson == Some(NoManifest))
      && (options.debug.None? ==> c.debug == Some(DebugLevel(env)))
      && (options.home.None? ==> c.home == Some(Or(Some(host.homedir), host.tmpdir)))
      && (options.platform.None? ==> c.platform == Some(host.platform) && c.windows == Some(host.platform == "win32"))
      && (options.arch.None? ==> c.arch == Some(host.arch))
      && (options.channel.None? ==> c.channel == Some("stable"))
      && (options.root.None? ==> c.root == Some(host.installRoot))
      && (options.updateDisabled.None? ==> c.updateDisabled.None?)
  {
  }

  /** With no options, the built-in identity is used and `windows` follows the host. */
  lemma DefaultProps(host: Host, env: Env)
    ensures var c := Build(NoOptions, host, env);
      && c.name == Some("cli-engine") && c.dirname == Some("cli-engine") && c.version == Some("0.0.0")
      && c.channel == Some("stable") && c.updateDisabled.None? && c.bin == Some("cli-engine")
      && c.root == Some(host.installRoot) && c.defaultCommand == Some("help") && c.s3 == Some(NoS3)
      && c.windows == Some(host.platform == "win32")
  {
  }

  /** Name, version and directory name are read from the manifest. */
  lemma ReadsManifestValues(host: Host, env: Env)
    ensures var pjson := Manifest(Some("mycli"), Some("1.0.0"), None, Some(NoCli.(dirname := Some("heroku"))));
      var c := Build(NoOptions.(pjson := Some(pjson)), host, env);
      c.name == Some("mycli") && c.version == Some("1.0.0") && c.dirname == Some("heroku")
  {
  }

  /** A `version` option wins over the manifest's. */
  lemma VersionFromOptions(host: Host, env: Env)
    ensures Build(NoOptions.(version := Some("1.0.0-foobar")), host, env).version == Some("1.0.0-foobar")
  {
  }

  /** `bin` does not follow `name`: a named CLI without a section `bin` is still `'cli-engine'`. */
  lemma BinIgnoresName(host: Host, env: Env)
    ensures Build(NoOptions.(name := Some("mycli")), host, env).bin == Some("cli-engine")
    ensures Build(NoOptions.(name := Some("mycli")), host, env).dirname == Some("mycli")
  {
  }

  /** A caller's `windows` is overwritten from the final `platform`. */
  lemma WindowsFollowsPlatform(host: Host, env: Env)
    ensures Build(NoOptions.(windows := Some(true), platform := Some("linux")), host, env).windows == Some(false)
    ensures Build(NoOptions.(windows := Some(false), platform := Some("win32")), host, env).windows == Some(true)
  {
  }
}
