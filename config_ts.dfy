/** The configuration resolver of src/config.ts. `buildConfig(existing)` turns the
    caller's partial configuration, the CLI's package.json, `process.env` and the
    `os` facts into one configuration object: plain fields computed once, getters
    that read the finished object (`this.bin`, `this.platform`, ...), and the
    caller's own keys spread over everything, so that a caller's key replaces a
    getter too. The model computes each getter eagerly from the finished values,
    except the three directories, which stay lazy behind the `__cache` map. */
module ConfigTs {
  import opened Runtime
  import Dirs

  /** A topic of the manifest. `topics()` fills in a missing `name` on the object itself. */
  class Topic {
    var name: Option<string>
    const description: Option<string>
    const hidden: Option<bool>

    constructor (name: Option<string>, description: Option<string>, hidden: Option<bool>)
      ensures this.name == name && this.description == description && this.hidden == hidden
    {
      this.name := name;
      this.description := description;
      this.hidden := hidden;
    }
  }

  /** A hooks entry of the manifest: one script or a list of scripts. */
  datatype HookScripts = Single(path: string) | Several(paths: seq<string>)

  datatype S3 = S3(host: Option<string>)

  /** The 'cli-engine' section of package.json. */
  datatype Cli = Cli(
    bin: Option<string>,
    dirname: Option<string>,
    defaultCommand: Option<string>,
    commands: Option<string>,
    s3: Option<S3>,
    updateHost: Option<string>,
    hooks: Option<map<string, HookScripts>>,
    userPlugins: Option<bool>,
    plugins: Option<seq<string>>,
    legacyConverter: Option<string>,
    topics: Option<map<string, Topic>>)

  const NoCli := Cli(None, None, None, None, None, None, None, None, None, None, None)

  /** The section every manifest starts from (src/config.ts:277-281). */
  const DefaultCli := NoCli.(hooks := Some(map[]), defaultCommand := Some("help"), userPlugins := Some(false))

  /** The manifest as the resolver uses it. */
  datatype Manifest = Manifest(name: string, version: string, dependencies: map<string, string>, cli: Cli)

  /** The manifest used when none is supplied or found (src/config.ts:273-282). */
  const DefaultManifest := Manifest("cli-engine", "0.0.0", map[], DefaultCli)

  /** `<root>/package.json` as parsed from disk: any top-level key may be missing. */
  datatype ManifestFile = ManifestFile(
    name: Option<string>,
    version: Option<string>,
    dependencies: Option<map<string, string>>,
    cli: Option<Cli>)

  /** `ConfigOptions`, that is `Partial<Config>`: a key is present or absent.
      `_version` is `schemaVersion`. */
  datatype Options = Options(
    name: Option<string>,
    dirname: Option<string>,
    initPath: Option<string>,
    commandsDir: Option<string>,
    bin: Option<string>,
    updateHost: Option<string>,
    root: Option<string>,
    home: Option<string>,
    pjson: Option<Manifest>,
    updateDisabled: Option<string>,
    defaultCommand: Option<string>,
    channel: Option<string>,
    version: Option<string>,
    debug: Option<int>,
    dataDir: Option<string>,
    cacheDir: Option<string>,
    configDir: Option<string>,
    arch: Option<string>,
    platform: Option<string>,
    windows: Option<bool>,
    schemaVersion: Option<string>,
    userAgent: Option<string>,
    shell: Option<string>,
    hooks: Option<map<string, seq<string>>>,
    argv: Option<seq<string>>,
    mock: Option<bool>,
    userPlugins: Option<bool>,
    topics: Option<map<string, Topic>>,
    legacyConverter: Option<string>)

  /** `{}`: no key given. */
  const NoOptions := Options(None, None, None, None, None, None, None, None, None, None, None, None, None, None,
                             None, None, None, None, None, None, None, None, None, None, None, None, None, None, None)

  /** Every key present in `given` appears verbatim in `r`. */
  predicate Overrides(given: Options, r: Options)
  {
    && Keeps(given.name, r.name) && Keeps(given.dirname, r.dirname) && Keeps(given.initPath, r.initPath)
    && Keeps(given.commandsDir, r.commandsDir) && Keeps(given.bin, r.bin) && Keeps(given.updateHost, r.updateHost)
    && Keeps(given.root, r.root) && Keeps(given.home, r.home) && Keeps(given.pjson, r.pjson)
    && Keeps(given.updateDisabled, r.updateDisabled) && Keeps(given.defaultCommand, r.defaultCommand)
    && Keeps(given.channel, r.channel) && Keeps(given.version, r.version) && Keeps(given.debug, r.debug)
    && Keeps(given.dataDir, r.dataDir) && Keeps(given.cacheDir, r.cacheDir) && Keeps(given.configDir, r.configDir)
    && Keeps(given.arch, r.arch) && Keeps(given.platform, r.platform) && Keeps(given.windows, r.windows)
    && Keeps(given.schemaVersion, r.schemaVersion) && Keeps(given.userAgent, r.userAgent)
    && Keeps(given.shell, r.shell) && Keeps(given.hooks, r.hooks) && Keeps(given.argv, r.argv)
    && Keeps(given.mock, r.mock) && Keeps(given.userPlugins, r.userPlugins) && Keeps(given.topics, r.topics)
    && Keeps(given.legacyConverter, r.legacyConverter)
  }

  /** Every key absent from `given` has, in `r`, the value it has in `base`. */
  predicate FillsFrom(given: Options, base: Options, r: Options)
  {
    && Fills(given.name, base.name, r.name) && Fills(given.dirname, base.dirname, r.dirname)
    && Fills(given.initPath, base.initPath, r.initPath)
    && Fills(given.commandsDir, base.commandsDir, r.commandsDir) && Fills(given.bin, base.bin, r.bin)
    && Fills(given.updateHost, base.updateHost, r.updateHost) && Fills(given.root, base.root, r.root)
    && Fills(given.home, base.home, r.home) && Fills(given.pjson, base.pjson, r.pjson)
    && Fills(given.updateDisabled, base.updateDisabled, r.updateDisabled)
    && Fills(given.defaultCommand, base.defaultCommand, r.defaultCommand)
    && Fills(given.channel, base.channel, r.channel) && Fills(given.version, base.version, r.version)
    && Fills(given.debug, base.debug, r.debug) && Fills(given.dataDir, base.dataDir, r.dataDir)
    && Fills(given.cacheDir, base.cacheDir, r.cacheDir)
    && Fills(given.configDir, base.configDir, r.configDir) && Fills(given.arch, base.arch, r.arch)
    && Fills(given.platform, base.platform, r.platform) && Fills(given.windows, base.windows, r.windows)
    && Fills(given.schemaVersion, base.schemaVersion, r.schemaVersion)
    && Fills(given.userAgent, base.userAgent, r.userAgent) && Fills(given.shell, base.shell, r.shell)
    && Fills(given.hooks, base.hooks, r.hooks) && Fills(given.argv, base.argv, r.argv)
    && Fills(given.mock, base.mock, r.mock) && Fills(given.userPlugins, base.userPlugins, r.userPlugins)
    && Fills(given.topics, base.topics, r.topics)
    && Fills(given.legacyConverter, base.legacyConverter, r.legacyConverter)
  }

  // ---------------------------------------------------------------------------
  // Scoped environment variables and debug level
  // ---------------------------------------------------------------------------

  /** `p.replace(/-/g, '_')`. */
  function ReplaceDashes(s: string): (r: string)
    ensures |r| == |s| && NoneOf(r, {'-'})
    ensures forall i :: 0 <= i < |s| && s[i] != '-' ==> r[i] == s[i]
    ensures forall i :: 0 <= i < |s| && s[i] == '-' ==> r[i] == '_'
  {
    seq(|s|, i requires 0 <= i < |s| => if s[i] == '-' then '_' else s[i])
  }

  /** A name as `envVarKey` produces it: no dashes and no lower-case letters. */
  predicate IsEnvVarKey(k: string)
  {
    NoneOf(k, {'-'}) && forall i :: 0 <= i < |k| ==> !IsLower(k[i])
  }

  /** `envVarKey(...parts)`: dashes become underscores, the parts are joined with
      `_`, and the result is upper-cased. */
  function EnvVarKey(parts: seq<string>): (k: string)
    ensures IsEnvVarKey(k)
  {
    var replaced := seq(|parts|, i requires 0 <= i < |parts| => ReplaceDashes(parts[i]));
    var joined := JoinWith(replaced, '_');
    JoinWithAvoids(replaced, '_', '-');
    var k := Upper(joined);
    assert forall i :: 0 <= i < |k| ==> k[i] != '-' by {
      forall i | 0 <= i < |k| ensures k[i] != '-' {
        assert joined[i] != '-';
      }
    }
    k
  }

  /** Upper-casing and replacing dashes both leave a finished key alone. */
  lemma EnvVarKeyFixesKeys(k: string)
    requires IsEnvVarKey(k)
    ensures EnvVarKey([k]) == k
  {
    var replaced := seq(1, i requires 0 <= i < 1 => ReplaceDashes([k][i]));
    assert replaced == [ReplaceDashes(k)];
    assert ReplaceDashes(k) == k;
    assert JoinWith(replaced, '_') == k;
    assert Upper(k) == k;
  }

  /** Applying `envVarKey` to its own result changes nothing. */
  lemma EnvVarKeyIdempotent(parts: seq<string>)
    ensures EnvVarKey([EnvVarKey(parts)]) == EnvVarKey(parts)
  {
    EnvVarKeyFixesKeys(EnvVarKey(parts));
  }

  /** The scoped variable for `bin` and a suffix is the key of `bin`, `_`, and the key of the suffix. */
  lemma ScopedKey(bin: string, suffix: string)
    ensures EnvVarKey([bin, suffix]) == EnvVarKey([bin]) + "_" + EnvVarKey([suffix])
  {
    var b := ReplaceDashes(bin);
    var s := ReplaceDashes(suffix);
    var two := seq(2, i requires 0 <= i < 2 => ReplaceDashes([bin, suffix][i]));
    assert two == [b, s];
    assert JoinWith(two, '_') == b + "_" + s by {
      assert two[..1] == [b];
    }
    var one := seq(1, i requires 0 <= i < 1 => ReplaceDashes([bin][i]));
    assert one == [b];
    var one' := seq(1, i requires 0 <= i < 1 => ReplaceDashes([suffix][i]));
    assert one' == [s];
    assert Upper(b + "_" + s) == Upper(b) + "_" + Upper(s);
  }

  /** `envVarTrue(k)`: the variable is `"1"` or `"true"`. */
  function EnvVarTrue(env: Env, key: string): (b: bool)
    ensures b <==> key in env && env[key] in {"1", "true"}
    ensures b ==> Truthy(Get(env, key))
  {
    Get(env, key) == Some("1") || Get(env, key) == Some("true")
  }

  /** `(process.env.DEBUG || '').includes('*')`. */
  predicate DebugAll(env: Env)
  {
    '*' in Or(Get(env, "DEBUG"), "")
  }

  /** `debug(bin)`: 1 when `DEBUG` holds `*` or `<BIN>_DEBUG` is `1` or `true`, else 0. */
  function Debug(env: Env, bin: string): (level: int)
    ensures level == 0 || level == 1
  {
    if DebugAll(env) || EnvVarTrue(env, EnvVarKey([bin, "DEBUG"])) then 1 else 0
  }

  /** The level is 1 exactly when `DEBUG` holds `*` or the CLI's own upper-cased
      `_DEBUG` variable is set to `1` or `true`. */
  lemma DebugLevel(env: Env, bin: string)
    ensures Debug(env, bin) == 1 <==>
      DebugAll(env) || EnvVarTrue(env, Upper(ReplaceDashes(bin)) + "_DEBUG")
  {
    DebugKey(bin);
  }

  /** The CLI's debug variable is its upper-cased name followed by `_DEBUG`. */
  lemma DebugKey(bin: string)
    ensures EnvVarKey([bin, "DEBUG"]) == Upper(ReplaceDashes(bin)) + "_DEBUG"
  {
    ScopedKey(bin, "DEBUG");
    SingleKey(bin);
    EnvVarKeyFixesKeys("DEBUG");
    var u := Upper(ReplaceDashes(bin));
    assert u + "_" + "DEBUG" == u + "_DEBUG";
  }

  /** The key of a single part is that part, dashes replaced, upper-cased. */
  lemma SingleKey(p: string)
    ensures EnvVarKey([p]) == Upper(ReplaceDashes(p))
  {
    var one := seq(1, i requires 0 <= i < 1 => ReplaceDashes([p][i]));
    assert one == [ReplaceDashes(p)];
  }

  // ---------------------------------------------------------------------------
  // Shell, user agent, commands directory, update host
  // ---------------------------------------------------------------------------

  /** `shell(onWindows)`: the program name of `SHELL`, else (on Windows) of
      `COMSPEC`, else `"unknown"`. */
  function Shell(env: Env, onWindows: bool): (s: string)
    ensures NoneOf(s, {'/'})
    ensures Truthy(Get(env, "SHELL")) ==>
      IsSuffix(s, env["SHELL"]) && s == LastSegment(env["SHELL"], {'/'})
    ensures !Truthy(Get(env, "SHELL")) && onWindows && Truthy(Get(env, "COMSPEC")) ==>
      IsSuffix(s, env["COMSPEC"]) && s == LastSegment(env["COMSPEC"], {'\\', '/'})
    ensures !Truthy(Get(env, "SHELL")) && !(onWindows && Truthy(Get(env, "COMSPEC"))) ==> s == "unknown"
  {
    if Truthy(Get(env, "SHELL")) then LastSegment(env["SHELL"], {'/'})
    else if onWindows && Truthy(Get(env, "COMSPEC")) then LastSegment(env["COMSPEC"], {'\\', '/'})
    else "unknown"
  }

  /** On Windows without `SHELL`, the shell is the program named by `COMSPEC`. */
  lemma ShellFromComspec()
    ensures Shell(map["COMSPEC" := "C:\\ProgramFiles\\cmd.exe"], true) == "cmd.exe"
    ensures Shell(map["COMSPEC" := "C:\\ProgramFiles\\cmd.exe"], false) == "unknown"
  {
    LastSegmentAfterSeparator("C:\\ProgramFiles", '\\', "cmd.exe", {'\\', '/'});
    assert "C:\\ProgramFiles\\cmd.exe" == "C:\\ProgramFiles" + ['\\'] + "cmd.exe";
  }

  /** `SHELL` names the shell by its last path segment, on every platform. */
  lemma ShellFromShell()
    ensures Shell(map["SHELL" := "/bin/bash"], true) == "bash"
    ensures Shell(map["SHELL" := "/usr/bin/fish"], false) == "fish"
    ensures Shell(map[], false) == "unknown"
  {
    LastSegmentAfterSeparator("/bin", '/', "bash", {'/'});
    assert "/bin/bash" == "/bin" + ['/'] + "bash";
    LastSegmentAfterSeparator("/usr/bin", '/', "fish", {'/'});
    assert "/usr/bin/fish" == "/usr/bin" + ['/'] + "fish";
  }

  /** `userAgent(config)`: `<name>/<version>[ <channel>] (<platform>-<arch>) node-<node version>`. */
  function UserAgent(name: string, version: string, channel: string, platform: string, arch: string,
                     nodeVersion: string): (ua: string)
    ensures |ua| >= |name| + 1 + |version| && ua[..|name| + 1 + |version|] == name + "/" + version
    ensures IsSuffix(" (" + platform + "-" + arch + ") node-" + nodeVersion, ua)
    ensures channel == "stable" ==>
      |ua| == |name| + 1 + |version| + |" (" + platform + "-" + arch + ") node-" + nodeVersion|
    ensures channel != "stable" ==>
      |ua| == |name| + 1 + |version| + 1 + |channel| + |" (" + platform + "-" + arch + ") node-" + nodeVersion| &&
      ua[|name| + 1 + |version|..|name| + 2 + |version| + |channel|] == " " + channel
  {
    var ch := if channel == "stable" then "" else " " + channel;
    var head := name + "/" + version;
    var tail := " (" + platform + "-" + arch + ") node-" + nodeVersion;
    var ua := head + ch + tail;
    assert ua[..|head|] == head;
    assert ua[|ua| - |tail|..] == tail;
    assert ua[|head|..|head| + |ch|] == ch;
    ua
  }

  /** A channel other than `stable` reads as a space-separated suffix of the
      version. */
  lemma ChannelFollowsVersion(name: string, version: string, channel: string, platform: string,
                              arch: string, nodeVersion: string)
    requires channel != "stable"
    ensures UserAgent(name, version, channel, platform, arch, nodeVersion)
         == UserAgent(name, version + " " + channel, "stable", platform, arch, nodeVersion)
  {
    ChannelShown(name, version, channel, platform, arch, nodeVersion);
    StableChannelHidden(name, version + " " + channel, platform, arch, nodeVersion);
    VersionThenChannel(name, version, channel, " (" + platform + "-" + arch + ") node-" + nodeVersion);
  }

  /** Regrouping the channel with the version leaves the string as it is. */
  lemma VersionThenChannel(name: string, version: string, channel: string, tail: string)
    ensures name + "/" + version + (" " + channel) + tail == name + "/" + (version + " " + channel) + tail
  {
  }

  /** Any other channel is shown after the version, separated by a space. */
  lemma ChannelShown(name: string, version: string, channel: string, platform: string,
                     arch: string, nodeVersion: string)
    requires channel != "stable"
    ensures UserAgent(name, version, channel, platform, arch, nodeVersion)
         == name + "/" + version + (" " + channel) + (" (" + platform + "-" + arch + ") node-" + nodeVersion)
  {
  }

  /** On the `stable` channel the channel is not shown at all. */
  lemma StableChannelHidden(name: string, version: string, platform: string, arch: string, nodeVersion: string)
    ensures UserAgent(name, version, "stable", platform, arch, nodeVersion)
         == name + "/" + version + (" (" + platform + "-" + arch + ") node-" + nodeVersion)
  {
    var tail := " (" + platform + "-" + arch + ") node-" + nodeVersion;
    assert name + "/" + version + "" + tail == name + "/" + version + tail;
  }

  /** `commandsDir(existing)`: `<root>/<commands>` when the caller gave a root and a
      manifest whose section names a commands path; absent otherwise. */
  function CommandsDir(existing: Options): (d: Option<string>)
    ensures d.Some? <==> Truthy(existing.root) && existing.pjson.Some? && Truthy(existing.pjson.value.cli.commands)
    ensures d.Some? ==> d.value == Join(existing.root.value, existing.pjson.value.cli.commands.value)
  {
    if !Truthy(existing.root) || existing.pjson.None? then None
    else if !Truthy(existing.pjson.value.cli.commands) then None
    else Some(Join(existing.root.value, existing.pjson.value.cli.commands.value))
  }

  /** `updateHost(config)`: the section's `updateHost`, else its `s3.host`, else absent. */
  function UpdateHost(cli: Cli): (h: Option<string>)
    ensures h.Some? <==> Truthy(cli.updateHost) || (cli.s3.Some? && Truthy(cli.s3.value.host))
    ensures h.Some? ==> h.value != ""
    ensures Truthy(cli.updateHost) ==> h == cli.updateHost
    ensures !Truthy(cli.updateHost) && cli.s3.Some? && Truthy(cli.s3.value.host) ==> h == cli.s3.value.host
  {
    if Truthy(cli.updateHost) then cli.updateHost
    else if cli.s3.Some? && Truthy(cli.s3.value.host) then cli.s3.value.host
    else None
  }

  // ---------------------------------------------------------------------------
  // hooks() and topics()
  // ---------------------------------------------------------------------------

  /** `Array.isArray(v) ? v : [v]`. */
  function AsList(h: HookScripts): seq<string>
  {
    match h
    case Single(p) => [p]
    case Several(ps) => ps
  }

  function HookSource(prev: Option<map<string, HookScripts>>): map<string, HookScripts>
  {
    if prev.Some? then prev.value else map[]
  }

  /** What `hooks(prev)` returns: the same keys, each value a list. */
  function NormalizedHooks(prev: Option<map<string, HookScripts>>): (h: map<string, seq<string>>)
    ensures h.Keys == HookSource(prev).Keys
    ensures forall k :: k in h ==> h[k] == AsList(HookSource(prev)[k])
  {
    var src := HookSource(prev);
    map k | k in src :: AsList(src[k])
  }

  /** `hooks(prev)`: fills a new dictionary, key by key. */
  method Hooks(prev: Option<map<string, HookScripts>>) returns (h: map<string, seq<string>>)
    ensures h == NormalizedHooks(prev)
  {
    var src := HookSource(prev);
    h := map[];
    var pending := src.Keys;
    while pending != {}
      invariant pending <= src.Keys
      invariant h.Keys == src.Keys - pending
      invariant forall k :: k in h ==> h[k] == AsList(src[k])
      decreases pending
    {
      var k :| k in pending;
      h := h[k := AsList(src[k])];
      pending := pending - {k};
    }
  }

  /** A single script becomes a one-element list and a list is kept as it is. */
  lemma HooksShape(prev: map<string, HookScripts>, k: string)
    requires k in prev
    ensures prev[k].Single? ==> NormalizedHooks(Some(prev))[k] == [prev[k].path]
    ensures prev[k].Several? ==> NormalizedHooks(Some(prev))[k] == prev[k].paths
  {
  }

  /** Normalising hooks that are already lists changes nothing. */
  lemma HooksIdempotent(prev: Option<map<string, HookScripts>>)
    ensures var h := NormalizedHooks(prev);
            NormalizedHooks(Some(map k | k in h :: Several(h[k]))) == h
  {
  }

  function TopicsOf(topics: Option<map<string, Topic>>): map<string, Topic>
  {
    if topics.Some? then topics.value else map[]
  }

  function TopicObjects(topics: Option<map<string, Topic>>): set<Topic>
  {
    TopicsOf(topics).Values
  }

  /** No other key of `m` shares the topic object stored under `k`. */
  predicate SoleKey(m: map<string, Topic>, k: string)
    requires k in m
  {
    forall j :: j in m && m[j] == m[k] ==> j == k
  }

  /** Every entry has a name, and a non-empty one unless its key is the empty string. */
  predicate AllNamed(m: map<string, Topic>)
    reads m.Values
  {
    forall k :: k in m ==> m[k].name.Some? && (Truthy(m[k].name) || k == "")
  }

  /** The name each entry object of `m` has, by key. */
  function Names(m: map<string, Topic>): (n: map<string, Option<string>>)
    reads m.Values
    ensures n.Keys == m.Keys && forall k :: k in m ==> n[k] == m[k].name
  {
    map k | k in m :: m[k].name
  }

  /** What `topics()` does to the entry objects of `m`, whose names were `before`:
      every entry ends up named, a non-empty name is kept, an unnamed entry that
      no other key shares gets its own key, and any other new name is a key that
      shares the object. */
  predicate NamedFrom(before: map<string, Option<string>>, m: map<string, Topic>)
    reads m.Values
  {
    && AllNamed(m)
    && (forall k :: k in m && k in before && Truthy(before[k]) ==> m[k].name == before[k])
    && (forall k :: k in m && k in before && !Truthy(before[k]) && SoleKey(m, k) ==> m[k].name == Some(k))
    && (forall k :: k in m && k in before ==>
          m[k].name == before[k] || exists j :: j in m && m[j] == m[k] && m[k].name == Some(j))
  }

  /** `topics(topics)`: gives every entry without a name its key as name, on the
      entry object itself, and returns the same dictionary (or `{}`). When two
      keys share one object, the object gets one of those keys. */
  method Topics(topics: Option<map<string, Topic>>) returns (r: map<string, Topic>)
    modifies TopicObjects(topics)
    ensures r == TopicsOf(topics)
    ensures NamedFrom(old(Names(TopicsOf(topics))), r)
  {
    r := TopicsOf(topics);
    var pending := r.Keys;
    while pending != {}
      invariant pending <= r.Keys
      invariant forall k :: k in r && k !in pending ==> r[k].name.Some? && (Truthy(r[k].name) || k == "")
      invariant forall k :: k in r && Truthy(old(r[k].name)) ==> r[k].name == old(r[k].name)
      invariant forall k :: k in r && k in pending && SoleKey(r, k) ==> r[k].name == old(r[k].name)
      invariant forall k :: k in r && k !in pending && SoleKey(r, k) && !Truthy(old(r[k].name)) ==>
        r[k].name == Some(k)
      invariant forall k :: k in r ==>
        r[k].name == old(r[k].name) || exists j :: j in r && j !in pending && r[j] == r[k] && r[k].name == Some(j)
      decreases pending
    {
      var k :| k in pending;
      var t := r[k];
      if !Truthy(t.name) {
        t.name := Some(k);
      }
      pending := pending - {k};
    }
  }

  // ---------------------------------------------------------------------------
  // Reading package.json
  // ---------------------------------------------------------------------------

  /** One key-by-key spread of a section over another. */
  function MergeCli(over: Cli, base: Cli): Cli
  {
    Cli(Over(over.bin, base.bin), Over(over.dirname, base.dirname), Over(over.defaultCommand, base.defaultCommand),
        Over(over.commands, base.commands), Over(over.s3, base.s3), Over(over.updateHost, base.updateHost),
        Over(over.hooks, base.hooks), Over(over.userPlugins, base.userPlugins), Over(over.plugins, base.plugins),
        Over(over.legacyConverter, base.legacyConverter), Over(over.topics, base.topics))
  }

  /** The manifest built from package.json as src/config.ts:263-270 writes it:
      the file's section spread over the default section, and then the whole
      file spread over that, which puts the file's own section back. */
  function MergeManifestAsWritten(file: ManifestFile): (m: Manifest)
    ensures m.name == Pick(file.name, "cli-engine") && m.version == Pick(file.version, "0.0.0")
    ensures file.cli.Some? ==> m.cli == file.cli.value
    ensures file.cli.None? ==> m.cli == DefaultCli
  {
    var merged := MergeCli(if file.cli.Some? then file.cli.value else NoCli, DefaultCli);
    Manifest(Pick(file.name, DefaultManifest.name), Pick(file.version, DefaultManifest.version),
             Pick(file.dependencies, DefaultManifest.dependencies), Pick(file.cli, merged))
  }

  /** The evident intent of src/config.ts:263-270: the file's keys win at the top
      level, and its section is merged key by key over the default section. */
  function MergeManifest(file: ManifestFile): (m: Manifest)
    ensures m.name == Pick(file.name, "cli-engine") && m.version == Pick(file.version, "0.0.0")
    ensures m.dependencies == Pick(file.dependencies, map[])
    ensures m.cli.hooks.Some? && m.cli.defaultCommand.Some? && m.cli.userPlugins.Some?
    ensures file.cli.Some? ==> m.cli == MergeCli(file.cli.value, DefaultCli)
    ensures file.cli.None? ==> m.cli == DefaultCli
  {
    var section := if file.cli.Some? then file.cli.value else NoCli;
    Manifest(Pick(file.name, DefaultManifest.name), Pick(file.version, DefaultManifest.version),
             Pick(file.dependencies, DefaultManifest.dependencies), MergeCli(section, DefaultCli))
  }

  /** As written, a file with a 'cli-engine' section gets that section verbatim:
      none of the defaults (`hooks`, `defaultCommand`, `userPlugins`) it omits is filled in. */
  lemma MergeAsWrittenDropsDefaults(file: ManifestFile)
    requires file.cli.Some?
    ensures MergeManifestAsWritten(file).cli == file.cli.value
    ensures file.cli.value.userPlugins.None? ==>
      MergeManifestAsWritten(file).cli.userPlugins.None? && MergeManifest(file).cli.userPlugins == Some(false)
  {
  }

  /** The two readings agree when the file has no 'cli-engine' section. */
  lemma MergeAgreesWithoutSection(file: ManifestFile)
    requires file.cli.None?
    ensures MergeManifestAsWritten(file) == MergeManifest(file)
  {
  }

  /** `existing.root && !existing.pjson` with an existing package.json: the
      manifest merged as src/config.ts:263-270 writes it becomes the caller's `pjson`. */
  function LoadManifest(existing: Options, file: Option<ManifestFile>): (opts: Options)
    ensures opts == existing.(pjson := opts.pjson)
    ensures opts.pjson != existing.pjson <==> Truthy(existing.root) && existing.pjson.None? && file.Some?
    ensures opts.pjson != existing.pjson ==> opts.pjson == Some(MergeManifestAsWritten(file.value))
  {
    if Truthy(existing.root) && existing.pjson.None? && file.Some? then
      existing.(pjson := Some(MergeManifestAsWritten(file.value)))
    else existing
  }

  /** The same step with the intended merge of the file's section over the defaults. */
  function LoadManifestIntended(existing: Options, file: Option<ManifestFile>): (opts: Options)
    ensures opts == existing.(pjson := opts.pjson)
    ensures opts.pjson != existing.pjson <==> Truthy(existing.root) && existing.pjson.None? && file.Some?
    ensures opts.pjson != existing.pjson ==> opts.pjson == Some(MergeManifest(file.value))
  {
    if Truthy(existing.root) && existing.pjson.None? && file.Some? then
      existing.(pjson := Some(MergeManifest(file.value)))
    else existing
  }

  /** The manifest the derived fields read: the caller's, else the built-in one. */
  function PjsonOf(opts: Options): Manifest
  {
    Pick(opts.pjson, DefaultManifest)
  }

  // ---------------------------------------------------------------------------
  // buildConfig
  // ---------------------------------------------------------------------------

  /** The configuration object, with every getter read once. Each getter reads
      the finished object, so a key the caller gives (`bin`, `platform`, ...)
      is what the getters that depend on it see. */
  function Resolve(opts: Options, hooks: map<string, seq<string>>, topics: map<string, Topic>,
                   host: Host, env: Env): (r: Options)
    ensures Overrides(opts, r)
    ensures r.schemaVersion == Some(Pick(opts.schemaVersion, "1"))
    ensures r.pjson == Some(PjsonOf(opts))
  {
    var pjson := PjsonOf(opts);
    var cli := pjson.cli;
    // the values the getters see: the caller's key when given, else the derived one
    var name := Pick(opts.name, pjson.name);
    var version := Pick(opts.version, pjson.version);
    var channel := Pick(opts.channel, "stable");
    var platform := Pick(opts.platform, if host.platform == "win32" then "windows" else host.platform);
    var arch := Pick(opts.arch, if host.arch == "ia32" then "x86" else host.arch);
    var windows := Pick(opts.windows, platform == "windows");
    var bin := Pick(opts.bin, Or(cli.bin, name));
    var derived := Options(
      name := Some(name),
      dirname := Some(Or(cli.dirname, bin)),
      initPath := None,
      commandsDir := CommandsDir(opts),
      bin := Some(bin),
      updateHost := UpdateHost(cli),
      root := Some(host.installRoot),
      home := Some(Or(Some(host.homedir), host.tmpdir)),
      pjson := Some(pjson),
      updateDisabled := None,
      defaultCommand := Some(Or(cli.defaultCommand, "help")),
      channel := Some(channel),
      version := Some(version),
      debug := Some(Debug(env, Or(Some(bin), "cli-engine"))),
      dataDir := None,
      cacheDir := None,
      configDir := None,
      arch := Some(arch),
      platform := Some(platform),
      windows := Some(windows),
      schemaVersion := Some("1"),
      userAgent := Some(UserAgent(name, version, channel, platform, arch, host.nodeVersion)),
      shell := Some(Shell(env, windows)),
      hooks := Some(hooks),
      argv := Some(if |host.argv| >= 1 then host.argv[1..] else []),
      mock := Some(false),
      userPlugins := cli.userPlugins,
      topics := Some(topics),
      legacyConverter := cli.legacyConverter);
    Spread(opts, derived)
  }

  /** `{...base, ...given}`: every key of `given` replaces the one of `base`. */
  function Spread(given: Options, base: Options): (r: Options)
    ensures Overrides(given, r)
    ensures FillsFrom(given, base, r)
  {
    Options(
      Over(given.name, base.name), Over(given.dirname, base.dirname), Over(given.initPath, base.initPath),
      Over(given.commandsDir, base.commandsDir), Over(given.bin, base.bin), Over(given.updateHost, base.updateHost),
      Over(given.root, base.root), Over(given.home, base.home), Over(given.pjson, base.pjson),
      Over(given.updateDisabled, base.updateDisabled), Over(given.defaultCommand, base.defaultCommand),
      Over(given.channel, base.channel), Over(given.version, base.version), Over(given.debug, base.debug),
      Over(given.dataDir, base.dataDir), Over(given.cacheDir, base.cacheDir), Over(given.configDir, base.configDir),
      Over(given.arch, base.arch), Over(given.platform, base.platform), Over(given.windows, base.windows),
      Over(given.schemaVersion, base.schemaVersion), Over(given.userAgent, base.userAgent),
      Over(given.shell, base.shell), Over(given.hooks, base.hooks), Over(given.argv, base.argv),
      Over(given.mock, base.mock), Over(given.userPlugins, base.userPlugins), Over(given.topics, base.topics),
      Over(given.legacyConverter, base.legacyConverter))
  }

  /** The identity getters read the finished object: `bin` falls back to the
      (possibly caller-given) `name`, and `dirname` to the (possibly
      caller-given) `bin`. */
  lemma ResolvedIdentity(opts: Options, hooks: map<string, seq<string>>, topics: map<string, Topic>,
                         host: Host, env: Env)
    ensures var r := Resolve(opts, hooks, topics, host, env);
      && r.name == Some(Pick(opts.name, PjsonOf(opts).name))
      && r.version == Some(Pick(opts.version, PjsonOf(opts).version))
      && r.channel == Some(Pick(opts.channel, "stable"))
      && r.bin.Some? && r.dirname.Some? && r.defaultCommand.Some?
      && (opts.bin.None? ==> r.bin.value == Or(PjsonOf(opts).cli.bin, r.name.value))
      && (opts.dirname.None? ==> r.dirname.value == Or(PjsonOf(opts).cli.dirname, r.bin.value))
      && (opts.defaultCommand.None? ==> r.defaultCommand.value == Or(PjsonOf(opts).cli.defaultCommand, "help"))
  {
  }

  /** Node's `win32` reads as `windows` and `ia32` as `x86`; the `windows` getter
      follows the finished `platform`. */
  lemma ResolvedPlatform(opts: Options, hooks: map<string, seq<string>>, topics: map<string, Topic>,
                         host: Host, env: Env)
    ensures var r := Resolve(opts, hooks, topics, host, env);
      && r.platform.Some? && r.arch.Some? && r.windows.Some?
      && (opts.platform.None? ==> r.platform.value != "win32")
      && (opts.platform.None? && host.platform != "win32" ==> r.platform.value == host.platform)
      && (opts.platform.None? && host.platform == "win32" ==> r.platform.value == "windows")
      && (opts.arch.None? ==> r.arch.value != "ia32")
      && (opts.arch.None? && host.arch != "ia32" ==> r.arch.value == host.arch)
      && (opts.arch.None? && host.arch == "ia32" ==> r.arch.value == "x86")
      && (opts.windows.None? ==> r.windows.value == (r.platform.value == "windows"))
  {
  }

  /** `shell`, `debug` and `userAgent` are computed from the finished values,
      including the caller's. */
  lemma GettersReadResolvedValues(opts: Options, hooks: map<string, seq<string>>, topics: map<string, Topic>,
                                  host: Host, env: Env)
    ensures var r := Resolve(opts, hooks, topics, host, env);
      && r.name.Some? && r.version.Some? && r.channel.Some? && r.platform.Some? && r.arch.Some?
      && r.windows.Some? && r.shell.Some? && r.debug.Some? && r.userAgent.Some?
      && (opts.shell.None? ==> r.shell.value == Shell(env, r.windows.value))
      && (opts.debug.None? ==> r.debug.value == Debug(env, Or(r.bin, "cli-engine")))
      && (opts.userAgent.None? ==>
            r.userAgent.value == UserAgent(r.name.value, r.version.value, r.channel.value,
                                           r.platform.value, r.arch.value, host.nodeVersion))
  {
  }

  /** The collections and the manifest-derived optional keys. */
  lemma ResolvedCollections(opts: Options, hooks: map<string, seq<string>>, topics: map<string, Topic>,
                            host: Host, env: Env)
    ensures var r := Resolve(opts, hooks, topics, host, env);
      && r.hooks == Some(Pick(opts.hooks, hooks))
      && r.topics == Some(Pick(opts.topics, topics))
      && (opts.commandsDir.None? ==> r.commandsDir == CommandsDir(opts))
      && (opts.updateHost.None? ==> r.updateHost == UpdateHost(PjsonOf(opts).cli))
      && (opts.userPlugins.None? ==> r.userPlugins == PjsonOf(opts).cli.userPlugins)
      && r.home.Some? && r.home.value == Pick(opts.home, Or(Some(host.homedir), host.tmpdir))
  {
  }

  /** The host-given keys: `root` is the install root, `argv` the process
      arguments after the first, `mock` is `false` and `legacyConverter` is the
      section's. The directory keys are getters behind the cache, so the object
      itself holds only what the caller gave for them. */
  lemma ResolvedHostKeys(opts: Options, hooks: map<string, seq<string>>, topics: map<string, Topic>,
                         host: Host, env: Env)
    ensures var r := Resolve(opts, hooks, topics, host, env);
      && (opts.root.None? ==> r.root == Some(host.installRoot))
      && (opts.argv.None? ==> r.argv == Some(if |host.argv| >= 1 then host.argv[1..] else []))
      && (opts.mock.None? ==> r.mock == Some(false))
      && (opts.legacyConverter.None? ==> r.legacyConverter == PjsonOf(opts).cli.legacyConverter)
      && r.dataDir == opts.dataDir && r.configDir == opts.configDir && r.cacheDir == opts.cacheDir
      && (opts.updateDisabled.None? ==> r.updateDisabled.None?)
      && (opts.initPath.None? ==> r.initPath.None?)
  {
  }

  /** `buildConfig(existing)` as a value: a configuration already marked
      `_version: '1'` is returned as it is; otherwise the manifest is read and the
      configuration resolved, the caller's keys winning. */
  function Build(existing: Options, file: Option<ManifestFile>, host: Host, env: Env): (r: Options)
    ensures existing.schemaVersion == Some("1") ==> r == existing
    ensures existing.schemaVersion != Some("1") ==> Overrides(existing, r)
    ensures existing.schemaVersion == None ==> r.schemaVersion == Some("1")
  {
    if existing.schemaVersion == Some("1") then existing
    else ResolveLoaded(LoadManifest(existing, file), host, env)
  }

  /** `buildConfig` with the intended manifest merge: a section read from
      package.json keeps the defaults it omits. */
  function BuildIntended(existing: Options, file: Option<ManifestFile>, host: Host, env: Env): (r: Options)
    ensures existing.schemaVersion == Some("1") ==> r == existing
    ensures existing.schemaVersion != Some("1") ==> Overrides(existing, r)
    ensures existing.schemaVersion != Some("1") && Truthy(existing.root) && existing.pjson.None? && file.Some?
            && existing.userPlugins.None? && existing.hooks.None? && existing.defaultCommand.None? ==>
      r.userPlugins.Some? && r.hooks.Some? && r.defaultCommand.Some?
  {
    if existing.schemaVersion == Some("1") then existing
    else ResolveLoaded(LoadManifestIntended(existing, file), host, env)
  }

  /** The configuration resolved once the manifest is in place: `hooks()` and
      `topics()` read the manifest's section unless the caller gave them. */
  function ResolveLoaded(opts: Options, host: Host, env: Env): (r: Options)
    ensures Overrides(opts, r)
    ensures r.hooks == Some(Pick(opts.hooks, NormalizedHooks(PjsonOf(opts).cli.hooks)))
    ensures r.topics == Some(Pick(opts.topics, TopicsOf(PjsonOf(opts).cli.topics)))
    ensures opts.userPlugins.None? ==> r.userPlugins == PjsonOf(opts).cli.userPlugins
  {
    var cli := PjsonOf(opts).cli;
    ResolvedCollections(opts, NormalizedHooks(cli.hooks), TopicsOf(cli.topics), host, env);
    Resolve(opts, NormalizedHooks(cli.hooks), TopicsOf(cli.topics), host, env)
  }

  /** Resolving a resolved configuration changes nothing, whatever the
      environment and manifest are the second time. */
  lemma BuildIsIdempotent(existing: Options, file: Option<ManifestFile>, host: Host, env: Env,
                          file': Option<ManifestFile>, host': Host, env': Env)
    requires existing.schemaVersion == None || existing.schemaVersion == Some("1")
    ensures Build(Build(existing, file, host, env), file', host', env') == Build(existing, file, host, env)
  {
  }

  /** With nothing given, the built-in manifest supplies the identity and the
      empty collections; without a root no package.json is read. */
  lemma DefaultsWithoutManifest(file: Option<ManifestFile>, host: Host, env: Env)
    ensures var r := Build(NoOptions, file, host, env);
      && r.name == Some("cli-engine") && r.version == Some("0.0.0") && r.defaultCommand == Some("help")
      && r.bin == Some("cli-engine") && r.dirname == Some("cli-engine") && r.channel == Some("stable")
      && r.hooks == Some(map[]) && r.topics == Some(map[]) && r.userPlugins == Some(false)
      && r.commandsDir == None && r.updateHost == None && r.pjson == Some(DefaultManifest)
  {
  }

  /** On Windows the platform reads `windows`, and the `windows` flag follows it. */
  lemma WindowsPlatform(existing: Options, file: Option<ManifestFile>, host: Host, env: Env)
    requires existing.schemaVersion == None && existing.platform.None? && existing.windows.None?
    requires host.platform == "win32"
    ensures Build(existing, file, host, env).platform == Some("windows")
    ensures Build(existing, file, host, env).windows == Some(true)
  {
  }

  /** A 'cli-engine' section read from disk is used as it stands: `userPlugins`
      it omits stays absent (the intended merge gives `false`), while the getters'
      own fallbacks still supply `defaultCommand` and `hooks`. */
  lemma ReadManifestSection(existing: Options, file: ManifestFile, host: Host, env: Env)
    requires existing.schemaVersion == None && Truthy(existing.root) && existing.pjson.None?
    requires existing.userPlugins.None? && existing.defaultCommand.None? && existing.hooks.None?
    requires file.cli.Some?
    ensures Build(existing, Some(file), host, env).userPlugins == file.cli.value.userPlugins
    ensures Build(existing, Some(file), host, env).hooks == Some(NormalizedHooks(file.cli.value.hooks))
    ensures Build(existing, Some(file), host, env).defaultCommand
         == Some(Or(file.cli.value.defaultCommand, "help"))
    ensures file.cli.value.userPlugins.None? ==>
      BuildIntended(existing, Some(file), host, env).userPlugins == Some(false)
  {
    var opts := LoadManifest(existing, Some(file));
    ResolvedIdentity(opts, NormalizedHooks(file.cli.value.hooks), TopicsOf(file.cli.value.topics), host, env);
  }

  /** The key under which `dir(category)` caches its answer. */
  function DirKey(category: string): string
  {
    "dir:" + category
  }

  /** What `dir(config, category, d)` answers: the cached directory when there is
      one, else the directory built from the base priority. */
  function CachedDir(cache: map<string, string>, props: Options, category: string,
                     given: Option<string>, env: Env): (d: string)
    requires props.home.Some? && props.dirname.Some?
    ensures d != ""
    ensures DirKey(category) in cache && cache[DirKey(category)] != "" ==> d == cache[DirKey(category)]
    ensures !(DirKey(category) in cache && cache[DirKey(category)] != "") ==>
      d == Dirs.DirPath(category, given, props.home.value, props.windows == Some(true), props.dirname.value, env)
  {
    var key := DirKey(category);
    if key in cache && cache[key] != "" then cache[key]
    else Dirs.DirPath(category, given, props.home.value, props.windows == Some(true), props.dirname.value, env)
  }

  /** Once `dir(category)` has answered, a later call for the same category gives
      the same answer, whatever the environment and supplied base are then. */
  lemma DirAnswersFromCache(cache: map<string, string>, props: Options, category: string,
                            given: Option<string>, env: Env, given': Option<string>, env': Env)
    requires props.home.Some? && props.dirname.Some?
    ensures var d := CachedDir(cache, props, category, given, env);
      CachedDir(cache[DirKey(category) := d], props, category, given', env') == d
  {
  }

  /** The object `buildConfig` returns: its keys, and the `__cache` map that
      the directory getters fill. */
  class Config {
    var props: Options
    var cache: map<string, string>

    constructor (props: Options)
      ensures this.props == props && cache == map[]
    {
      this.props := props;
      cache := map[];
    }

    /** `dir(this, category, given)`. */
    method Dir(category: string, given: Option<string>, env: Env) returns (d: string)
      requires props.home.Some? && props.dirname.Some?
      modifies this`cache
      ensures d == CachedDir(old(cache), props, category, given, env)
      ensures cache == old(cache)[DirKey(category) := d]
    {
      var key := DirKey(category);
      if key in cache && cache[key] != "" {
        d := cache[key];
        return;
      }
      d := if Truthy(given) then given.value else Dirs.HomeDefault(props.home.value, category);
      if props.windows == Some(true) {
        d := Or(Get(env, "LOCALAPPDATA"), d);
      }
      d := Or(Get(env, "XDG_DATA_HOME"), d);
      d := Join(d, props.dirname.value);
      cache := cache[key := d];
    }

    /** The `dataDir` getter, unless the caller's `dataDir` replaced it. */
    method DataDir(env: Env) returns (d: string)
      requires props.dataDir.None? ==> props.home.Some? && props.dirname.Some?
      modifies this`cache
      ensures props.dataDir.Some? ==> d == props.dataDir.value && cache == old(cache)
      ensures props.dataDir.None? ==>
        d == CachedDir(old(cache), props, "data", None, env) && cache == old(cache)[DirKey("data") := d]
    {
      if props.dataDir.Some? {
        d := props.dataDir.value;
      } else {
        d := Dir("data", None, env);
      }
    }

    /** The `configDir` getter, unless the caller's `configDir` replaced it. */
    method ConfigDir(env: Env) returns (d: string)
      requires props.configDir.None? ==> props.home.Some? && props.dirname.Some?
      modifies this`cache
      ensures props.configDir.Some? ==> d == props.configDir.value && cache == old(cache)
      ensures props.configDir.None? ==>
        d == CachedDir(old(cache), props, "config", None, env) && cache == old(cache)[DirKey("config") := d]
    {
      if props.configDir.Some? {
        d := props.configDir.value;
      } else {
        d := Dir("config", None, env);
      }
    }

    /** The `cacheDir` getter, unless the caller's `cacheDir` replaced it; on
        macOS the base starts as `~/Library/Caches`. */
    method CacheDir(env: Env) returns (d: string)
      requires props.cacheDir.None? ==> props.home.Some? && props.dirname.Some?
      modifies this`cache
      ensures props.cacheDir.Some? ==> d == props.cacheDir.value && cache == old(cache)
      ensures props.cacheDir.None? ==>
        d == CachedDir(old(cache), props, "cache", MacCaches(props), env)
        && cache == old(cache)[DirKey("cache") := d]
    {
      if props.cacheDir.Some? {
        d := props.cacheDir.value;
      } else {
        d := Dir("cache", MacCaches(props), env);
      }
    }
  }

  /** `this.platform === 'darwin' ? path.join(this.home, 'Library', 'Caches') : undefined`. */
  function MacCaches(props: Options): Option<string>
    requires props.home.Some?
  {
    if props.platform == Some("darwin") then Some(Join(Join(props.home.value, "Library"), "Caches")) else None
  }

  /** On macOS, without the environment overrides, the cache directory lives
      under `~/Library/Caches`. */
  lemma MacCacheDir(props: Options, env: Env)
    requires props.home.Some? && props.dirname.Some? && props.platform == Some("darwin")
    requires props.windows != Some(true) && !Truthy(Get(env, "XDG_DATA_HOME"))
    ensures CachedDir(map[], props, "cache", MacCaches(props), env)
         == props.home.value + "/Library/Caches/" + props.dirname.value
  {
  }

  /** The object literal `buildConfig` returns once the manifest is in place:
      `hooks()` and `topics()` run over the manifest's section (naming its topic
      objects in place), and the new object starts with an empty `__cache`. */
  method NewConfig(opts: Options, host: Host, env: Env) returns (c: Config)
    modifies TopicObjects(PjsonOf(opts).cli.topics)
    ensures fresh(c) && c.cache == map[]
    ensures c.props == ResolveLoaded(opts, host, env)
    ensures var m := TopicsOf(PjsonOf(opts).cli.topics); NamedFrom(old(Names(m)), m)
  {
    var cli := PjsonOf(opts).cli;
    var hooks := Hooks(cli.hooks);
    c := new Config(Resolve(opts, hooks, TopicsOf(cli.topics), host, env));
    // `topics()` hands back the dictionary it was given, naming its entries in place
    var topics := Topics(cli.topics);
  }

  /** `buildConfig(existing)`. A configuration already marked `_version: '1'` is
      returned as the same object and nothing is changed. Otherwise a
      package.json found under the caller's root becomes the caller's `pjson`,
      the manifest's topics are named in place, and a new object with an empty
      `__cache` is returned. */
  method BuildConfig(existing: Config, file: Option<ManifestFile>, host: Host, env: Env) returns (c: Config)
    modifies existing`props, TopicObjects(PjsonOf(LoadManifest(existing.props, file)).cli.topics)
    ensures old(existing.props).schemaVersion == Some("1") ==>
      && c == existing && existing.props == old(existing.props)
      && unchanged(TopicObjects(PjsonOf(LoadManifest(old(existing.props), file)).cli.topics))
    ensures old(existing.props).schemaVersion != Some("1") ==>
      && fresh(c) && c.cache == map[]
      && existing.props == LoadManifest(old(existing.props), file)
      && c.props == Build(old(existing.props), file, host, env)
      && var m := TopicsOf(PjsonOf(existing.props).cli.topics); NamedFrom(old(Names(m)), m)
  {
    if existing.props.schemaVersion == Some("1") {
      return existing;
    }
    var opts := LoadManifest(existing.props, file);
    ghost var names := Names(TopicsOf(PjsonOf(opts).cli.topics));
    existing.props := opts;
    assert Names(TopicsOf(PjsonOf(opts).cli.topics)) == names;
    c := NewConfig(opts, host, env);
  }
}
