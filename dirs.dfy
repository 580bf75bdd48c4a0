/** The data, config and cache directories. `dir(category)` appears in both
    revisions of the resolver (src/config.ts:77-88, src/config.js:55-62) with the
    same base-selection order: start from the supplied base or a home-relative
    default, let `LOCALAPPDATA` replace it on Windows, let `XDG_DATA_HOME` replace
    it everywhere, then append the CLI's directory name. */
module Dirs {
  import opened Runtime

  /** The home-relative default base: `~/.local/share` for data, `~/.<category>` otherwise. */
  function HomeDefault(home: string, category: string): string
  {
    Join(home, if category == "data" then ".local/share" else "." + category)
  }

  /** The base directory, read from the highest priority down. */
  function Base(category: string, given: Option<string>, home: string, windows: bool, env: Env): (b: string)
    ensures b != ""
    ensures Truthy(Get(env, "XDG_DATA_HOME")) ==> b == env["XDG_DATA_HOME"]
    ensures !Truthy(Get(env, "XDG_DATA_HOME")) && windows && Truthy(Get(env, "LOCALAPPDATA")) ==>
      b == env["LOCALAPPDATA"]
    ensures !Truthy(Get(env, "XDG_DATA_HOME")) && !(windows && Truthy(Get(env, "LOCALAPPDATA"))) ==>
      b == Or(given, HomeDefault(home, category))
  {
    if Truthy(Get(env, "XDG_DATA_HOME")) then env["XDG_DATA_HOME"]
    else if windows && Truthy(Get(env, "LOCALAPPDATA")) then env["LOCALAPPDATA"]
    else Or(given, HomeDefault(home, category))
  }

  /** The directory `dir(category)` returns: a base followed by the CLI's directory name. */
  function DirPath(category: string, given: Option<string>, home: string, windows: bool,
                   dirname: string, env: Env): (p: string)
    ensures p == Join(Base(category, given, home, windows, env), dirname)
    ensures IsSuffix("/" + dirname, p)
    ensures p != ""
  {
    var base := Base(category, given, home, windows, env);
    assert Join(base, dirname)[|base|..] == "/" + dirname;
    Join(base, dirname)
  }

  /** `XDG_DATA_HOME` is read for every category, so when it is set the data,
      config and cache directories are one and the same. */
  lemma XdgDataHomeServesEveryCategory(c1: string, g1: Option<string>, c2: string, g2: Option<string>,
                                       home: string, windows: bool, dirname: string, env: Env)
    requires Truthy(Get(env, "XDG_DATA_HOME"))
    ensures DirPath(c1, g1, home, windows, dirname, env) == DirPath(c2, g2, home, windows, dirname, env)
    ensures DirPath(c1, g1, home, windows, dirname, env) == Join(env["XDG_DATA_HOME"], dirname)
  {
  }

  /** Off Windows, `LOCALAPPDATA` has no effect. */
  lemma LocalAppDataOnlyOnWindows(category: string, given: Option<string>, home: string,
                                  dirname: string, env: Env)
    ensures DirPath(category, given, home, false, dirname, env)
         == DirPath(category, given, home, false, dirname, env - {"LOCALAPPDATA"})
  {
  }

  /** On Windows without `XDG_DATA_HOME`, `LOCALAPPDATA` wins over the supplied base. */
  lemma LocalAppDataBeatsGivenBase(category: string, given: Option<string>, home: string,
                                   dirname: string, env: Env)
    requires !Truthy(Get(env, "XDG_DATA_HOME")) && Truthy(Get(env, "LOCALAPPDATA"))
    ensures DirPath(category, given, home, true, dirname, env) == Join(env["LOCALAPPDATA"], dirname)
  {
  }

  /** Without the environment overrides, a supplied base (such as the macOS
      `~/Library/Caches`) is the base. */
  lemma SuppliedBaseUsed(category: string, given: Option<string>, home: string, windows: bool,
                         dirname: string, env: Env)
    requires !Truthy(Get(env, "XDG_DATA_HOME"))
    requires !(windows && Truthy(Get(env, "LOCALAPPDATA")))
    requires Truthy(given)
    ensures DirPath(category, given, home, windows, dirname, env) == Join(given.value, dirname)
  {
  }

  /** Without any of the environment overrides and without a supplied base,
      the directories are `~/.local/share/<dirname>`, `~/.config/<dirname>` and
      `~/.cache/<dirname>`. */
  lemma HomeRelativeDefaults(category: string, home: string, windows: bool, dirname: string, env: Env)
    requires !Truthy(Get(env, "XDG_DATA_HOME"))
    requires !(windows && Truthy(Get(env, "LOCALAPPDATA")))
    ensures category == "data" ==> DirPath(category, None, home, windows, dirname, env) == home + "/.local/share/" + dirname
    ensures category != "data" ==> DirPath(category, None, home, windows, dirname, env) == home + "/." + category + "/" + dirname
  {
    HomeRelative(category, home, windows, dirname, env);
    if category == "data" {
      assert home + "/" + ".local/share" + "/" + dirname == home + "/.local/share/" + dirname;
    } else {
      assert home + "/" + ("." + category) + "/" + dirname == home + "/." + category + "/" + dirname;
    }
  }

  /** Without overrides and without a supplied base, a directory sits under its home-relative default. */
  lemma HomeRelative(category: string, home: string, windows: bool, dirname: string, env: Env)
    requires !Truthy(Get(env, "XDG_DATA_HOME"))
    requires !(windows && Truthy(Get(env, "LOCALAPPDATA")))
    ensures DirPath(category, None, home, windows, dirname, env) == HomeDefault(home, category) + "/" + dirname
  {
  }
}
