/**
 * The virtual environment creator of venv.py: the directory layout, the
 * edits made to an environment, the babeltrace configure fix-up, the
 * environment of the activation script and the order in which projects
 * are built.  Running commands, the file system and the activation
 * template are not modelled: what the creator would build is recorded as
 * a sequence of build steps.
 */
module Venv {
  import opened Wrappers
  import opened Dicts
  import opened Text
  import opened Tree
  import opened Project

  // ---- Directory layout -------------------------------------------------------

  /** posixpath.join(a, b). */
  function PathJoin(a: string, b: string): string {
    if StartsWith(b, "/") then b
    else if a == "" || EndsWith(a, "/") then a + b
    else a + "/" + b
  }

  /** _Paths: the directories of the virtual environment at venv, an absolute path. */
  datatype Paths = Paths(venv: string) {
    function Home(): string { PathJoin(venv, "home") }
    function Usr(): string { PathJoin(venv, "usr") }
    function Bin(): string { PathJoin(Usr(), "bin") }
    function Lib(): string { PathJoin(Usr(), "lib") }
    function PkgConfig(): string { PathJoin(Lib(), "pkgconfig") }
    function Include(): string { PathJoin(Usr(), "include") }
    function Opt(): string { PathJoin(Usr(), "opt") }
    function Src(): string { PathJoin(venv, "src") }
    function Share(): string { PathJoin(Usr(), "share") }
    function ShareJava(): string { PathJoin(Share(), "java") }
    function ProjectSrc(name: string): string { PathJoin(Src(), name) }
  }

  /** What children are appended to: the venv path itself, or nothing for the root. */
  function Base(dir: string): string {
    if dir == "/" then "" else dir
  }

  /** name one level below dir, separated by exactly one slash. */
  function Under(dir: string, name: string): string {
    Base(dir) + "/" + name
  }

  /** A directory as os.path.abspath leaves it: the root, or a path without a trailing slash. */
  predicate Normal(dir: string) {
    dir == "/" || (dir != "" && !EndsWith(dir, "/"))
  }

  /** Joining a plain name under a normal directory adds one slash, and stays normal. */
  lemma JoinUnder(dir: string, name: string)
    requires Normal(dir)
    requires |name| > 0 && name[0] != '/' && name[|name| - 1] != '/'
    ensures PathJoin(dir, name) == Under(dir, name)
    ensures Normal(PathJoin(dir, name)) && PathJoin(dir, name) != "/"
  {
    assert name[..1] == [name[0]];
    var r := PathJoin(dir, name);
    assert r[|r| - 1] == name[|name| - 1];
    if dir != "/" {
      assert dir[|dir| - 1] != '/' by {
        assert dir[|dir| - 1..] == [dir[|dir| - 1]];
      }
    }
  }

  /** The layout of the virtual environment: home, usr and src directly under it. */
  lemma PathsLayout(p: Paths)
    requires Normal(p.venv)
    ensures p.Home() == Under(p.venv, "home")
    ensures p.Usr() == Under(p.venv, "usr")
    ensures p.Src() == Under(p.venv, "src")
  {
    JoinUnder(p.venv, "home");
    JoinUnder(p.venv, "usr");
    JoinUnder(p.venv, "src");
  }

  /** bin, lib, include, opt and share directly under usr. */
  lemma UsrLayout(p: Paths)
    requires Normal(p.venv)
    ensures p.Bin() == Under(p.Usr(), "bin")
    ensures p.Lib() == Under(p.Usr(), "lib")
    ensures p.Include() == Under(p.Usr(), "include")
    ensures p.Opt() == Under(p.Usr(), "opt")
    ensures p.Share() == Under(p.Usr(), "share")
  {
    JoinUnder(p.venv, "usr");
    var usr := p.Usr();
    assert Base(usr) == usr;
    JoinUnder(usr, "bin");
    JoinUnder(usr, "lib");
    JoinUnder(usr, "include");
    JoinUnder(usr, "opt");
    JoinUnder(usr, "share");
  }

  /** lib/pkgconfig, share/java, and each project's sources under src. */
  lemma DeeperLayout(p: Paths, name: string)
    requires Normal(p.venv) && !StartsWith(name, "/")
    ensures p.PkgConfig() == Under(p.Lib(), "pkgconfig")
    ensures p.ShareJava() == Under(p.Share(), "java")
    ensures p.ProjectSrc(name) == Under(p.Src(), name)
  {
    JoinUnder(p.venv, "usr");
    JoinUnder(p.venv, "src");
    var usr, src := p.Usr(), p.Src();
    JoinUnder(usr, "lib");
    JoinUnder(usr, "share");
    var lib, share := p.Lib(), p.Share();
    assert Base(lib) == lib && Base(share) == share;
    JoinUnder(lib, "pkgconfig");
    JoinUnder(share, "java");
  }

  /** A virtual environment at /home/u/virt. */
  lemma ExampleLayout()
    ensures Paths("/home/u/virt").Bin() == "/home/u/virt/usr/bin"
  {
    var p := Paths("/home/u/virt");
    assert Normal(p.venv);
    PathsLayout(p);
    UsrLayout(p);
  }

  // ---- _patch_env -------------------------------------------------------------------

  /** The old value of key as format prints it, '' when it is absent. */
  function Prior(env: Dict<Node>, key: string, dictText: Dict<Node> -> string): string {
    PyStr(Get(env, key).GetOr(Str("")), dictText)
  }

  /** env[key] += suffix, an absent key counting as ''; only a string can be extended. */
  function Extended(env: Dict<Node>, key: string, suffix: string): Result<Dict<Node>, Error> {
    match Get(env, key).GetOr(Str(""))
    case Str(s) => Ok(Set(env, key, Str(s + suffix)))
    case _ => Err(TypeError)
  }

  /** env[key] = dir + ':' + str(env.get(key, '')): dir in front of a search path. */
  function Prepended(env: Dict<Node>, key: string, dir: string, dictText: Dict<Node> -> string): Dict<Node> {
    Set(env, key, Str(dir + ":" + Prior(env, key, dictText)))
  }

  /** _patch_env, lines 68-93: the paths in front of the search paths, the flags at the end of the flag lists. */
  function Patched(env: Dict<Node>, paths: Paths, quote: string -> string, dictText: Dict<Node> -> string)
    : Result<Dict<Node>, Error>
  {
    PatchedWith(env, paths.Bin(), paths.Include(), paths.Lib(), paths.PkgConfig(), quote, dictText)
  }

  /** The five edits of _patch_env, for the given directories. */
  function PatchedWith(env: Dict<Node>, bin: string, includeDir: string, lib: string, pkgConfig: string,
                       quote: string -> string, dictText: Dict<Node> -> string): Result<Dict<Node>, Error>
  {
    var e1 := Prepended(env, "PATH", bin, dictText);
    var e2 :- Extended(e1, "CPPFLAGS", " -I" + quote(includeDir));
    var e3 :- Extended(e2, "LDFLAGS", " -L" + quote(lib));
    var e4 := Prepended(e3, "LD_LIBRARY_PATH", lib, dictText);
    Ok(Prepended(e4, "PKG_CONFIG_PATH", pkgConfig, dictText))
  }

  /** _patch_env: the keys of env rewritten one after the other. */
  method PatchEnv(env: Dict<Node>, paths: Paths, quote: string -> string, dictText: Dict<Node> -> string)
    returns (r: Result<Dict<Node>, Error>)
    ensures r == Patched(env, paths, quote, dictText)
  {
    var e := env;
    // PATH
    var path := Prior(e, "PATH", dictText);
    e := Set(e, "PATH", Str(paths.Bin() + ":" + path));
    // CPPFLAGS
    var cppflags := Get(e, "CPPFLAGS").GetOr(Str(""));
    if !cppflags.Str? {
      return Err(TypeError);
    }
    var includeFlag := " -I" + quote(paths.Include());
    e := Set(e, "CPPFLAGS", Str(cppflags.s + includeFlag));
    // LDFLAGS
    var ldflags := Get(e, "LDFLAGS").GetOr(Str(""));
    if !ldflags.Str? {
      return Err(TypeError);
    }
    var libFlag := " -L" + quote(paths.Lib());
    e := Set(e, "LDFLAGS", Str(ldflags.s + libFlag));
    // LD_LIBRARY_PATH
    var ldLibraryPath := Prior(e, "LD_LIBRARY_PATH", dictText);
    e := Set(e, "LD_LIBRARY_PATH", Str(paths.Lib() + ":" + ldLibraryPath));
    // PKG_CONFIG_PATH
    var pkgConfigPath := Prior(e, "PKG_CONFIG_PATH", dictText);
    e := Set(e, "PKG_CONFIG_PATH", Str(paths.PkgConfig() + ":" + pkgConfigPath));
    r := Ok(e);
  }

  const PatchedKeys: seq<string> := ["PATH", "CPPFLAGS", "LDFLAGS", "LD_LIBRARY_PATH", "PKG_CONFIG_PATH"]

  /**
   * What _patch_env writes: each search path gains its directory in front
   * of the old value, each flag list its option at the end, and no other
   * key changes; a flag list that is not a string raises TypeError.
   */
  lemma PatchedMeaning(env: Dict<Node>, paths: Paths, quote: string -> string, dictText: Dict<Node> -> string)
    ensures Patched(env, paths, quote, dictText).Ok? <==>
              Get(env, "CPPFLAGS").GetOr(Str("")).Str? && Get(env, "LDFLAGS").GetOr(Str("")).Str?
    ensures Patched(env, paths, quote, dictText).Err? ==> Patched(env, paths, quote, dictText).error == TypeError
    ensures Patched(env, paths, quote, dictText).Ok? ==>
              var r := Patched(env, paths, quote, dictText).value;
              && Get(r, "PATH") == Some(Str(paths.Bin() + ":" + Prior(env, "PATH", dictText)))
              && Get(r, "CPPFLAGS") == Some(Str(Get(env, "CPPFLAGS").GetOr(Str("")).s + (" -I" + quote(paths.Include()))))
              && Get(r, "LDFLAGS") == Some(Str(Get(env, "LDFLAGS").GetOr(Str("")).s + (" -L" + quote(paths.Lib()))))
              && Get(r, "LD_LIBRARY_PATH") == Some(Str(paths.Lib() + ":" + Prior(env, "LD_LIBRARY_PATH", dictText)))
              && Get(r, "PKG_CONFIG_PATH") == Some(Str(paths.PkgConfig() + ":" + Prior(env, "PKG_CONFIG_PATH", dictText)))
              && forall k :: k !in PatchedKeys ==> Get(r, k) == Get(env, k)
  {
    PatchedWithOk(env, paths.Bin(), paths.Include(), paths.Lib(), paths.PkgConfig(), quote, dictText);
    if Patched(env, paths, quote, dictText).Ok? {
      PatchedWithPaths(env, paths.Bin(), paths.Include(), paths.Lib(), paths.PkgConfig(), quote, dictText);
      PatchedWithFlags(env, paths.Bin(), paths.Include(), paths.Lib(), paths.PkgConfig(), quote, dictText,
                       Get(env, "CPPFLAGS").GetOr(Str("")).s, Get(env, "LDFLAGS").GetOr(Str("")).s);
      PatchedWithOthers(env, paths.Bin(), paths.Include(), paths.Lib(), paths.PkgConfig(), quote, dictText);
    }
  }

  /** _patch_env for the given directories: when it fails, and with what. */
  lemma PatchedWithOk(env: Dict<Node>, bin: string, includeDir: string, lib: string, pkgConfig: string,
                      quote: string -> string, dictText: Dict<Node> -> string)
    ensures PatchedWith(env, bin, includeDir, lib, pkgConfig, quote, dictText).Ok? <==>
              Get(env, "CPPFLAGS").GetOr(Str("")).Str? && Get(env, "LDFLAGS").GetOr(Str("")).Str?
    ensures PatchedWith(env, bin, includeDir, lib, pkgConfig, quote, dictText).Err? ==>
              PatchedWith(env, bin, includeDir, lib, pkgConfig, quote, dictText).error == TypeError
  {
    var e1 := Prepended(env, "PATH", bin, dictText);
    PrependedMeaning(env, "PATH", bin, dictText);
    assert Get(e1, "CPPFLAGS") == Get(env, "CPPFLAGS") && Get(e1, "LDFLAGS") == Get(env, "LDFLAGS");
    var x2 := Extended(e1, "CPPFLAGS", " -I" + quote(includeDir));
    ExtendedMeaning(e1, "CPPFLAGS", " -I" + quote(includeDir));
    if x2.Ok? {
      assert Get(x2.value, "LDFLAGS") == Get(env, "LDFLAGS");
      ExtendedMeaning(x2.value, "LDFLAGS", " -L" + quote(lib));
    }
  }

  /** The intermediate dicts of a successful _patch_env. */
  lemma PatchedWithSteps(env: Dict<Node>, bin: string, includeDir: string, lib: string, pkgConfig: string,
                         quote: string -> string, dictText: Dict<Node> -> string)
    returns (e1: Dict<Node>, e2: Dict<Node>, e3: Dict<Node>, e4: Dict<Node>)
    requires PatchedWith(env, bin, includeDir, lib, pkgConfig, quote, dictText).Ok?
    ensures e1 == Prepended(env, "PATH", bin, dictText)
    ensures Extended(e1, "CPPFLAGS", " -I" + quote(includeDir)) == Ok(e2)
    ensures Extended(e2, "LDFLAGS", " -L" + quote(lib)) == Ok(e3)
    ensures e4 == Prepended(e3, "LD_LIBRARY_PATH", lib, dictText)
    ensures PatchedWith(env, bin, includeDir, lib, pkgConfig, quote, dictText)
            == Ok(Prepended(e4, "PKG_CONFIG_PATH", pkgConfig, dictText))
  {
    e1 := Prepended(env, "PATH", bin, dictText);
    e2 := Extended(e1, "CPPFLAGS", " -I" + quote(includeDir)).value;
    e3 := Extended(e2, "LDFLAGS", " -L" + quote(lib)).value;
    e4 := Prepended(e3, "LD_LIBRARY_PATH", lib, dictText);
  }

  /** _patch_env for the given directories: the directories it puts in front of the search paths. */
  lemma PatchedWithPaths(env: Dict<Node>, bin: string, includeDir: string, lib: string, pkgConfig: string,
                         quote: string -> string, dictText: Dict<Node> -> string)
    requires PatchedWith(env, bin, includeDir, lib, pkgConfig, quote, dictText).Ok?
    ensures var r := PatchedWith(env, bin, includeDir, lib, pkgConfig, quote, dictText).value;
            && Get(r, "PATH") == Some(Str(bin + ":" + Prior(env, "PATH", dictText)))
            && Get(r, "LD_LIBRARY_PATH") == Some(Str(lib + ":" + Prior(env, "LD_LIBRARY_PATH", dictText)))
            && Get(r, "PKG_CONFIG_PATH") == Some(Str(pkgConfig + ":" + Prior(env, "PKG_CONFIG_PATH", dictText)))
  {
    var e1, e2, e3, e4 := PatchedWithSteps(env, bin, includeDir, lib, pkgConfig, quote, dictText);
    var r := Prepended(e4, "PKG_CONFIG_PATH", pkgConfig, dictText);
    PrependedMeaning(env, "PATH", bin, dictText);
    ExtendedMeaning(e1, "CPPFLAGS", " -I" + quote(includeDir));
    ExtendedMeaning(e2, "LDFLAGS", " -L" + quote(lib));
    PrependedMeaning(e3, "LD_LIBRARY_PATH", lib, dictText);
    PrependedMeaning(e4, "PKG_CONFIG_PATH", pkgConfig, dictText);
    assert "PKG_CONFIG_PATH" != "LD_LIBRARY_PATH" by {
      assert "PKG_CONFIG_PATH"[0] != "LD_LIBRARY_PATH"[0];
    }
    assert Get(e3, "LD_LIBRARY_PATH") == Get(e2, "LD_LIBRARY_PATH") == Get(e1, "LD_LIBRARY_PATH")
        == Get(env, "LD_LIBRARY_PATH");
    assert Get(e4, "PKG_CONFIG_PATH") == Get(e3, "PKG_CONFIG_PATH") == Get(e2, "PKG_CONFIG_PATH")
        == Get(e1, "PKG_CONFIG_PATH") == Get(env, "PKG_CONFIG_PATH");
    assert Get(r, "LD_LIBRARY_PATH") == Get(e4, "LD_LIBRARY_PATH");
    assert Get(r, "PATH") == Get(e4, "PATH") == Get(e3, "PATH") == Get(e2, "PATH") == Get(e1, "PATH");
  }

  /** _patch_env for the given directories: the options it appends to the flag lists. */
  lemma PatchedWithFlags(env: Dict<Node>, bin: string, includeDir: string, lib: string, pkgConfig: string,
                         quote: string -> string, dictText: Dict<Node> -> string, cppflags: string, ldflags: string)
    requires Get(env, "CPPFLAGS").GetOr(Str("")) == Str(cppflags)
    requires Get(env, "LDFLAGS").GetOr(Str("")) == Str(ldflags)
    ensures PatchedWith(env, bin, includeDir, lib, pkgConfig, quote, dictText).Ok?
    ensures var r := PatchedWith(env, bin, includeDir, lib, pkgConfig, quote, dictText).value;
            && Get(r, "CPPFLAGS") == Some(Str(cppflags + (" -I" + quote(includeDir))))
            && Get(r, "LDFLAGS") == Some(Str(ldflags + (" -L" + quote(lib))))
  {
    PatchedWithOk(env, bin, includeDir, lib, pkgConfig, quote, dictText);
    var e1, e2, e3, e4 := PatchedWithSteps(env, bin, includeDir, lib, pkgConfig, quote, dictText);
    var r := Prepended(e4, "PKG_CONFIG_PATH", pkgConfig, dictText);
    PrependedMeaning(env, "PATH", bin, dictText);
    ExtendedMeaning(e1, "CPPFLAGS", " -I" + quote(includeDir));
    ExtendedMeaning(e2, "LDFLAGS", " -L" + quote(lib));
    PrependedMeaning(e3, "LD_LIBRARY_PATH", lib, dictText);
    PrependedMeaning(e4, "PKG_CONFIG_PATH", pkgConfig, dictText);
    assert Get(r, "CPPFLAGS") == Get(e4, "CPPFLAGS") == Get(e3, "CPPFLAGS") == Get(e2, "CPPFLAGS");
    assert Get(r, "LDFLAGS") == Get(e4, "LDFLAGS") == Get(e3, "LDFLAGS");
  }

  /** _patch_env for the given directories leaves every other key as it was. */
  lemma PatchedWithOthers(env: Dict<Node>, bin: string, includeDir: string, lib: string, pkgConfig: string,
                          quote: string -> string, dictText: Dict<Node> -> string)
    requires PatchedWith(env, bin, includeDir, lib, pkgConfig, quote, dictText).Ok?
    ensures var r := PatchedWith(env, bin, includeDir, lib, pkgConfig, quote, dictText).value;
            forall k :: k !in PatchedKeys ==> Get(r, k) == Get(env, k)
  {
    var e1, e2, e3, e4 := PatchedWithSteps(env, bin, includeDir, lib, pkgConfig, quote, dictText);
    var r := Prepended(e4, "PKG_CONFIG_PATH", pkgConfig, dictText);
    PrependedMeaning(env, "PATH", bin, dictText);
    ExtendedMeaning(e1, "CPPFLAGS", " -I" + quote(includeDir));
    ExtendedMeaning(e2, "LDFLAGS", " -L" + quote(lib));
    PrependedMeaning(e3, "LD_LIBRARY_PATH", lib, dictText);
    PrependedMeaning(e4, "PKG_CONFIG_PATH", pkgConfig, dictText);
    forall k | k !in PatchedKeys ensures Get(r, k) == Get(env, k) {
      assert k != "PATH" && k != "CPPFLAGS" && k != "LDFLAGS" && k != "LD_LIBRARY_PATH" && k != "PKG_CONFIG_PATH";
    }
  }

  /** dir goes in front of the old value of key, and nothing else changes. */
  lemma PrependedMeaning(env: Dict<Node>, key: string, dir: string, dictText: Dict<Node> -> string)
    ensures Get(Prepended(env, key, dir, dictText), key) == Some(Str(dir + ":" + Prior(env, key, dictText)))
    ensures forall k :: k != key ==> Get(Prepended(env, key, dir, dictText), k) == Get(env, k)
  {
  }

  /** env[key] += suffix assigns key and nothing else, and fails exactly when the old value is not a string. */
  lemma ExtendedMeaning(env: Dict<Node>, key: string, suffix: string)
    ensures Extended(env, key, suffix).Ok? <==> Get(env, key).GetOr(Str("")).Str?
    ensures Extended(env, key, suffix).Err? ==> Extended(env, key, suffix).error == TypeError
    ensures Extended(env, key, suffix).Ok? ==>
              && Get(Extended(env, key, suffix).value, key) == Some(Str(Get(env, key).GetOr(Str("")).s + suffix))
              && forall k :: k != key ==> Get(Extended(env, key, suffix).value, k) == Get(env, k)
  {
  }

  // ---- The babeltrace fix-up of _validate_profile -----------------------------------------

  const Bindings: string := "--enable-python-bindings"

  /** The configure options with the two ways of turning the bindings off removed, and the bindings asked for. */
  function WithBindings(configure: string): string {
    RemoveAll(RemoveAll(configure, "--disable-python-bindings"), "--enable-python-bindings=no") + " " + Bindings
  }

  lemma WithBindingsAsks(configure: string)
    ensures Contains(WithBindings(configure), Bindings)
  {
    var s := WithBindings(configure);
    var head := RemoveAll(RemoveAll(configure, "--disable-python-bindings"), "--enable-python-bindings=no") + " ";
    assert s == head + Bindings;
    assert s[|head|..|head| + |Bindings|] == Bindings;
    assert OccursAt(s, Bindings, |head|);
  }

  /** lttng-analyses needs babeltrace's Python bindings, and the configure options do not mention them. */
  predicate NeedsBindings(projects: Dict<ProjectRecord>) {
    Get(projects, "lttng-analyses").Some? && Get(projects, "babeltrace").Some?
    && !Contains(Get(projects, "babeltrace").value.configure, Bindings)
  }

  /** The profile once _validate_profile has run. */
  function Injected(p: Profile): (r: Profile)
    ensures r.virtEnv == p.virtEnv && r.buildEnv == p.buildEnv
    ensures Keys(r.projects) == Keys(p.projects)
    ensures forall k :: k != "babeltrace" ==> Get(r.projects, k) == Get(p.projects, k)
    ensures Get(p.projects, "babeltrace").Some? ==>
              Get(r.projects, "babeltrace").Some? &&
              Get(r.projects, "babeltrace").value
              == Get(p.projects, "babeltrace").value.(configure := Get(r.projects, "babeltrace").value.configure)
    ensures r != p <==> NeedsBindings(p.projects)
    ensures NeedsBindings(p.projects) ==>
              Get(r.projects, "babeltrace").value.configure == WithBindings(Get(p.projects, "babeltrace").value.configure)
    ensures Get(p.projects, "lttng-analyses").Some? && Get(p.projects, "babeltrace").Some? ==>
              Contains(Get(r.projects, "babeltrace").value.configure, Bindings)
  {
    if NeedsBindings(p.projects) then
      var bt := Get(p.projects, "babeltrace").value;
      WithBindingsAsks(bt.configure);
      var r := p.(projects := Set(p.projects, "babeltrace", bt.(configure := WithBindings(bt.configure))));
      SetKeys(p.projects, "babeltrace", bt.(configure := WithBindings(bt.configure)));
      assert Get(r.projects, "babeltrace") != Get(p.projects, "babeltrace");
      r
    else p
  }

  /** Running the fix-up twice changes nothing more. */
  lemma InjectedIdempotent(p: Profile)
    ensures Injected(Injected(p)) == Injected(p)
  {
    if NeedsBindings(p.projects) {
      assert !NeedsBindings(Injected(p).projects);
    }
  }

  /** An explicit --enable-python-bindings=no already mentions the bindings: it is left alone. */
  lemma ExplicitNoKept(p: Profile)
    requires Get(p.projects, "babeltrace").Some?
    requires Contains(Get(p.projects, "babeltrace").value.configure, "--enable-python-bindings=no")
    ensures Injected(p) == p
  {
    assert "--enable-python-bindings=no" == Bindings + "=no";
    ContainsPrefix(Get(p.projects, "babeltrace").value.configure, Bindings, "=no");
  }

  // ---- The activation environment of _create_activate ------------------------------------

  /** The variables the activation script sets itself. */
  const ReservedKeys: seq<string> := ["VLTTNG", "PATH", "CPPFLAGS", "LDFLAGS", "LD_LIBRARY_PATH", "MANPATH",
                                      "PKG_CONFIG_PATH", "PYTHONPATH", "LTTNG_HOME", "PS1", "MODPROBE_OPTIONS"]

  /** d without the entries whose key is one of ks, in order. */
  function Without(d: Dict<Node>, ks: seq<string>): (r: Dict<Node>)
    ensures forall e :: e in r <==> e in d && e.0 !in ks
  {
    if d == [] then []
    else if d[0].0 in ks then Without(d[1..], ks)
    else [d[0]] + Without(d[1..], ks)
  }

  /** Filtering out no key keeps everything. */
  lemma {:induction false} WithoutNothing(d: Dict<Node>)
    ensures Without(d, []) == d
  {
    if d != [] {
      WithoutNothing(d[1..]);
    }
  }

  /** Deleting one more key is filtering it out as well. */
  lemma {:induction false} DelWithout(d: Dict<Node>, ks: seq<string>, k: string)
    ensures Del(Without(d, ks), k) == Without(d, ks + [k])
  {
    if d != [] {
      DelWithout(d[1..], ks, k);
    }
  }

  /** Assigning a key that is filtered out anyway leaves the filtered mapping as it was. */
  lemma {:induction false} WithoutSet(d: Dict<Node>, ks: seq<string>, k: string, v: Node)
    requires k in ks
    ensures Without(Set(d, k, v), ks) == Without(d, ks)
  {
    if d != [] && d[0].0 != k {
      WithoutSet(d[1..], ks, k, v);
    }
  }

  function SaveLine(k: string): string { "_VLTTNG_OLD_" + k + "=\"$" + k + "\"" }
  function ExportLine(k: string, v: string): string { "export " + k + "=" + v }
  function RestoreLine(k: string): string { "    " + k + "=\"$_VLTTNG_OLD_" + k + "\"" }
  function UnsetLine(k: string): string { "    unset _VLTTNG_OLD_" + k }

  /** env_items for the entries of d: a save line and an export line per entry, under the stripped key. */
  function EnvItems(d: Dict<Node>, quote: string -> string, dictText: Dict<Node> -> string): seq<string>
    decreases |d|
  {
    if d == [] then []
    else
      var (k, v) := d[|d| - 1];
      EnvItems(d[..|d| - 1], quote, dictText) + [SaveLine(Strip(k)), ExportLine(Strip(k), quote(PyStr(v, dictText)))]
  }

  /** unenv_items for the entries of d: a restore line and an unset line per entry. */
  function UnenvItems(d: Dict<Node>): seq<string>
    decreases |d|
  {
    if d == [] then []
    else UnenvItems(d[..|d| - 1]) + [RestoreLine(Strip(d[|d| - 1].0)), UnsetLine(Strip(d[|d| - 1].0))]
  }

  /** Two export-side lines per entry, in the order of the entries. */
  lemma {:induction false} EnvItemsShape(d: Dict<Node>, quote: string -> string, dictText: Dict<Node> -> string)
    ensures |EnvItems(d, quote, dictText)| == 2 * |d|
    ensures forall i :: 0 <= i < |d| ==>
              && EnvItems(d, quote, dictText)[2 * i] == SaveLine(Strip(d[i].0))
              && EnvItems(d, quote, dictText)[2 * i + 1] == ExportLine(Strip(d[i].0), quote(PyStr(d[i].1, dictText)))
    decreases |d|
  {
    if d != [] {
      var init := d[..|d| - 1];
      EnvItemsShape(init, quote, dictText);
      var (k, v) := d[|d| - 1];
      var r := EnvItems(d, quote, dictText);
      var ri := EnvItems(init, quote, dictText);
      assert r == ri + [SaveLine(Strip(k)), ExportLine(Strip(k), quote(PyStr(v, dictText)))];
      forall i | 0 <= i < |d|
        ensures r[2 * i] == SaveLine(Strip(d[i].0))
        ensures r[2 * i + 1] == ExportLine(Strip(d[i].0), quote(PyStr(d[i].1, dictText)))
      {
        if i < |init| {
          assert init[i] == d[i];
          assert r[2 * i] == ri[2 * i] && r[2 * i + 1] == ri[2 * i + 1];
        } else {
          assert 2 * i == |ri| && d[i] == (k, v);
        }
      }
    }
  }

  /** Two deactivation-side lines per entry, in the order of the entries. */
  lemma {:induction false} UnenvItemsShape(d: Dict<Node>)
    ensures |UnenvItems(d)| == 2 * |d|
    ensures forall i :: 0 <= i < |d| ==>
              UnenvItems(d)[2 * i] == RestoreLine(Strip(d[i].0)) && UnenvItems(d)[2 * i + 1] == UnsetLine(Strip(d[i].0))
    decreases |d|
  {
    if d != [] {
      var init := d[..|d| - 1];
      UnenvItemsShape(init);
      var r := UnenvItems(d);
      var ri := UnenvItems(init);
      assert r == ri + [RestoreLine(Strip(d[|d| - 1].0)), UnsetLine(Strip(d[|d| - 1].0))];
      forall i | 0 <= i < |d|
        ensures r[2 * i] == RestoreLine(Strip(d[i].0)) && r[2 * i + 1] == UnsetLine(Strip(d[i].0))
      {
        if i < |init| {
          assert init[i] == d[i];
          assert r[2 * i] == ri[2 * i] && r[2 * i + 1] == ri[2 * i + 1];
        } else {
          assert 2 * i == |ri|;
        }
      }
    }
  }

  /** The entries _create_activate exports as written: the patched virt-env without the reserved keys. */
  function ExportedAsWritten(virtEnv: Node, paths: Paths, quote: string -> string, dictText: Dict<Node> -> string)
    : Result<Dict<Node>, Error>
  {
    if !virtEnv.Mapping? then Err(AttributeError)
    else
      var env :- Patched(virtEnv.entries, paths, quote, dictText);
      Ok(Without(env, ReservedKeys))
  }

  /**
   * The keys _patch_env writes are all reserved: what is exported is the
   * virt-env itself without its reserved keys, in order.
   */
  lemma ExportedAsWrittenIsVirtEnv(virtEnv: Node, paths: Paths, quote: string -> string, dictText: Dict<Node> -> string)
    requires ExportedAsWritten(virtEnv, paths, quote, dictText).Ok?
    ensures ExportedAsWritten(virtEnv, paths, quote, dictText).value == Without(virtEnv.entries, ReservedKeys)
    ensures forall i :: 0 <= i < |ExportedAsWritten(virtEnv, paths, quote, dictText).value| ==>
              ExportedAsWritten(virtEnv, paths, quote, dictText).value[i].0 !in ReservedKeys
  {
    var env := virtEnv.entries;
    var e1 := Set(env, "PATH", Str(paths.Bin() + ":" + Prior(env, "PATH", dictText)));
    WithoutSet(env, ReservedKeys, "PATH", Str(paths.Bin() + ":" + Prior(env, "PATH", dictText)));
    var e2 := Extended(e1, "CPPFLAGS", " -I" + quote(PathJoin(paths.Usr(), "include"))).value;
    WithoutSet(e1, ReservedKeys, "CPPFLAGS", Get(e2, "CPPFLAGS").value);
    var e3 := Extended(e2, "LDFLAGS", " -L" + quote(paths.Lib())).value;
    WithoutSet(e2, ReservedKeys, "LDFLAGS", Get(e3, "LDFLAGS").value);
    var e4 := Set(e3, "LD_LIBRARY_PATH", Str(paths.Lib() + ":" + Prior(e3, "LD_LIBRARY_PATH", dictText)));
    WithoutSet(e3, ReservedKeys, "LD_LIBRARY_PATH", Str(paths.Lib() + ":" + Prior(e3, "LD_LIBRARY_PATH", dictText)));
    WithoutSet(e4, ReservedKeys, "PKG_CONFIG_PATH", Str(paths.PkgConfig() + ":" + Prior(e4, "PKG_CONFIG_PATH", dictText)));
    var r := ExportedAsWritten(virtEnv, paths, quote, dictText).value;
    forall i | 0 <= i < |r| ensures r[i].0 !in ReservedKeys {
      assert r[i] in r;
    }
  }

  /** The delete loop of _create_activate: each of ks deleted when present. */
  method RemoveKeys(patched: Dict<Node>, ks: seq<string>) returns (env: Dict<Node>)
    ensures env == Without(patched, ks)
  {
    env := patched;
    var i := 0;
    WithoutNothing(patched);
    assert ks[..0] == [];
    while i < |ks|
      invariant 0 <= i <= |ks|
      invariant env == Without(patched, ks[..i])
    {
      RemoveKeyStep(patched, ks, i, env);
      if Get(env, ks[i]).Some? {
        env := Del(env, ks[i]);
      }
      i := i + 1;
    }
    assert ks[..i] == ks;
  }

  /** One pass of the delete loop removes one more key from the filtered mapping. */
  lemma RemoveKeyStep(patched: Dict<Node>, ks: seq<string>, i: nat, env: Dict<Node>)
    requires i < |ks| && env == Without(patched, ks[..i])
    ensures (if Get(env, ks[i]).Some? then Del(env, ks[i]) else env) == Without(patched, ks[..i + 1])
  {
    DelWithout(patched, ks[..i], ks[i]);
    assert ks[..i] + [ks[i]] == ks[..i + 1];
    if Get(env, ks[i]).None? {
      DelAbsent(env, ks[i]);
    }
  }

  /** The item loop of _create_activate: two lines each way per entry, under the stripped key. */
  method ActivationItems(env: Dict<Node>, quote: string -> string, dictText: Dict<Node> -> string)
    returns (envItems: seq<string>, unenvItems: seq<string>)
    ensures envItems == EnvItems(env, quote, dictText) && unenvItems == UnenvItems(env)
  {
    envItems, unenvItems := [], [];
    var j := 0;
    while j < |env|
      invariant 0 <= j <= |env|
      invariant envItems == EnvItems(env[..j], quote, dictText) && unenvItems == UnenvItems(env[..j])
    {
      assert env[..j + 1][..j] == env[..j];
      var key := Strip(env[j].0);
      envItems := envItems + [SaveLine(key), ExportLine(key, quote(PyStr(env[j].1, dictText)))];
      unenvItems := unenvItems + [RestoreLine(key), UnsetLine(key)];
      j := j + 1;
    }
    assert env[..j] == env;
  }

  /** What _create_activate hands to the template. */
  datatype Activation = Activation(venvPath: string, hasModules: string, hasJava: string,
                                   envItems: seq<string>, unenvItems: seq<string>)

  function HasModules(projects: Dict<ProjectRecord>): string {
    if Get(projects, "lttng-modules").Some? then "1" else "0"
  }

  function HasJava(projects: Dict<ProjectRecord>): string {
    if Get(projects, "lttng-ust").Some? && Contains(Get(projects, "lttng-ust").value.configure, "--enable-java-agent")
    then "1" else "0"
  }

  /** The activation as _create_activate computes it, reserved names compared before the keys are stripped. */
  function ActivationAsWritten(p: Profile, paths: Paths, quote: string -> string, dictText: Dict<Node> -> string)
    : Result<Activation, Error>
  {
    var env :- ExportedAsWritten(p.virtEnv, paths, quote, dictText);
    Ok(Activation(quote(paths.venv), HasModules(p.projects), HasJava(p.projects),
                  EnvItems(env, quote, dictText), UnenvItems(env)))
  }

  /** The reserved names are words: no blank at either end. */
  lemma ReservedKeysAreWords(k: string)
    requires k in ReservedKeys
    ensures k != [] && 'A' <= k[0] <= 'Z' && !IsSpace(k[|k| - 1])
  {
  }

  /** A key with a blank in front is not reserved: the delete loop lets it through. */
  lemma PaddedKeyKept(k: string, v: string, paths: Paths, quote: string -> string, dictText: Dict<Node> -> string)
    requires k in ReservedKeys
    ensures ExportedAsWritten(Mapping([(" " + k, Str(v))]), paths, quote, dictText) == Ok([(" " + k, Str(v))])
  {
    var d := [(" " + k, Str(v))];
    forall r | r in ReservedKeys ensures r != " " + k {
      ReservedKeysAreWords(r);
      assert (" " + k)[0] == ' ';
    }
    assert Without(d, ReservedKeys) == d;
    PaddedKeyPatches(k, v, paths, quote, dictText);
    ExportedAsWrittenIsVirtEnv(Mapping(d), paths, quote, dictText);
  }

  /** A virt-env holding one padded key patches without error. */
  lemma PaddedKeyPatches(k: string, v: string, paths: Paths, quote: string -> string, dictText: Dict<Node> -> string)
    ensures Patched([(" " + k, Str(v))], paths, quote, dictText).Ok?
  {
    var d := [(" " + k, Str(v))];
    assert Get(d, "CPPFLAGS").None? && Get(d, "LDFLAGS").None? by {
      assert Keys(d) == [" " + k];
      assert (" " + k)[0] == ' ';
    }
    PatchedWithOk(d, paths.Bin(), paths.Include(), paths.Lib(), paths.PkgConfig(), quote, dictText);
  }

  /**
   * A virt-env key with a blank in front is not a reserved key when the
   * reserved keys are removed, but it is exported stripped: " PATH"
   * overrides PATH in the activated shell.
   */
  lemma ReservedKeyLeaks(k: string, v: string, paths: Paths, quote: string -> string, dictText: Dict<Node> -> string)
    requires k in ReservedKeys
    ensures ActivationAsWritten(Profile(Mapping([(" " + k, Str(v))]), Mapping([]), []), paths, quote, dictText)
            == Ok(Activation(quote(paths.venv), "0", "0",
                             [SaveLine(k), ExportLine(k, quote(v))], [RestoreLine(k), UnsetLine(k)]))
  {
    PaddedKeyKept(k, v, paths, quote, dictText);
    PaddedKeyItems(k, v, quote, dictText);
  }

  /** The lines for a single entry whose key is a reserved name with a blank in front. */
  lemma PaddedKeyItems(k: string, v: string, quote: string -> string, dictText: Dict<Node> -> string)
    requires k in ReservedKeys
    ensures EnvItems([(" " + k, Str(v))], quote, dictText) == [SaveLine(k), ExportLine(k, quote(v))]
    ensures UnenvItems([(" " + k, Str(v))]) == [RestoreLine(k), UnsetLine(k)]
  {
    var d := [(" " + k, Str(v))];
    ReservedKeysAreWords(k);
    StripLeadingBlank(k);
    assert d[..0] == [];
  }

  // ---- The activation environment, reserved names compared once stripped ------------------

  /** The entries of d whose stripped key is not one of ks, in order. */
  function WithoutStripped(d: Dict<Node>, ks: seq<string>): (r: Dict<Node>)
    ensures forall e :: e in r <==> e in d && Strip(e.0) !in ks
  {
    if d == [] then []
    else if Strip(d[0].0) in ks then WithoutStripped(d[1..], ks)
    else [d[0]] + WithoutStripped(d[1..], ks)
  }

  /** Each reserved name is its own strip. */
  lemma ReservedStripped()
    ensures forall k :: k in ReservedKeys ==> Strip(k) == k
  {
    forall k | k in ReservedKeys ensures Strip(k) == k {
      ReservedKeysAreWords(k);
      StripUnpadded(k);
    }
  }

  /** When the names in ks are their own strip, deleting them first changes nothing for the stripped filter. */
  lemma {:induction false} WithoutStrippedWithout(d: Dict<Node>, ks: seq<string>)
    requires forall k :: k in ks ==> Strip(k) == k
    ensures WithoutStripped(Without(d, ks), ks) == WithoutStripped(d, ks)
  {
    if d != [] {
      WithoutStrippedWithout(d[1..], ks);
      if d[0].0 !in ks {
        var t := Without(d[1..], ks);
        assert Without(d, ks) == [d[0]] + t;
        assert ([d[0]] + t)[0] == d[0] && ([d[0]] + t)[1..] == t;
      }
    }
  }

  /**
   * The entries the activation script exports, as the comment of
   * _create_activate intends: after the delete loop, every entry whose
   * stripped key is reserved is dropped as well.
   */
  function ActivationEnv(virtEnv: Node, paths: Paths, quote: string -> string, dictText: Dict<Node> -> string)
    : Result<Dict<Node>, Error>
  {
    if !virtEnv.Mapping? then Err(AttributeError)
    else
      var env :- Patched(virtEnv.entries, paths, quote, dictText);
      Ok(WithoutStripped(Without(env, ReservedKeys), ReservedKeys))
  }

  /**
   * What is exported is the virt-env itself without the entries whose
   * stripped key is reserved, in order: no exported key names a reserved
   * variable.
   */
  lemma ActivationEnvIsVirtEnv(virtEnv: Node, paths: Paths, quote: string -> string, dictText: Dict<Node> -> string)
    requires ActivationEnv(virtEnv, paths, quote, dictText).Ok?
    ensures ActivationEnv(virtEnv, paths, quote, dictText).value == WithoutStripped(virtEnv.entries, ReservedKeys)
    ensures forall i :: 0 <= i < |ActivationEnv(virtEnv, paths, quote, dictText).value| ==>
              Strip(ActivationEnv(virtEnv, paths, quote, dictText).value[i].0) !in ReservedKeys
  {
    ReservedStripped();
    ExportedAsWrittenIsVirtEnv(virtEnv, paths, quote, dictText);
    WithoutStrippedWithout(virtEnv.entries, ReservedKeys);
    var r := ActivationEnv(virtEnv, paths, quote, dictText).value;
    forall i | 0 <= i < |r| ensures Strip(r[i].0) !in ReservedKeys {
      assert r[i] in r;
    }
  }

  /** The second filter: every entry whose stripped key is one of ks dropped, the order kept. */
  method DropStripped(env: Dict<Node>, ks: seq<string>) returns (kept: Dict<Node>)
    ensures kept == WithoutStripped(env, ks)
  {
    kept := [];
    var j := 0;
    while j < |env|
      invariant 0 <= j <= |env|
      invariant kept + WithoutStripped(env[j..], ks) == WithoutStripped(env, ks)
    {
      assert env[j..][0] == env[j] && env[j..][1..] == env[j + 1..];
      if Strip(env[j].0) !in ks {
        assert kept + WithoutStripped(env[j..], ks) == (kept + [env[j]]) + WithoutStripped(env[j + 1..], ks);
        kept := kept + [env[j]];
      }
      j := j + 1;
    }
    assert env[j..] == [];
  }

  /** The activation this model uses: the flags, and the lines for the entries ActivationEnv keeps. */
  function ActivationOf(p: Profile, paths: Paths, quote: string -> string, dictText: Dict<Node> -> string)
    : Result<Activation, Error>
  {
    var env :- ActivationEnv(p.virtEnv, paths, quote, dictText);
    Ok(Activation(quote(paths.venv), HasModules(p.projects), HasJava(p.projects),
                  EnvItems(env, quote, dictText), UnenvItems(env)))
  }

  /** The two flags of the activation script, and where its failures come from. */
  lemma ActivationFlags(p: Profile, paths: Paths, quote: string -> string, dictText: Dict<Node> -> string)
    ensures ActivationOf(p, paths, quote, dictText).Ok? <==> ActivationEnv(p.virtEnv, paths, quote, dictText).Ok?
    ensures ActivationOf(p, paths, quote, dictText).Err? ==>
              ActivationOf(p, paths, quote, dictText).error == ActivationEnv(p.virtEnv, paths, quote, dictText).error
    ensures ActivationOf(p, paths, quote, dictText).Ok? ==>
              var a := ActivationOf(p, paths, quote, dictText).value;
              && a.venvPath == quote(paths.venv)
              && a.hasModules in {"0", "1"} && a.hasJava in {"0", "1"}
              && (a.hasModules == "1" <==> "lttng-modules" in Keys(p.projects))
              && (a.hasJava == "1" <==> "lttng-ust" in Keys(p.projects) &&
                                        Contains(Get(p.projects, "lttng-ust").value.configure, "--enable-java-agent"))
  {
  }

  /**
   * The lines of the activation script: for each virt-env entry whose
   * stripped key is not reserved, in order, a save and an export line, and
   * a restore and an unset line, all under the stripped key.
   */
  lemma ActivationLines(p: Profile, paths: Paths, quote: string -> string, dictText: Dict<Node> -> string)
    requires ActivationOf(p, paths, quote, dictText).Ok?
    ensures p.virtEnv.Mapping?
    ensures var a := ActivationOf(p, paths, quote, dictText).value;
            var d := WithoutStripped(p.virtEnv.entries, ReservedKeys);
            && |a.envItems| == 2 * |d| && |a.unenvItems| == 2 * |d|
            && forall i :: 0 <= i < |d| ==>
                 && Strip(d[i].0) !in ReservedKeys
                 && a.envItems[2 * i] == SaveLine(Strip(d[i].0))
                 && a.envItems[2 * i + 1] == ExportLine(Strip(d[i].0), quote(PyStr(d[i].1, dictText)))
                 && a.unenvItems[2 * i] == RestoreLine(Strip(d[i].0))
                 && a.unenvItems[2 * i + 1] == UnsetLine(Strip(d[i].0))
  {
    ActivationEnvIsVirtEnv(p.virtEnv, paths, quote, dictText);
    var d := WithoutStripped(p.virtEnv.entries, ReservedKeys);
    EnvItemsShape(d, quote, dictText);
    UnenvItemsShape(d);
  }

  /** The padded key of ReservedKeyLeaks is no longer exported. */
  lemma PaddedKeyDropped(k: string, v: string, paths: Paths, quote: string -> string, dictText: Dict<Node> -> string)
    requires k in ReservedKeys
    ensures ActivationOf(Profile(Mapping([(" " + k, Str(v))]), Mapping([]), []), paths, quote, dictText)
            == Ok(Activation(quote(paths.venv), "0", "0", [], []))
  {
    PaddedKeyFiltered(k, v, paths, quote, dictText);
    var e: Dict<Node> := [];
    assert EnvItems(e, quote, dictText) == [] && UnenvItems(e) == [];
  }

  /** The padded key is filtered out of the activation environment. */
  lemma PaddedKeyFiltered(k: string, v: string, paths: Paths, quote: string -> string, dictText: Dict<Node> -> string)
    requires k in ReservedKeys
    ensures ActivationEnv(Mapping([(" " + k, Str(v))]), paths, quote, dictText) == Ok([])
  {
    PaddedKeyPatches(k, v, paths, quote, dictText);
    ActivationEnvIsVirtEnv(Mapping([(" " + k, Str(v))]), paths, quote, dictText);
    PaddedKeyStripped(k, v);
  }

  /** Once stripped, the padded key is the reserved name. */
  lemma PaddedKeyStripped(k: string, v: string)
    requires k in ReservedKeys
    ensures WithoutStripped([(" " + k, Str(v))], ReservedKeys) == []
  {
    var d := [(" " + k, Str(v))];
    ReservedKeysAreWords(k);
    StripLeadingBlank(k);
    assert d[1..] == [];
  }


  // ---- Build order -------------------------------------------------------------------------

  /** How a project is built. */
  datatype Build =
    | ConfigureMakeInstall(args: string)  // ./configure with args, make, make install
    | KernelModules                       // make, make modules_install, depmod
    | SetupPy                             // ./setup.py install
    | CopyTarball                         // Trace Compass from a tarball: copied into opt
    | MavenThenCopy                       // Trace Compass from git: built with maven, then copied

  /** One project built: its name, the directory the build runs in, its environment, and how. */
  datatype BuildStep = BuildStep(name: string, dir: string, env: Node, build: Build)

  /** The build functions _create hands to _build_project. */
  datatype Builder = Configure(addArgs: Option<string>) | Modules | Analyses | TraceCompass

  const BuildOrder: seq<string> := ["urcu", "lttng-ust", "libxml2", "lttng-tools", "lttng-modules",
                                    "glib", "elfutils", "babeltrace", "lttng-analyses", "tracecompass"]

  /** The configure arguments of _configure_make_install: the project's, then the extra ones after a space. */
  function ConfigureArgs(configure: string, addArgs: Option<string>): (r: string)
    ensures StartsWith(r, configure)
    ensures addArgs.Some? ==> EndsWith(r, " " + addArgs.value)
    ensures addArgs.None? ==> r == configure
  {
    match addArgs
    case None => configure
    case Some(a) =>
      var r := configure + " " + a;
      assert r[..|configure|] == configure;
      assert r[|r| - |" " + a|..] == " " + a;
      r
  }

  /** _build_lttng_tools: where lttng-tools finds LTTng-UST, if it is built at all. */
  function ToolsAddArgs(projects: Dict<ProjectRecord>, paths: Paths, quote: string -> string): string {
    if Get(projects, "lttng-ust").Some? then "--with-lttng-ust-prefix=" + quote(paths.Usr()) else "--without-lttng-ust"
  }

  /** What a build function does with a project. */
  function Run(b: Builder, p: ProjectRecord): Build {
    match b
    case Configure(a) => ConfigureMakeInstall(ConfigureArgs(p.configure, a))
    case Modules => KernelModules
    case Analyses => SetupPy
    case TraceCompass => if p.source.HttpFtpSource? then CopyTarball else MavenThenCopy
  }

  /** _build_project: nothing for an absent project. */
  function StepOf(name: string, b: Builder, projects: Dict<ProjectRecord>, paths: Paths): seq<BuildStep> {
    match Get(projects, name)
    case None => []
    case Some(p) => [BuildStep(name, paths.ProjectSrc(p.name), p.buildEnv, Run(b, p))]
  }

  /** The build functions of _create, one per entry of BuildOrder. */
  function Builders(projects: Dict<ProjectRecord>, paths: Paths, quote: string -> string): seq<Builder> {
    [Configure(None), Configure(None), Configure(None), Configure(Some(ToolsAddArgs(projects, paths, quote))), Modules,
     Configure(None), Configure(None), Configure(None), Analyses, TraceCompass]
  }

  /** The steps for names[..n], each name with the build function of the same index. */
  function StepsUpTo(names: seq<string>, bs: seq<Builder>, projects: Dict<ProjectRecord>, paths: Paths, n: nat)
    : seq<BuildStep>
    requires |bs| == |names| && n <= |names|
  {
    if n == 0 then [] else StepsUpTo(names, bs, projects, paths, n - 1) + StepOf(names[n - 1], bs[n - 1], projects, paths)
  }

  /** Every step _create takes, in order. */
  function Plan(projects: Dict<ProjectRecord>, paths: Paths, quote: string -> string): seq<BuildStep> {
    StepsUpTo(BuildOrder, Builders(projects, paths, quote), projects, paths, |BuildOrder|)
  }

  /** The entries of names[..n] that are projects, in order. */
  function Present(names: seq<string>, projects: Dict<ProjectRecord>, n: nat): seq<string>
    requires n <= |names|
  {
    if n == 0 then []
    else Present(names, projects, n - 1) + (if Get(projects, names[n - 1]).Some? then [names[n - 1]] else [])
  }

  function StepNames(steps: seq<BuildStep>): seq<string> {
    seq(|steps|, i requires 0 <= i < |steps| => steps[i].name)
  }

  /** The steps name exactly the present projects, in the order of the list. */
  lemma {:induction false} StepsUpToNames(names: seq<string>, bs: seq<Builder>, projects: Dict<ProjectRecord>,
                                          paths: Paths, n: nat)
    requires |bs| == |names| && n <= |names|
    ensures StepNames(StepsUpTo(names, bs, projects, paths, n)) == Present(names, projects, n)
  {
    if n > 0 {
      StepsUpToNames(names, bs, projects, paths, n - 1);
      var init := StepsUpTo(names, bs, projects, paths, n - 1);
      var last := StepOf(names[n - 1], bs[n - 1], projects, paths);
      StepNamesAppend(init, last);
      StepOfName(names[n - 1], bs[n - 1], projects, paths);
    }
  }

  lemma StepNamesAppend(a: seq<BuildStep>, b: seq<BuildStep>)
    ensures StepNames(a + b) == StepNames(a) + StepNames(b)
  {
    forall i | 0 <= i < |a + b| ensures StepNames(a + b)[i] == (StepNames(a) + StepNames(b))[i] {
      if i < |a| {
        assert (a + b)[i] == a[i];
      } else {
        assert (a + b)[i] == b[i - |a|];
      }
    }
  }

  lemma StepOfName(name: string, b: Builder, projects: Dict<ProjectRecord>, paths: Paths)
    ensures StepNames(StepOf(name, b, projects, paths)) == if Get(projects, name).Some? then [name] else []
  {
    if Get(projects, name).Some? {
      assert StepNames(StepOf(name, b, projects, paths))[0] == name;
    }
  }

  /** A present name occurs in Present, and nothing else does. */
  lemma {:induction false} PresentMembers(names: seq<string>, projects: Dict<ProjectRecord>, n: nat)
    requires n <= |names|
    ensures forall x :: x in Present(names, projects, n) <==> x in names[..n] && Get(projects, x).Some?
  {
    if n > 0 {
      PresentMembers(names, projects, n - 1);
      assert names[..n] == names[..n - 1] + [names[n - 1]];
    }
  }

  /** Distinct names stay distinct once the absent ones are dropped. */
  lemma {:induction false} PresentDistinct(names: seq<string>, projects: Dict<ProjectRecord>, n: nat)
    requires n <= |names|
    requires forall i, j :: 0 <= i < j < |names| ==> names[i] != names[j]
    ensures forall i, j :: 0 <= i < j < |Present(names, projects, n)| ==>
              Present(names, projects, n)[i] != Present(names, projects, n)[j]
  {
    if n > 0 {
      PresentDistinct(names, projects, n - 1);
      PresentMembers(names, projects, n - 1);
      var init := Present(names, projects, n - 1);
      var r := Present(names, projects, n);
      assert names[n - 1] !in names[..n - 1];
      assert names[n - 1] !in init;
      forall i, j | 0 <= i < j < |r| ensures r[i] != r[j] {
        if j < |init| {
          assert r[i] == init[i] && r[j] == init[j];
        } else {
          assert r[j] == names[n - 1];
          assert r[i] == init[i] && init[i] in init;
        }
      }
    }
  }

  lemma BuildOrderDistinct()
    ensures forall i, j :: 0 <= i < j < |BuildOrder| ==> BuildOrder[i] != BuildOrder[j]
  {
    forall i, j | 0 <= i < j < |BuildOrder| ensures BuildOrder[i] != BuildOrder[j] {
      if |BuildOrder[i]| == |BuildOrder[j]| {
        assert BuildOrder[i][0] != BuildOrder[j][0];
      }
    }
  }

  /**
   * _create builds the projects of the profile that appear in the fixed
   * order, in that order, each once; popt is never built.
   */
  lemma PlanOrder(projects: Dict<ProjectRecord>, paths: Paths, quote: string -> string)
    ensures StepNames(Plan(projects, paths, quote)) == Present(BuildOrder, projects, |BuildOrder|)
    ensures forall x :: x in StepNames(Plan(projects, paths, quote)) <==> x in BuildOrder && Get(projects, x).Some?
    ensures var names := StepNames(Plan(projects, paths, quote));
            forall i, j :: 0 <= i < j < |names| ==> names[i] != names[j]
    ensures "popt" !in StepNames(Plan(projects, paths, quote))
  {
    StepsUpToNames(BuildOrder, Builders(projects, paths, quote), projects, paths, |BuildOrder|);
    PresentMembers(BuildOrder, projects, |BuildOrder|);
    assert BuildOrder[..|BuildOrder|] == BuildOrder;
    BuildOrderDistinct();
    PresentDistinct(BuildOrder, projects, |BuildOrder|);
    PoptNotBuilt();
  }

  lemma PoptNotBuilt()
    ensures "popt" !in BuildOrder
  {
    forall i | 0 <= i < |BuildOrder| ensures BuildOrder[i] != "popt" {
      assert BuildOrder[i][0] != 'p';
    }
  }

  /** The steps of a present name carry its project, built the way its build function says. */
  lemma {:induction false} StepsUpToContent(names: seq<string>, bs: seq<Builder>, projects: Dict<ProjectRecord>,
                                            paths: Paths, n: nat, s: BuildStep)
    requires |bs| == |names| && n <= |names|
    requires s in StepsUpTo(names, bs, projects, paths, n)
    ensures exists j :: 0 <= j < n && s.name == names[j] && Get(projects, names[j]).Some? &&
              s == StepOf(names[j], bs[j], projects, paths)[0]
  {
    if s !in StepOf(names[n - 1], bs[n - 1], projects, paths) {
      StepsUpToContent(names, bs, projects, paths, n - 1, s);
    }
  }

  /** Every step runs in its project's source directory, with its project's build environment. */
  lemma StepOfProject(projects: Dict<ProjectRecord>, paths: Paths, quote: string -> string, s: BuildStep)
    returns (j: nat)
    requires s in Plan(projects, paths, quote)
    ensures j < |BuildOrder| && s.name == BuildOrder[j] && Get(projects, s.name).Some?
    ensures s == StepOf(s.name, Builders(projects, paths, quote)[j], projects, paths)[0]
    ensures s.dir == paths.ProjectSrc(Get(projects, s.name).value.name)
    ensures s.env == Get(projects, s.name).value.buildEnv
  {
    var bs := Builders(projects, paths, quote);
    StepsUpToContent(BuildOrder, bs, projects, paths, |BuildOrder|, s);
    j :| 0 <= j < |BuildOrder| && s.name == BuildOrder[j] && Get(projects, BuildOrder[j]).Some? &&
         s == StepOf(BuildOrder[j], bs[j], projects, paths)[0];
  }

  /** lttng-tools is configured with its own options and then, after a space, the LTTng-UST choice. */
  lemma ToolsStep(projects: Dict<ProjectRecord>, paths: Paths, quote: string -> string, s: BuildStep)
    requires s in Plan(projects, paths, quote) && s.name == "lttng-tools" && Get(projects, "lttng-tools").Some?
    ensures s.build == ConfigureMakeInstall(Get(projects, "lttng-tools").value.configure + " " +
                                            (if Get(projects, "lttng-ust").Some?
                                             then "--with-lttng-ust-prefix=" + quote(paths.Usr())
                                             else "--without-lttng-ust"))
  {
    var j := StepOfProject(projects, paths, quote, s);
    assert forall i :: 0 <= i < |BuildOrder| && i != 3 ==> |BuildOrder[i]| != |"lttng-tools"|;
    assert j == 3;
  }

  /** Trace Compass from a tarball is copied in place; from git it is built with maven first. */
  lemma TraceCompassStep(projects: Dict<ProjectRecord>, paths: Paths, quote: string -> string, s: BuildStep)
    requires s in Plan(projects, paths, quote) && s.name == "tracecompass" && Get(projects, "tracecompass").Some?
    ensures s.build == if Get(projects, "tracecompass").value.source.HttpFtpSource? then CopyTarball else MavenThenCopy
  {
    var j := StepOfProject(projects, paths, quote, s);
    assert forall i :: 0 <= i < |BuildOrder| && i != 9 ==> |BuildOrder[i]| != |"tracecompass"|;
    assert j == 9;
  }

  // ---- VEnvCreator -----------------------------------------------------------------------

  // ---- Filling the activation template --------------------------------------------------------

  /** The replacement fields of the activation template. */
  datatype Field = HasModulesField | HasJavaField | HasLttngScopeField | VenvPathField | EnvField | UnenvField

  /** A field's name, as written between braces in the template. */
  function FieldName(f: Field): string {
    match f
    case HasModulesField => "has_modules"
    case HasJavaField => "has_java"
    case HasLttngScopeField => "has_lttng_scope"
    case VenvPathField => "venv_path"
    case EnvField => "env"
    case UnenvField => "unenv"
  }

  /** The fields of the activation template, in the order they appear in it. */
  const TemplateFields: seq<Field> := [HasModulesField, HasJavaField, HasLttngScopeField, VenvPathField, EnvField, UnenvField]

  /**
   * str.format with keyword arguments, on the template's fields: the value
   * of each field in turn, or KeyError for the first field no keyword names.
   */
  function Fill(fields: seq<Field>, kwargs: map<Field, string>): (r: Result<seq<string>, Error>)
    ensures r.Ok? <==> forall i :: 0 <= i < |fields| ==> fields[i] in kwargs
    ensures r.Ok? ==> |r.value| == |fields| && forall i :: 0 <= i < |fields| ==> kwargs[fields[i]] == r.value[i]
    ensures r.Err? ==> exists i :: 0 <= i < |fields| && fields[i] !in kwargs && r.error == KeyError(FieldName(fields[i]))
                                   && forall j :: 0 <= j < i ==> fields[j] in kwargs
  {
    if fields == [] then Ok([])
    else if fields[0] !in kwargs then Err(KeyError(FieldName(fields[0])))
    else
      var rest :- Fill(fields[1..], kwargs);
      assert forall i :: 1 <= i < |fields| ==> fields[i] == fields[1..][i - 1];
      Ok([kwargs[fields[0]]] + rest)
  }

  /** The keyword arguments _create_activate passes to format: no has_lttng_scope among them. */
  function WrittenKeywords(a: Activation): map<Field, string> {
    map[VenvPathField := a.venvPath, HasModulesField := a.hasModules, HasJavaField := a.hasJava,
        EnvField := Join(a.envItems, '\n'), UnenvField := Join(a.unenvItems, '\n')]
  }

  /**
   * The keywords with the missing field supplied.  lttng-scope is none of
   * the projects a profile may name, so its flag is always 0.
   */
  function Keywords(a: Activation): map<Field, string> {
    WrittenKeywords(a)[HasLttngScopeField := "0"]
  }

  /** The filled template as _create_activate formats it: the activation, then format. */
  function ScriptAsWritten(p: Profile, paths: Paths, quote: string -> string, dictText: Dict<Node> -> string)
    : Result<seq<string>, Error>
  {
    var a :- ActivationAsWritten(p, paths, quote, dictText);
    Fill(TemplateFields, WrittenKeywords(a))
  }

  /** The five keywords leave has_lttng_scope unfilled: format raises KeyError for it. */
  lemma WrittenKeywordsRaise(a: Activation)
    ensures Fill(TemplateFields, WrittenKeywords(a)) == Err(KeyError("has_lttng_scope"))
  {
    var kw := WrittenKeywords(a);
    assert TemplateFields[2] !in kw;
    var r := Fill(TemplateFields, kw);
    assert r.Err?;
    var i :| 0 <= i < 6 && TemplateFields[i] !in kw && r.error == KeyError(FieldName(TemplateFields[i]))
             && forall j :: 0 <= j < i ==> TemplateFields[j] in kw;
    assert TemplateFields[0] in kw && TemplateFields[1] in kw;
    assert i == 2;
  }

  /** With has_lttng_scope among the keywords, every field is filled with its value. */
  lemma KeywordsFill(a: Activation)
    ensures Fill(TemplateFields, Keywords(a))
            == Ok([a.hasModules, a.hasJava, "0", a.venvPath, Join(a.envItems, '\n'), Join(a.unenvItems, '\n')])
  {
    var kw := Keywords(a);
    var want := [a.hasModules, a.hasJava, "0", a.venvPath, Join(a.envItems, '\n'), Join(a.unenvItems, '\n')];
    assert forall i :: 0 <= i < 6 ==> TemplateFields[i] in kw && kw[TemplateFields[i]] == want[i];
    var r := Fill(TemplateFields, kw);
    assert r.Ok?;
    assert |r.value| == |want| && forall i :: 0 <= i < 6 ==> r.value[i] == want[i];
    assert r.value == want;
  }

  /**
   * As written, no activation script is ever produced: whenever the
   * activation itself succeeds, format raises KeyError('has_lttng_scope').
   */
  lemma ScriptAsWrittenRaises(p: Profile, paths: Paths, quote: string -> string, dictText: Dict<Node> -> string)
    ensures ScriptAsWritten(p, paths, quote, dictText).Err?
    ensures ActivationAsWritten(p, paths, quote, dictText).Ok? ==>
              ScriptAsWritten(p, paths, quote, dictText) == Err(KeyError("has_lttng_scope"))
  {
    var a := ActivationAsWritten(p, paths, quote, dictText);
    if a.Ok? {
      WrittenKeywordsRaise(a.value);
    }
  }

  /** The filled template with the missing keyword supplied. */
  function Script(p: Profile, paths: Paths, quote: string -> string, dictText: Dict<Node> -> string)
    : Result<seq<string>, Error>
  {
    var a :- ActivationOf(p, paths, quote, dictText);
    Fill(TemplateFields, Keywords(a))
  }

  /**
   * With has_lttng_scope supplied, format never raises: the script fails
   * exactly when the activation does, and fills each field with its value.
   */
  lemma ScriptFilled(p: Profile, paths: Paths, quote: string -> string, dictText: Dict<Node> -> string)
    ensures Script(p, paths, quote, dictText).Ok? <==> ActivationOf(p, paths, quote, dictText).Ok?
    ensures ActivationOf(p, paths, quote, dictText).Err? ==>
              Script(p, paths, quote, dictText) == Err(ActivationOf(p, paths, quote, dictText).error)
    ensures ActivationOf(p, paths, quote, dictText).Ok? ==>
              var a := ActivationOf(p, paths, quote, dictText).value;
              Script(p, paths, quote, dictText)
              == Ok([a.hasModules, a.hasJava, "0", a.venvPath, Join(a.envItems, '\n'), Join(a.unenvItems, '\n')])
  {
    var a := ActivationOf(p, paths, quote, dictText);
    if a.Ok? {
      KeywordsFill(a.value);
    }
  }

  class VEnvCreator {
    const paths: Paths
    const quote: string -> string          // shlex.quote
    const dictText: Dict<Node> -> string   // str() of a mapping
    var profile: Profile
    var steps: seq<BuildStep>
    var activation: Option<Result<Activation, Error>>
    var script: Option<Result<seq<string>, Error>>   // the filled activate template

    /** VEnvCreator.__init__: the profile checked, every project built, the activation script made. */
    constructor (venv: string, profile: Profile, quote: string -> string, dictText: Dict<Node> -> string)
      ensures this.paths == Paths(venv) && this.quote == quote && this.dictText == dictText
      ensures this.profile == Injected(profile)
      ensures steps == Plan(this.profile.projects, this.paths, quote)
      ensures activation == Some(ActivationOf(this.profile, this.paths, quote, dictText))
      ensures script == Some(Script(this.profile, this.paths, quote, dictText))
    {
      this.paths := Paths(venv);
      this.quote := quote;
      this.dictText := dictText;
      this.profile := profile;
      steps := [];
      activation := None;
      script := None;
      new;
      Create();
    }

    /** _validate_profile: turns on babeltrace's Python bindings when lttng-analyses needs them. */
    method ValidateProfile()
      modifies this
      ensures profile == Injected(old(profile))
      ensures steps == old(steps) && activation == old(activation) && script == old(script)
    {
      var projects := profile.projects;
      if Get(projects, "lttng-analyses").Some? && Get(projects, "babeltrace").Some? {
        var bt := Get(projects, "babeltrace").value;
        if !Contains(bt.configure, Bindings) {
          var configure := bt.configure;
          configure := RemoveAll(configure, "--disable-python-bindings");
          configure := RemoveAll(configure, "--enable-python-bindings=no");
          configure := configure + " " + Bindings;
          profile := profile.(projects := Set(projects, "babeltrace", bt.(configure := configure)));
        }
      }
    }

    /** _build_project: one step for a present project, none for an absent one. */
    method BuildProject(name: string, b: Builder)
      modifies this
      ensures steps == old(steps) + StepOf(name, b, profile.projects, paths)
      ensures profile == old(profile) && activation == old(activation) && script == old(script)
    {
      var project := Get(profile.projects, name);
      if project.None? {
        return;
      }
      var p := project.value;
      steps := steps + [BuildStep(name, paths.ProjectSrc(p.name), p.buildEnv, Run(b, p))];
    }

    /** _build_lttng_tools. */
    method BuildLttngTools()
      modifies this
      ensures steps == old(steps) + StepOf("lttng-tools", Configure(Some(ToolsAddArgs(profile.projects, paths, quote))),
                                           profile.projects, paths)
      ensures profile == old(profile) && activation == old(activation) && script == old(script)
    {
      if Get(profile.projects, "lttng-tools").None? {
        return;
      }
      var addArgs;
      if Get(profile.projects, "lttng-ust").Some? {
        addArgs := "--with-lttng-ust-prefix=" + quote(paths.Usr());
      } else {
        addArgs := "--without-lttng-ust";
      }
      BuildProject("lttng-tools", Configure(Some(addArgs)));
    }

    /**
     * _create_activate: the patched virt-env filtered, two lines per entry
     * each way, and the template filled with has_lttng_scope supplied.
     */
    method CreateActivate()
      modifies this
      ensures activation == Some(ActivationOf(profile, paths, quote, dictText))
      ensures script == Some(Script(profile, paths, quote, dictText))
      ensures profile == old(profile) && steps == old(steps)
    {
      if !profile.virtEnv.Mapping? {
        activation := Some(Err(AttributeError));
        script := Some(Err(AttributeError));
        return;
      }
      var patched := PatchEnv(profile.virtEnv.entries, paths, quote, dictText);
      if patched.Err? {
        activation := Some(Err(patched.error));
        script := Some(Err(patched.error));
        return;
      }
      var env := RemoveKeys(patched.value, ReservedKeys);
      env := DropStripped(env, ReservedKeys);
      var envItems, unenvItems := ActivationItems(env, quote, dictText);
      var hasModules := if Get(profile.projects, "lttng-modules").Some? then "1" else "0";
      var hasJava := "0";
      if Get(profile.projects, "lttng-ust").Some? {
        if Contains(Get(profile.projects, "lttng-ust").value.configure, "--enable-java-agent") {
          hasJava := "1";
        }
      }
      var a := Activation(quote(paths.venv), hasModules, hasJava, envItems, unenvItems);
      activation := Some(Ok(a));
      script := Some(Fill(TemplateFields, Keywords(a)));
    }

    /** The builds of _create, in their fixed order. */
    method BuildAll()
      modifies this
      ensures steps == old(steps) + Plan(profile.projects, paths, quote)
      ensures profile == old(profile) && activation == old(activation) && script == old(script)
    {
      BuildUserSpace(steps);
      BuildTracers(old(steps));
      BuildTools(old(steps));
    }

    /** URCU, LTTng-UST and libxml2. */
    method BuildUserSpace(ghost steps0: seq<BuildStep>)
      modifies this
      requires steps == steps0
      ensures steps == steps0 + StepsUpTo(BuildOrder, Builders(profile.projects, paths, quote), profile.projects, paths, 3)
      ensures profile == old(profile) && activation == old(activation) && script == old(script)
    {
      BuildProject("urcu", Configure(None));
      BuildProject("lttng-ust", Configure(None));
      BuildProject("libxml2", Configure(None));
      UserSpaceSteps(steps0, profile.projects, paths, quote);
    }

    /** LTTng-tools and LTTng-modules. */
    method BuildTracers(ghost steps0: seq<BuildStep>)
      modifies this
      requires steps == steps0 + StepsUpTo(BuildOrder, Builders(profile.projects, paths, quote), profile.projects, paths, 3)
      ensures steps == steps0 + StepsUpTo(BuildOrder, Builders(profile.projects, paths, quote), profile.projects, paths, 5)
      ensures profile == old(profile) && activation == old(activation) && script == old(script)
    {
      BuildLttngTools();
      BuildProject("lttng-modules", Modules);
      TracerSteps(steps0, profile.projects, paths, quote);
    }

    /** GLib, elfutils, Babeltrace, LTTng-analyses and Trace Compass. */
    method BuildTools(ghost steps0: seq<BuildStep>)
      modifies this
      requires steps == steps0 + StepsUpTo(BuildOrder, Builders(profile.projects, paths, quote), profile.projects, paths, 5)
      ensures steps == steps0 + Plan(profile.projects, paths, quote)
      ensures profile == old(profile) && activation == old(activation) && script == old(script)
    {
      BuildProject("glib", Configure(None));
      BuildProject("elfutils", Configure(None));
      BuildProject("babeltrace", Configure(None));
      BuildProject("lttng-analyses", Analyses);
      BuildProject("tracecompass", TraceCompass);
      ToolSteps(steps0, profile.projects, paths, quote);
    }

    /** _create, without the directories, the downloads and the commands themselves. */
    method Create()
      modifies this
      ensures profile == Injected(old(profile))
      ensures steps == old(steps) + Plan(profile.projects, paths, quote)
      ensures activation == Some(ActivationOf(profile, paths, quote, dictText))
      ensures script == Some(Script(profile, paths, quote, dictText))
    {
      ValidateProfile();
      BuildAll();
      CreateActivate();
    }
  }

  /** One more name of the list adds its step after the earlier ones. */
  lemma StepsUpToNext(s0: seq<BuildStep>, names: seq<string>, bs: seq<Builder>, projects: Dict<ProjectRecord>,
                      paths: Paths, n: nat)
    requires |bs| == |names| && n < |names|
    ensures s0 + StepsUpTo(names, bs, projects, paths, n) + StepOf(names[n], bs[n], projects, paths)
            == s0 + StepsUpTo(names, bs, projects, paths, n + 1)
  {
  }

  /** The first three builds of _create, one after the other. */
  lemma UserSpaceSteps(s0: seq<BuildStep>, projects: Dict<ProjectRecord>, paths: Paths, quote: string -> string)
    ensures s0 + StepOf("urcu", Configure(None), projects, paths) + StepOf("lttng-ust", Configure(None), projects, paths)
            + StepOf("libxml2", Configure(None), projects, paths)
            == s0 + StepsUpTo(BuildOrder, Builders(projects, paths, quote), projects, paths, 3)
  {
    var bs := Builders(projects, paths, quote);
    assert StepsUpTo(BuildOrder, bs, projects, paths, 0) == [];
    StepsUpToNext(s0, BuildOrder, bs, projects, paths, 0);
    StepsUpToNext(s0, BuildOrder, bs, projects, paths, 1);
    StepsUpToNext(s0, BuildOrder, bs, projects, paths, 2);
  }

  /** The fourth and fifth builds of _create. */
  lemma TracerSteps(s0: seq<BuildStep>, projects: Dict<ProjectRecord>, paths: Paths, quote: string -> string)
    ensures var bs := Builders(projects, paths, quote);
            s0 + StepsUpTo(BuildOrder, bs, projects, paths, 3)
            + StepOf("lttng-tools", Configure(Some(ToolsAddArgs(projects, paths, quote))), projects, paths)
            + StepOf("lttng-modules", Modules, projects, paths)
            == s0 + StepsUpTo(BuildOrder, bs, projects, paths, 5)
  {
    var bs := Builders(projects, paths, quote);
    StepsUpToNext(s0, BuildOrder, bs, projects, paths, 3);
    StepsUpToNext(s0, BuildOrder, bs, projects, paths, 4);
  }

  /** The last five builds of _create. */
  lemma ToolSteps(s0: seq<BuildStep>, projects: Dict<ProjectRecord>, paths: Paths, quote: string -> string)
    ensures var bs := Builders(projects, paths, quote);
            s0 + StepsUpTo(BuildOrder, bs, projects, paths, 5)
            + StepOf("glib", Configure(None), projects, paths) + StepOf("elfutils", Configure(None), projects, paths)
            + StepOf("babeltrace", Configure(None), projects, paths)
            + StepOf("lttng-analyses", Analyses, projects, paths) + StepOf("tracecompass", TraceCompass, projects, paths)
            == s0 + Plan(projects, paths, quote)
  {
    var bs := Builders(projects, paths, quote);
    StepsUpToNext(s0, BuildOrder, bs, projects, paths, 5);
    StepsUpToNext(s0, BuildOrder, bs, projects, paths, 6);
    StepsUpToNext(s0, BuildOrder, bs, projects, paths, 7);
    StepsUpToNext(s0, BuildOrder, bs, projects, paths, 8);
    StepsUpToNext(s0, BuildOrder, bs, projects, paths, 9);
  }

  /** Deleting an absent key changes nothing. */
  lemma {:induction false} DelAbsent(d: Dict<Node>, k: string)
    requires Get(d, k).None?
    ensures Del(d, k) == d
  {
    if d != [] {
      assert Keys(d) == [d[0].0] + Keys(d[1..]);
      DelAbsent(d[1..], k);
    }
  }
}
