/** Locating files: `resource` looks a resource up first next to the
    program and then, on POSIX systems, in the system-wide resource folder;
    `home_folder` reads the home folder from the environment. The file
    system, `os.name`, `platform.system()` and `os.environ` are parameters. */
module Paths {
  import opened Wrappers

  /** The two values of `os.name` the program runs under. */
  datatype OsName = Posix | Nt

  /** The path separators `os.path` recognises. */
  predicate IsSep(os: OsName, c: char)
  {
    c == '/' || (os == Nt && c == '\\')
  }

  predicate NoSep(os: OsName, s: string)
  {
    forall i :: 0 <= i < |s| ==> !IsSep(os, s[i])
  }

  /** `os.path.join("resources", name)`. posixpath keeps an absolute `name`
      as it is; ntpath does the same for a name that starts with a
      separator or carries a drive (`C:...`). Otherwise `name` is put under
      "resources" with the platform's separator. */
  function LocalPath(os: OsName, name: string): (r: string)
    ensures |r| >= |name| && r[|r| - |name|..] == name
  {
    if name != [] && IsSep(os, name[0]) then name
    else if os == Nt && |name| > 1 && name[1] == ':' then name
    else if os == Posix then "resources/" + name
    else "resources\\" + name
  }

  const SystemResources := "/usr/share/opensesame/resources/"

  /** The text after the last separator of `p` (the whole of `p` when it
      has none). */
  function LastSegment(os: OsName, p: string): (r: string)
    ensures NoSep(os, r)
    ensures |r| <= |p| && r == p[|p| - |r|..]
    decreases |p|
  {
    if p == [] then []
    else if IsSep(os, p[|p| - 1]) then []
    else LastSegment(os, p[..|p| - 1]) + [p[|p| - 1]]
  }

  /** The part of `p` before its last segment. */
  function Parent(os: OsName, p: string): string
  {
    p[..|p| - |LastSegment(os, p)|]
  }

  /** misc.py's resource: the local path when it exists, else (on POSIX
      only) the system-wide path when that exists, else None. `existing`
      is the set of paths for which `os.path.exists` holds. */
  function Resource(os: OsName, name: string, existing: set<string>): (r: Option<string>)
    ensures r.Some? ==> r.value in existing
    ensures r.Some? ==> r.value == LocalPath(os, name) || (os == Posix && r.value == SystemResources + name)
    ensures LocalPath(os, name) in existing ==> r == Some(LocalPath(os, name))
    ensures r.None? <==>
              LocalPath(os, name) !in existing && (os != Posix || SystemResources + name !in existing)
  {
    if LocalPath(os, name) in existing then Some(LocalPath(os, name))
    else if os == Posix && SystemResources + name in existing then Some(SystemResources + name)
    else None
  }

  /** A segment followed by text without separators ends in that text. */
  lemma {:induction false} LastSegmentAfterSep(os: OsName, dir: string, name: string)
    requires dir != [] && IsSep(os, dir[|dir| - 1]) && NoSep(os, name)
    ensures LastSegment(os, dir + name) == name
    decreases |name|
  {
    if name == [] {
      assert dir + name == dir;
    } else {
      var p := dir + name;
      var init := name[..|name| - 1];
      var last := name[|name| - 1];
      assert p == (dir + init) + [last];
      assert p[..|p| - 1] == dir + init;
      assert NoSep(os, init);
      LastSegmentAfterSep(os, dir, init);
      assert !IsSep(os, last);
    }
  }

  /** A resource name without separators (and without a drive colon) is
      found as a file of that name directly inside "resources" or the
      system resource folder. */
  lemma ResourceNamesTheFile(os: OsName, name: string, existing: set<string>)
    requires NoSep(os, name) && ':' !in name && Resource(os, name, existing).Some?
    ensures var p := Resource(os, name, existing).value;
            LastSegment(os, p) == name &&
            Parent(os, p) in {"resources/", "resources\\", SystemResources}
  {
    var p := Resource(os, name, existing).value;
    if name != [] {
      assert !IsSep(os, name[0]);
    }
    if |name| > 1 {
      assert name[1] != ':';
    }
    var dir := if p == SystemResources + name then SystemResources
               else if os == Posix then "resources/" else "resources\\";
    assert p == dir + name;
    LastSegmentAfterSep(os, dir, name);
  }

  /** A name that is already absolute is used as given, under either
      system, whenever that path exists. */
  lemma ResourceAbsolute(os: OsName, name: string, existing: set<string>)
    requires name != [] && name[0] == '/' && name in existing
    ensures Resource(os, name, existing) == Some(name)
  {
  }

  /** On Windows the system-wide folder is never consulted. */
  lemma ResourceNtLocalOnly(name: string, existing: set<string>)
    ensures Resource(Nt, name, existing).Some? <==> LocalPath(Nt, name) in existing
  {
  }

  /** Which paths exist beyond the two candidates does not matter. */
  lemma ResourceReadsOnlyCandidates(os: OsName, name: string, e1: set<string>, e2: set<string>)
    requires LocalPath(os, name) in e1 <==> LocalPath(os, name) in e2
    requires SystemResources + name in e1 <==> SystemResources + name in e2
    ensures Resource(os, name, e1) == Resource(os, name, e2)
  {
  }

  // ---------------------------------------------------------------------
  // home_folder

  /** The home folder, and the diagnostic printed for an unknown platform. */
  datatype Home = Home(path: string, notice: Option<string>)

  /** The environment variable that holds the home folder. */
  function HomeVariable(system: string): string
  {
    if system == "Windows" then "USERPROFILE" else "HOME"
  }

  function UnknownPlatformNotice(system: string, home: string): string
  {
    "qtopensesame.__init__(): unknown platform '" + system + "', using '" + home + "' as home folder"
  }

  /** misc.py's home_folder. `system` is `platform.system()` and `env` is
      `os.environ`; a missing variable raises KeyError, modelled as a
      Failure carrying the variable's name. */
  function HomeFolder(system: string, env: map<string, string>): (r: Result<Home, string>)
    ensures r.Success? <==> HomeVariable(system) in env
    ensures r.Failure? ==> r.error == HomeVariable(system)
    ensures r.Success? ==> r.value.path == env[HomeVariable(system)]
    ensures r.Success? ==> (r.value.notice.None? <==> system in {"Windows", "Darwin", "Linux"})
  {
    if system == "Windows" then
      if "USERPROFILE" in env then Success(Home(env["USERPROFILE"], None)) else Failure("USERPROFILE")
    else if system == "Darwin" || system == "Linux" then
      if "HOME" in env then Success(Home(env["HOME"], None)) else Failure("HOME")
    else if "HOME" in env then
      var home := env["HOME"];
      Success(Home(home, Some(UnknownPlatformNotice(system, home))))
    else Failure("HOME")
  }

  /** The notice names the platform and the folder it falls back on. */
  lemma HomeFolderNotice(system: string, env: map<string, string>)
    requires HomeFolder(system, env).Success? && HomeFolder(system, env).value.notice.Some?
    ensures var h := HomeFolder(system, env).value;
            var n := h.notice.value;
            var i := |"qtopensesame.__init__(): unknown platform '"|;
            var j := i + |system| + |"', using '"|;
            n[i..i + |system|] == system && n[j..j + |h.path|] == h.path
  {
  }

  /** On Windows HOME plays no part, and elsewhere USERPROFILE plays none:
      only the platform's own variable is read. */
  lemma HomeFolderReadsOneVariable(system: string, e1: map<string, string>, e2: map<string, string>)
    requires var v := HomeVariable(system); (v in e1 <==> v in e2) && (v in e1 ==> e1[v] == e2[v])
    ensures HomeFolder(system, e1) == HomeFolder(system, e2)
  {
  }
}
