/** The pure helpers of the Kotlin (app-android) UTS toolchain driver
    (`packages/uni-uts-v1/src/kotlin.ts`): the package name handed to the UTS
    compiler, the `kotlinc` and `d8` argument vectors, and how the replies of
    the dependency and resource checks are turned into extra class-path jars.
    Calls into `path`, `os` and `resolvePackage` are parameters. */
module Kotlin {
  import opened Wrappers
  import opened Strings

  /** `createKotlinResolveTypeReferenceName(namespace, ast)` returns a resolver
      that leaves every type name as it is. */
  function ResolveTypeReferenceName(namespace: string, ast: string, name: string): (r: string)
    ensures r == name
  {
    name
  }

  /** What `resolvePackage(filename)` reports for a plugin source file. */
  datatype PackageInfo = PackageInfo(name: string, isUniModules: bool)

  /** The Kotlin package of a UTS plugin: empty when no package resolves,
      otherwise `uts.sdk.` followed by `modules.` for a uni_modules plugin and
      the plugin name. */
  function ParseKotlinPackage(res: Option<PackageInfo>): (pkg: string)
    ensures res.None? ==> pkg == ""
    ensures res.Some? ==> |pkg| >= 8 && pkg[..8] == "uts.sdk."
    ensures res.Some? && res.value.isUniModules ==> pkg[8..] == "modules." + res.value.name
    ensures res.Some? && !res.value.isUniModules ==> pkg[8..] == res.value.name
  {
    if res.None? then ""
    else "uts.sdk." + (if res.value.isUniModules then "modules." else "") + res.value.name
  }

  /** The class-path separator: `;` when `os.platform()` is `win32`, `:` otherwise. */
  function ClassPathSeparator(platform: string): (c: char)
    ensures c == ';' <==> platform == "win32"
    ensures c == ':' <==> platform != "win32"
  {
    if platform == "win32" then ';' else ':'
  }

  /** `jars.join(separator)`. */
  function ResolveClassPath(jars: seq<string>, platform: string): string
  {
    Join(jars, [ClassPathSeparator(platform)])
  }

  /** The class path lists exactly the given jars, in order: splitting it at
      the separator gives them back, as long as there is at least one jar and
      no jar path contains the separator. */
  lemma ClassPathRoundTrip(jars: seq<string>, platform: string)
    requires |jars| > 0
    requires forall k :: 0 <= k < |jars| ==> ClassPathSeparator(platform) !in jars[k]
    ensures Split(ResolveClassPath(jars, platform), ClassPathSeparator(platform)) == jars
  {
    SplitJoin(jars, ClassPathSeparator(platform));
  }

  predicate IsSuffix(suffix: string, s: string) {
    |suffix| <= |s| && s[|s| - |suffix|..] == suffix
  }

  /** `filename.replace(path.extname(filename), '.jar')` AS WRITTEN: the first
      occurrence of the extension text is replaced, which need not be the
      extension at the end of the name. */
  function ResolveJarPathAsWritten(filename: string, extname: string): (r: string)
    ensures |extname| <= |filename| && Find(filename, extname) == |filename| - |extname| ==>
      r == filename[..|filename| - |extname|] + ".jar"
  {
    ReplaceFirst(filename, extname, ".jar")
  }

  /** The first `.kt` in `/src/a.kt/index.kt` is the directory's. */
  lemma FirstExtensionInDirectory()
    ensures Find("/src/a.kt/index.kt", ".kt") == 6
  {
    var s := "/src/a.kt/index.kt";
    assert OccursAt(s, ".kt", 6);
    forall j | 0 <= j < 6
      ensures !OccursAt(s, ".kt", j)
    {
      assert s[j] != '.';
    }
  }

  /** The discrepancy: a directory whose name contains the extension text
      gets renamed instead of the file. */
  lemma ResolveJarPathAsWrittenMisplaced()
    ensures ResolveJarPathAsWritten("/src/a.kt/index.kt", ".kt") == "/src/a" + ".jar" + "/index.kt"
  {
    var s := "/src/a.kt/index.kt";
    FirstExtensionInDirectory();
    assert s[..6] == "/src/a";
    assert s[9..] == "/index.kt";
  }

  /** A file without extension (`path.extname` gives the empty string) gets
      `.jar` in front of its path. */
  lemma ResolveJarPathAsWrittenPrefixes()
    ensures ResolveJarPathAsWritten("/src/Makefile", "") == ".jar" + "/src/Makefile"
  {
    var m := "/src/Makefile";
    assert OccursAt(m, "", 0);
    assert Find(m, "") == 0;
  }

  /** The jar path `kotlinc` writes to: the file name with its extension (the
      suffix `path.extname` reports) replaced by `.jar`. */
  function ResolveJarPath(filename: string, extname: string): (r: string)
    requires IsSuffix(extname, filename)
    ensures |r| >= 4 && r[|r| - 4..] == ".jar"
    ensures r[..|r| - 4] == filename[..|filename| - |extname|]
  {
    filename[..|filename| - |extname|] + ".jar"
  }

  /** Wherever the extension text occurs only at the end, the corrected jar
      path agrees with the program as written. */
  lemma ResolveJarPathAgrees(filename: string, extname: string)
    requires IsSuffix(extname, filename)
    requires Find(filename, extname) == |filename| - |extname|
    ensures ResolveJarPath(filename, extname) == ResolveJarPathAsWritten(filename, extname)
  {
  }

  /** `resolveKotlincArgs`: compile `filename` against the class path into
      the jar `resolveJarPath` names (the as-written replacement). */
  function ResolveKotlincArgs(filename: string, extname: string, kotlinc: string,
                              jars: seq<string>, platform: string): (args: seq<string>)
    ensures |args| == 7
    ensures args[0] == filename && args[1] == "-cp" && args[3] == "-d" && args[5] == "-kotlin-home"
    ensures args[2] == ResolveClassPath(jars, platform)
    ensures args[4] == ResolveJarPathAsWritten(filename, extname)
    ensures IsSuffix(extname, filename) && Find(filename, extname) == |filename| - |extname| ==>
      args[4] == ResolveJarPath(filename, extname)
    ensures args[6] == kotlinc
  {
    [filename, "-cp", ResolveClassPath(jars, platform), "-d", ResolveJarPathAsWritten(filename, extname),
     "-kotlin-home", kotlinc]
  }

  /** Scanning the path down from index i to index 1 as `path.dirname` does:
      the index of the separator that ends the directory part, skipping
      separators at the very end (`matched` holds while only separators have
      been seen); -1 when there is none. */
  function LastSeparator(f: string, i: int, matched: bool): (end: int)
    requires i < |f|
    ensures end == -1 || 1 <= end <= i
    ensures end >= 1 ==> f[end] == '/'
    decreases i
  {
    if i < 1 then -1
    else if f[i] == '/' then (if matched then LastSeparator(f, i - 1, true) else i)
    else LastSeparator(f, i - 1, false)
  }

  /** `resolveDexPath`: `path.dirname(filename)` (POSIX): "." for an empty
      path or one without a separator after its first character, "/" or
      "//" for a path directly under the root, otherwise the path up to the
      separator before its last component. */
  function ResolveDexPath(filename: string): (dir: string)
    ensures dir == "." || dir == "/" || dir == "//" ||
            (0 < |dir| < |filename| && filename[..|dir|] == dir && filename[|dir|] == '/')
  {
    if |filename| == 0 then "."
    else
      var end := LastSeparator(filename, |filename| - 1, true);
      if end == -1 then (if filename[0] == '/' then "/" else ".")
      else if filename[0] == '/' && end == 1 then "//"
      else filename[..end]
  }

  /** From a non-separator at index i, the scan stops at the nearest
      separator j below it. */
  lemma {:induction false} LastSeparatorFinds(f: string, i: int, j: int, matched: bool)
    requires 1 <= j <= i < |f| && f[j] == '/'
    requires forall k :: j < k <= i ==> f[k] != '/'
    requires i > j || !matched
    ensures LastSeparator(f, i, matched) == j
    decreases i
  {
    if i > j {
      LastSeparatorFinds(f, i - 1, j, false);
    }
  }

  /** Without a separator after index 0 the scan finds none. */
  lemma {:induction false} LastSeparatorNone(f: string, i: int, matched: bool)
    requires i < |f|
    requires forall k :: 1 <= k <= i ==> f[k] != '/'
    ensures LastSeparator(f, i, matched) == -1
    decreases i
  {
    if i >= 1 {
      LastSeparatorNone(f, i - 1, false);
    }
  }

  /** The dex directory of `d/b` is `d` (for a directory other than the
      root itself), and that of a bare file name is the current directory. */
  lemma ResolveDexPathOfJoin(d: string, b: string)
    requires d != "" && d != "/" && b != "" && '/' !in b
    ensures ResolveDexPath(d + "/" + b) == d
    ensures ResolveDexPath(b) == "."
  {
    var f := d + "/" + b;
    assert f[|d|] == '/';
    forall k | |d| < k <= |f| - 1 ensures f[k] != '/' {
      assert f[k] == b[k - |d| - 1];
    }
    LastSeparatorFinds(f, |f| - 1, |d|, true);
    assert f[..|d|] == d;
    LastSeparatorNone(b, |b| - 1, true);
    assert b[0] in b;
  }

  /** `resolveD8Args`: dex the jar, without desugaring, for API level 19,
      into the jar's directory. */
  function ResolveD8Args(filename: string): (args: seq<string>)
    ensures |args| == 6
    ensures args[0] == filename
    ensures args[1..5] == ["--no-desugaring", "--min-api", "19", "--output"]
    ensures args[5] == ResolveDexPath(filename)
  {
    [filename, "--no-desugaring", "--min-api", "19", "--output", ResolveDexPath(filename)]
  }

  /** The reply of the compiler server's `checkDependencies`. */
  datatype DependencyReply = DependencyReply(code: int, msg: string, data: seq<string>)

  /** The reply of the compiler server's `checkRResources`. */
  datatype ResourceReply = ResourceReply(code: int, msg: string, jarPath: string, uniModuleName: string)

  /** `checkDeps`: when the plugin's `config.json` exists (`configJsonFile`)
      and declares dependencies (`hasDeps`), ask the server; a non-zero code
      rejects with the server's message, otherwise its jars are the result.
      Without such a file there are no extra jars. */
  function CheckDeps(configJsonFile: Option<string>, hasDeps: bool,
                     checkDependencies: string -> DependencyReply): (r: Result<seq<string>, string>)
    ensures configJsonFile.None? || !hasDeps ==> r == Ok([])
    ensures configJsonFile.Some? && hasDeps ==>
      var reply := checkDependencies(configJsonFile.value);
      (r.Err? <==> reply.code != 0) &&
      (r.Err? ==> r.error == reply.msg) &&
      (r.Ok? ==> r.value == reply.data)
  {
    if configJsonFile.Some? && hasDeps then
      var reply := checkDependencies(configJsonFile.value);
      if reply.code != 0 then Err(reply.msg) else Ok(reply.data)
    else
      Ok([])
  }

  /** `checkRes`: when the plugin has a `res` directory, ask the server; a
      non-zero code rejects with its message, otherwise the one generated jar
      is the result. Without the directory there are no extra jars. */
  function CheckRes(resDir: Option<string>, checkRResources: string -> ResourceReply): (r: Result<seq<string>, string>)
    ensures resDir.None? ==> r == Ok([])
    ensures resDir.Some? ==>
      var reply := checkRResources(resDir.value);
      (r.Err? <==> reply.code != 0) &&
      (r.Err? ==> r.error == reply.msg) &&
      (r.Ok? ==> r.value == [reply.jarPath])
  {
    if resDir.Some? then
      var reply := checkRResources(resDir.value);
      if reply.code != 0 then Err(reply.msg) else Ok([reply.jarPath])
    else
      Ok([])
  }

  /** The two argument vectors `runKotlinDev` hands to the compiler server:
      `kotlinc` over the default jars, the plugin's libs, the dependency jars
      and the resource jars (in that order), and `d8` over the jar `kotlinc`
      produced, written to that jar's directory. */
  function DevCompileArgs(kotlinFile: string, extname: string, kotlincHome: string,
                          defaultJars: seq<string>, libs: seq<string>, deps: seq<string>,
                          resDeps: seq<string>, platform: string)
    : (r: (seq<string>, seq<string>))
    ensures |r.0| == 7 && |r.1| == 6
    ensures r.0[0] == kotlinFile && r.0[4] == ResolveJarPathAsWritten(kotlinFile, extname)
    ensures r.1[0] == r.0[4] && r.1[5] == ResolveDexPath(r.0[4])
    ensures r.0[2] == ResolveClassPath(defaultJars + libs + deps + resDeps, platform)
  {
    var jarFile := ResolveJarPathAsWritten(kotlinFile, extname);
    (ResolveKotlincArgs(kotlinFile, extname, kotlincHome, defaultJars + libs + deps + resDeps, platform),
     ResolveD8Args(jarFile))
  }

  /** For a source file `d/b` whose extension text occurs only at its end,
      the jar is `d/<stem>.jar`: it stays in the source file's directory. */
  lemma JarBesideSource(d: string, b: string, extname: string)
    requires IsSuffix(extname, b)
    requires Find(d + "/" + b, extname) == |d + "/" + b| - |extname|
    ensures ResolveJarPathAsWritten(d + "/" + b, extname) == d + "/" + (b[..|b| - |extname|] + ".jar")
  {
    var f := d + "/" + b;
    assert IsSuffix(extname, f) by {
      assert f[|f| - |extname|..] == b[|b| - |extname|..];
    }
    ResolveJarPathAgrees(f, extname);
    assert f[..|f| - |extname|] == d + "/" + b[..|b| - |extname|];
  }

  /** For a source file `d/b` whose extension text occurs only at its end,
      `kotlinc` writes `d/<stem>.jar` and `d8` writes into `d`, the source
      file's own directory. */
  lemma DevOutputsBesideSource(d: string, b: string, extname: string, kotlincHome: string,
                               defaultJars: seq<string>, libs: seq<string>, deps: seq<string>,
                               resDeps: seq<string>, platform: string)
    requires d != "" && d != "/" && '/' !in b && IsSuffix(extname, b) && |extname| < |b|
    requires Find(d + "/" + b, extname) == |d + "/" + b| - |extname|
    ensures var r := DevCompileArgs(d + "/" + b, extname, kotlincHome, defaultJars, libs, deps, resDeps, platform);
            r.0[4] == d + "/" + (b[..|b| - |extname|] + ".jar") && r.1[5] == d
  {
    var stem := b[..|b| - |extname|] + ".jar";
    JarBesideSource(d, b, extname);
    forall k | 0 <= k < |stem| ensures stem[k] != '/' {
      if k < |b| - |extname| { assert stem[k] == b[k]; assert b[k] in b; }
    }
    ResolveDexPathOfJoin(d, stem);
  }

  /** The class path of the development build lists the default jars first,
      then the plugin's libs, then the dependency jars, then the resource jars. */
  lemma DevClassPathOrder(kotlinFile: string, extname: string, kotlincHome: string,
                          defaultJars: seq<string>, libs: seq<string>, deps: seq<string>,
                          resDeps: seq<string>, platform: string)
    requires |defaultJars + libs + deps + resDeps| > 0
    requires forall j :: j in defaultJars + libs + deps + resDeps ==> ClassPathSeparator(platform) !in j
    ensures var cp := DevCompileArgs(kotlinFile, extname, kotlincHome, defaultJars, libs, deps,
                                     resDeps, platform).0[2];
            Split(cp, ClassPathSeparator(platform)) == defaultJars + libs + deps + resDeps
  {
    var jars := defaultJars + libs + deps + resDeps;
    assert forall k :: 0 <= k < |jars| ==> ClassPathSeparator(platform) !in jars[k] by {
      forall k | 0 <= k < |jars| ensures ClassPathSeparator(platform) !in jars[k] {
        assert jars[k] in jars;
      }
    }
    ClassPathRoundTrip(jars, platform);
  }
}
