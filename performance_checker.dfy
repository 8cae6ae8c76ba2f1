/** The command-line performance checklist. It runs four groups of checks
    over the project directory and the environment, appending each finding
    to one of three lists (passed checks, warnings, errors), and ends with a
    summary: the total, the pass rate and a three-way verdict. The file
    system, the environment variables, the PHP version comparison, the
    loaded extensions, the `node --version` call and the decoded JSON
    manifests are inputs. */
module PerformanceChecker {
  import opened Strings
  import opened Php

  /** The status marks, as the script evidently means them; the file itself
      holds them as mis-encoded bytes. */
  const PassMark := "\U{2705}"
  const WarnMark := "\U{26A0}\U{FE0F}"
  const FailMark := "\U{274C}"
  const InfoMark := "\U{2139}\U{FE0F}"

  // The entry texts, each written once.
  const ConfigFoundName := PassMark + " Performance Config"
  const ConfigFoundMessage := "config/performance.php exists"
  const ConfigMissingName := FailMark + " Performance Config"
  const ConfigMissingMessage := "config/performance.php not found"
  const ProviderFoundName := PassMark + " Provider Registered"
  const ProviderFoundMessage := "PerformanceOptimizationProvider registered"
  const ProviderMissingName := WarnMark + "  Provider Not Registered"
  const ProviderMissingMessage := "Add to bootstrap/providers.php"
  const CacheStoreFoundName := PassMark + " Cache Driver Configured"
  const CacheStoreFoundMessage := "CACHE_STORE is set"
  const CacheStoreMissingName := WarnMark + "  Cache Not Configured"
  const CacheStoreMissingMessage := "Add CACHE_STORE to .env"
  const ResponseCacheFoundName := PassMark + " Response Cache Setting"
  const ResponseCacheFoundMessage := "RESPONSE_CACHE_ENABLED is set"
  const ResponseCacheMissingName := WarnMark + "  Response Cache Not Set"
  const ResponseCacheMissingMessage := "Add to .env"
  const ViteConfigFoundName := PassMark + " Vite Shop Config"
  const ViteConfigFoundMessage := "Code splitting configured"
  const ViteConfigWeakName := WarnMark + "  Vite Shop Config"
  const ViteConfigWeakMessage := "May need code splitting setup"
  const EnvironmentName := InfoMark + "  Environment"
  const PhpFoundName := PassMark + " PHP Version"
  const PhpTooOldName := FailMark + " PHP Version"
  const RedisFoundName := PassMark + " Redis Extension"
  const RedisMissingName := WarnMark + "  Redis Extension"
  const RedisMissingMessage := "Not installed (Optional but recommended)"
  const NodeFoundName := PassMark + " Node.js"
  const NodeMissingName := FailMark + " Node.js"
  const NodeMissingMessage := "Not installed (Required for Vite)"
  const LaravelFoundName := PassMark + " Laravel Version"
  const LaravelFoundMessage := "v11.x"
  const LaravelOtherName := WarnMark + "  Laravel Version"
  const ViteFoundName := PassMark + " Vite"
  const VueFoundName := PassMark + " Vue.js"
  const InstalledMessage := "Installed"

  /** A slash-separated name held as the part before its last `/` and the
      base name after it, so that `basename` of the whole is `base` (lemma
      BasenameOfFull) without being recomputed on every use. */
  datatype SlashName = SlashName(dir: string, base: string)

  function Full(n: SlashName): string {
    n.dir + "/" + n.base
  }

  /** A base name that is not empty and holds no `/` is what `basename`
      gives back for the whole name. */
  lemma BasenameOfFull(n: SlashName)
    requires ProperBase(n)
    ensures Basename(Full(n)) == n.base
  {
    BasenameOfPath(n.dir, n.base);
  }

  function FileFoundName(file: SlashName): string { PassMark + " " + file.base }
  function FileFoundMessage(file: SlashName): string { "File exists (" + Full(file) + ")" }
  function FileMissingName(file: SlashName): string { WarnMark + "  " + file.base }
  function FileMissingMessage(file: SlashName): string { "Missing (" + Full(file) + ")" }
  function EnvironmentMessage(name: string): string { "Running in " + name + " mode" }
  function PhpFoundMessage(version: string): string { "PHP " + version + " (8.2+)" }
  function PhpTooOldMessage(version: string): string { "PHP " + version + " (Need 8.2+)" }
  function LaravelOtherMessage(version: string): string { "Version: " + version + " (Optimized for 11.x)" }
  function PackageFoundName(pkg: SlashName): string { PassMark + " " + pkg.base }
  function PackageMissingName(pkg: SlashName): string { InfoMark + "  " + pkg.base }
  const PackageMissingMessage := "Not explicitly required"

  datatype Item = Item(status: string, name: string, message: string)

  /** The three result lists. */
  datatype Lists = Lists(checks: seq<Item>, warnings: seq<Item>, errors: seq<Item>)

  /** `addCheck`, `addWarning` and `addError`: one entry at the end of one list. */
  function WithCheck(l: Lists, name: string, message: string): Lists {
    l.(checks := l.checks + [Item(PassMark, name, message)])
  }

  function WithWarning(l: Lists, name: string, message: string): Lists {
    l.(warnings := l.warnings + [Item(WarnMark, name, message)])
  }

  function WithError(l: Lists, name: string, message: string): Lists {
    l.(errors := l.errors + [Item(FailMark, name, message)])
  }

  /** A decoded JSON manifest: section name to package name to version
      constraint. A file that does not decode is the empty map. */
  type Manifest = map<string, map<string, string>>

  /** `isset($m[$section][$name])`. */
  predicate Declares(m: Manifest, section: string, name: string) {
    section in m && name in m[section]
  }

  /** Everything the checker observes besides the project path. */
  datatype Environment = Environment(
    readFile: string -> Option<string>,  // contents of a file; None when it does not exist
    appEnv: Option<string>,              // `getenv('APP_ENV')`; None when unset
    phpVersion: string,
    phpAtLeast82: bool,                  // `version_compare($phpVersion, '8.2.0', '>=')`
    redisLoaded: bool,
    nodeVersion: Option<string>,         // trimmed first output line of `node --version`; None on a non-zero exit
    composer: Option<Manifest>,          // composer.json, decoded; None when missing
    package: Option<Manifest>)           // package.json, decoded; None when missing

  // ------------------------------------------------------- the four groups

  /** The three steps of `checkConfiguration`: the configuration file, the
      provider registration, the two `.env` settings. */
  function AfterConfigFile(l: Lists, path: string, readFile: string -> Option<string>): Lists {
    if readFile(path + "/config/performance.php").Some?
    then WithCheck(l, ConfigFoundName, ConfigFoundMessage)
    else WithError(l, ConfigMissingName, ConfigMissingMessage)
  }

  function AfterProviders(l: Lists, path: string, readFile: string -> Option<string>): Lists {
    match readFile(path + "/bootstrap/providers.php")
    case None => l
    case Some(content) =>
      if Contains(content, "PerformanceOptimizationProvider")
      then WithCheck(l, ProviderFoundName, ProviderFoundMessage)
      else WithWarning(l, ProviderMissingName, ProviderMissingMessage)
  }

  function AfterEnvFile(l: Lists, path: string, readFile: string -> Option<string>): Lists {
    match readFile(path + "/.env")
    case None => l
    case Some(content) =>
      var l1 :=
        if Contains(content, "CACHE_STORE")
        then WithCheck(l, CacheStoreFoundName, CacheStoreFoundMessage)
        else WithWarning(l, CacheStoreMissingName, CacheStoreMissingMessage);
      if Contains(content, "RESPONSE_CACHE_ENABLED")
      then WithCheck(l1, ResponseCacheFoundName, ResponseCacheFoundMessage)
      else WithWarning(l1, ResponseCacheMissingName, ResponseCacheMissingMessage)
  }

  /** `checkConfiguration`. */
  function AfterConfiguration(l: Lists, path: string, readFile: string -> Option<string>): Lists {
    AfterEnvFile(AfterProviders(AfterConfigFile(l, path, readFile), path, readFile), path, readFile)
  }

  const ProviderFile := SlashName("app/Providers", "PerformanceOptimizationProvider.php")
  const HelperFile := SlashName("app/Helpers", "PerformanceHelper.php")
  const MiddlewareFile := SlashName("app/Http/Middleware", "SetHttpCacheHeaders.php")
  const AsyncComponentsFile := SlashName("resources/js/utils", "asyncComponents.js")
  const ConfigFile := SlashName("config", "performance.php")

  /** The files `checkFiles` expects, relative to the project directory. */
  const RequiredFiles: seq<SlashName> := [ProviderFile, HelperFile, MiddlewareFile, AsyncComponentsFile, ConfigFile]

  function AfterFile(l: Lists, path: string, file: SlashName, readFile: string -> Option<string>): Lists {
    if readFile(path + "/" + Full(file)).Some?
    then WithCheck(l, FileFoundName(file), FileFoundMessage(file))
    else WithWarning(l, FileMissingName(file), FileMissingMessage(file))
  }

  /** The `foreach` over the required files, one entry per file in order. */
  function AfterFileList(l: Lists, path: string, files: seq<SlashName>, readFile: string -> Option<string>): Lists
    decreases |files|
  {
    if |files| == 0 then l
    else AfterFile(AfterFileList(l, path, files[..|files| - 1], readFile), path, files[|files| - 1], readFile)
  }

  function AfterViteConfig(l: Lists, path: string, readFile: string -> Option<string>): Lists {
    match readFile(path + "/packages/Webkul/Shop/vite.config.js")
    case None => l
    case Some(content) =>
      if Contains(content, "cssCodeSplit") && Contains(content, "manualChunks")
      then WithCheck(l, ViteConfigFoundName, ViteConfigFoundMessage)
      else WithWarning(l, ViteConfigWeakName, ViteConfigWeakMessage)
  }

  /** `checkFiles`. */
  function AfterFiles(l: Lists, path: string, readFile: string -> Option<string>): Lists {
    AfterViteConfig(AfterFileList(l, path, RequiredFiles, readFile), path, readFile)
  }

  /** `getenv('APP_ENV') ?: 'unknown'`. */
  function EnvName(appEnv: Option<string>): string {
    if appEnv.Some? && Truthy(Str(appEnv.value)) then appEnv.value else "unknown"
  }

  /** `checkEnvironment`. */
  function AfterEnvironment(l: Lists, env: Environment): Lists {
    var l1 := WithCheck(l, EnvironmentName, EnvironmentMessage(EnvName(env.appEnv)));
    var l2 :=
      if env.phpAtLeast82 then WithCheck(l1, PhpFoundName, PhpFoundMessage(env.phpVersion))
      else WithError(l1, PhpTooOldName, PhpTooOldMessage(env.phpVersion));
    var l3 :=
      if env.redisLoaded then WithCheck(l2, RedisFoundName, InstalledMessage)
      else WithWarning(l2, RedisMissingName, RedisMissingMessage);
    match env.nodeVersion
    case Some(v) => WithCheck(l3, NodeFoundName, v)
    case None => WithError(l3, NodeMissingName, NodeMissingMessage)
  }

  const LaravelPackage := SlashName("laravel", "framework")
  const BagistoPackage := SlashName("bagisto", "bagisto")
  const ResponseCachePackage := SlashName("spatie", "laravel-responsecache")

  /** The Composer packages `checkDependencies` looks for. */
  const RequiredPackages: seq<SlashName> := [LaravelPackage, BagistoPackage, ResponseCachePackage]

  predicate ProperBase(n: SlashName) {
    |n.base| > 0 && '/' !in n.base
  }

  predicate ProperBases(names: seq<SlashName>) {
    forall k | 0 <= k < |names| :: ProperBase(names[k])
  }

  /** Each listed name with a proper base name shows that base name as its
      `basename`. */
  lemma BaseNamesOf(names: seq<SlashName>)
    requires ProperBases(names)
    ensures forall k | 0 <= k < |names| :: Basename(Full(names[k])) == names[k].base
  {
    forall k | 0 <= k < |names| ensures Basename(Full(names[k])) == names[k].base {
      BasenameOfFull(names[k]);
    }
  }

  // Helpers for ListedBaseNames, not properties of the script: one fact per
  // listed name keeps each string literal in a proof of its own.
  lemma ProviderFileProper() ensures ProperBase(ProviderFile) {}
  lemma HelperFileProper() ensures ProperBase(HelperFile) {}
  lemma MiddlewareFileProper() ensures ProperBase(MiddlewareFile) {}
  lemma AsyncComponentsFileProper() ensures ProperBase(AsyncComponentsFile) {}
  lemma ConfigFileProper() ensures ProperBase(ConfigFile) {}
  lemma LaravelPackageProper() ensures ProperBase(LaravelPackage) {}
  lemma BagistoPackageProper() ensures ProperBase(BagistoPackage) {}
  lemma ResponseCachePackageProper() ensures ProperBase(ResponseCachePackage) {}

  /** The entry names of `checkFiles` and `checkDependencies` are the
      `basename` of each listed file and package. */
  lemma ListedBaseNames()
    ensures forall k | 0 <= k < |RequiredFiles| :: Basename(Full(RequiredFiles[k])) == RequiredFiles[k].base
    ensures forall k | 0 <= k < |RequiredPackages| ::
      Basename(Full(RequiredPackages[k])) == RequiredPackages[k].base
  {
    ProviderFileProper();
    HelperFileProper();
    MiddlewareFileProper();
    AsyncComponentsFileProper();
    ConfigFileProper();
    BaseNamesOf(RequiredFiles);
    LaravelPackageProper();
    BagistoPackageProper();
    ResponseCachePackageProper();
    BaseNamesOf(RequiredPackages);
  }

  function AfterLaravel(l: Lists, composer: Manifest): Lists {
    if Declares(composer, "require", "laravel/framework") then
      var version := composer["require"]["laravel/framework"];
      if Contains(version, "11") then WithCheck(l, LaravelFoundName, LaravelFoundMessage)
      else WithWarning(l, LaravelOtherName, LaravelOtherMessage(version))
    else l
  }

  function AfterPackage(l: Lists, composer: Manifest, pkg: SlashName): Lists {
    if Declares(composer, "require", Full(pkg)) || Declares(composer, "require-dev", Full(pkg))
    then WithCheck(l, PackageFoundName(pkg), InstalledMessage)
    else WithWarning(l, PackageMissingName(pkg), PackageMissingMessage)
  }

  /** The `foreach` over the required packages. */
  function AfterPackageList(l: Lists, composer: Manifest, pkgs: seq<SlashName>): Lists
    decreases |pkgs|
  {
    if |pkgs| == 0 then l
    else AfterPackage(AfterPackageList(l, composer, pkgs[..|pkgs| - 1]), composer, pkgs[|pkgs| - 1])
  }

  function AfterNodePackages(l: Lists, package: Manifest): Lists {
    var l1 :=
      if Declares(package, "devDependencies", "vite") then
        var version := package["devDependencies"]["vite"];
        if Contains(version, "5") || Contains(version, "7") then WithCheck(l, ViteFoundName, version)
        else l
      else l;
    if Declares(package, "dependencies", "vue") || Declares(package, "devDependencies", "vue")
    then WithCheck(l1, VueFoundName, InstalledMessage)
    else l1
  }

  /** `checkDependencies`. */
  function AfterDependencies(l: Lists, composer: Option<Manifest>, package: Option<Manifest>): Lists {
    var l1 :=
      match composer
      case None => l
      case Some(c) => AfterPackageList(AfterLaravel(l, c), c, RequiredPackages);
    match package
    case None => l1
    case Some(p) => AfterNodePackages(l1, p)
  }

  // ------------------------------------------------ properties of the groups

  /** The lists only grow: each earlier entry stays in place. */
  predicate Extends(l: Lists, l': Lists) {
    l.checks <= l'.checks && l.warnings <= l'.warnings && l.errors <= l'.errors
  }

  /** Each required file gives exactly one entry, a check when it exists and
      a warning when it does not, and never an error. */
  lemma {:induction false} FileListShape(l: Lists, path: string, files: seq<SlashName>,
                                         readFile: string -> Option<string>)
    ensures var l' := AfterFileList(l, path, files, readFile);
      && Extends(l, l') && l'.errors == l.errors
      && |l'.checks| + |l'.warnings| == |l.checks| + |l.warnings| + |files|
      && |l'.checks| == |l.checks| + |set k | 0 <= k < |files| && readFile(path + "/" + Full(files[k])).Some?|
    decreases |files|
  {
    if |files| > 0 {
      var front := files[..|files| - 1];
      FileListShape(l, path, front, readFile);
      var present := set k | 0 <= k < |files| && readFile(path + "/" + Full(files[k])).Some?;
      var presentFront := set k | 0 <= k < |front| && readFile(path + "/" + Full(front[k])).Some?;
      if readFile(path + "/" + Full(files[|files| - 1])).Some? {
        assert present == presentFront + {|files| - 1};
      } else {
        assert present == presentFront;
      }
    }
  }

  /** A missing required file leaves a warning. */
  lemma {:induction false} MissingFileWarns(l: Lists, path: string, files: seq<SlashName>,
                                            readFile: string -> Option<string>, k: nat)
    requires k < |files| && readFile(path + "/" + Full(files[k])).None?
    ensures |AfterFileList(l, path, files, readFile).warnings| > |l.warnings|
    decreases |files|
  {
    if k < |files| - 1 {
      MissingFileWarns(l, path, files[..|files| - 1], readFile, k);
    }
    FileListShape(l, path, files[..|files| - 1], readFile);
  }

  /** `checkFiles` adds five or six entries (the sixth when the shop's
      bundler configuration exists) and never an error. */
  lemma FilesShape(l: Lists, path: string, readFile: string -> Option<string>)
    ensures var l' := AfterFiles(l, path, readFile);
      && Extends(l, l') && l'.errors == l.errors
      && |l'.checks| + |l'.warnings| == |l.checks| + |l.warnings| + |RequiredFiles|
         + (if readFile(path + "/packages/Webkul/Shop/vite.config.js").Some? then 1 else 0)
  {
    FileListShape(l, path, RequiredFiles, readFile);
  }

  /** Each required package gives exactly one entry, a check when it is
      declared under `require` or `require-dev`, a warning otherwise. */
  lemma {:induction false} PackageListShape(l: Lists, composer: Manifest, pkgs: seq<SlashName>)
    ensures var l' := AfterPackageList(l, composer, pkgs);
      && Extends(l, l') && l'.errors == l.errors
      && |l'.checks| + |l'.warnings| == |l.checks| + |l.warnings| + |pkgs|
      && ((forall k | 0 <= k < |pkgs| ::
             Declares(composer, "require", Full(pkgs[k])) || Declares(composer, "require-dev", Full(pkgs[k])))
          ==> l'.warnings == l.warnings)
    decreases |pkgs|
  {
    if |pkgs| > 0 {
      PackageListShape(l, composer, pkgs[..|pkgs| - 1]);
    }
  }

  /** `checkDependencies` never adds an error; the Laravel constraint gives a
      check exactly when it mentions `11`, and nothing when it is absent. */
  lemma DependenciesShape(l: Lists, composer: Option<Manifest>, package: Option<Manifest>)
    ensures var l' := AfterDependencies(l, composer, package);
      Extends(l, l') && l'.errors == l.errors
    ensures composer.Some? && Declares(composer.value, "require", "laravel/framework") ==>
      (|AfterLaravel(l, composer.value).checks| > |l.checks| <==>
       Contains(composer.value["require"]["laravel/framework"], "11"))
    ensures composer.Some? && !Declares(composer.value, "require", "laravel/framework") ==>
      AfterLaravel(l, composer.value) == l
  {
    if composer.Some? {
      PackageListShape(AfterLaravel(l, composer.value), composer.value, RequiredPackages);
    }
  }

  /** `checkConfiguration` adds an error exactly when the performance
      configuration is missing, and at most three other entries. */
  lemma ConfigurationShape(l: Lists, path: string, readFile: string -> Option<string>)
    ensures var l' := AfterConfiguration(l, path, readFile);
      && Extends(l, l')
      && |l'.errors| == |l.errors| + (if readFile(path + "/config/performance.php").None? then 1 else 0)
      && |l.checks| + |l.warnings| <= |l'.checks| + |l'.warnings| <= |l.checks| + |l.warnings| + 4
  {
  }

  /** `checkEnvironment` adds four entries; its errors are an old PHP and a
      missing Node.js, its one possible warning a missing Redis extension. */
  lemma EnvironmentShape(l: Lists, env: Environment)
    ensures var l' := AfterEnvironment(l, env);
      && Extends(l, l')
      && |l'.checks| + |l'.warnings| + |l'.errors| == |l.checks| + |l.warnings| + |l.errors| + 4
      && |l'.errors| == |l.errors| + (if env.phpAtLeast82 then 0 else 1) + (if env.nodeVersion.Some? then 0 else 1)
      && |l'.warnings| == |l.warnings| + (if env.redisLoaded then 0 else 1)
  {
  }

  // ------------------------------------------------------------- verdict

  datatype Verdict = AllPassed | ReadyWithWarnings | IssuesFound

  /** `generateReport`'s closing verdict from the list sizes. */
  function VerdictOf(warnings: nat, errors: nat): (v: Verdict)
    ensures v == AllPassed <==> errors == 0 && warnings == 0
    ensures v == ReadyWithWarnings <==> errors == 0 && warnings > 0
    ensures v == IssuesFound <==> errors > 0
  {
    if errors == 0 && warnings == 0 then AllPassed
    else if errors == 0 then ReadyWithWarnings
    else IssuesFound
  }

  function Rank(v: Verdict): nat {
    match v
    case AllPassed => 0
    case ReadyWithWarnings => 1
    case IssuesFound => 2
  }

  /** More warnings or errors never improve the verdict. */
  lemma VerdictMonotone(w: nat, e: nat, w': nat, e': nat)
    requires w <= w' && e <= e'
    ensures Rank(VerdictOf(w, e)) <= Rank(VerdictOf(w', e'))
  {
  }

  /** `(checks / total) * 100`, or 0 when nothing was checked. */
  function PassRate(checks: nat, warnings: nat, errors: nat): (rate: real)
    ensures 0.0 <= rate <= 100.0
    ensures rate == 100.0 <==> checks > 0 && warnings == 0 && errors == 0
    ensures rate == 0.0 <==> checks == 0
  {
    var total := checks + warnings + errors;
    if total == 0 then 0.0
    else
      RatioBounds(checks, total);
      (checks as real / total as real) * 100.0
  }

  /** A share of a positive whole lies between 0 and 1, and is 0 or 1 only
      for none or all of it. */
  lemma RatioBounds(part: nat, whole: nat)
    requires 0 < whole && part <= whole
    ensures var q := part as real / whole as real;
      0.0 <= q <= 1.0 && (q == 0.0 <==> part == 0) && (q == 1.0 <==> part == whole)
  {
    var q := part as real / whole as real;
    assert q * whole as real == part as real;
  }

  // ------------------------------------------------------------- the class

  class Checker {
    var projectPath: string
    var checks: seq<Item>
    var warnings: seq<Item>
    var errors: seq<Item>

    function Results(): Lists
      reads this
    {
      Lists(checks, warnings, errors)
    }

    constructor(projectPath: string)
      ensures this.projectPath == RTrim(projectPath, '/')
      ensures Results() == Lists([], [], [])
    {
      this.projectPath := RTrim(projectPath, '/');
      checks, warnings, errors := [], [], [];
    }

    method AddCheck(name: string, message: string)
      modifies this
      ensures Results() == WithCheck(old(Results()), name, message)
      ensures projectPath == old(projectPath)
    {
      checks := checks + [Item(PassMark, name, message)];
    }

    method AddWarning(name: string, message: string)
      modifies this
      ensures Results() == WithWarning(old(Results()), name, message)
      ensures projectPath == old(projectPath)
    {
      warnings := warnings + [Item(WarnMark, name, message)];
    }

    method AddError(name: string, message: string)
      modifies this
      ensures Results() == WithError(old(Results()), name, message)
      ensures projectPath == old(projectPath)
    {
      errors := errors + [Item(FailMark, name, message)];
    }

    method CheckConfiguration(readFile: string -> Option<string>)
      modifies this
      ensures Results() == AfterConfiguration(old(Results()), projectPath, readFile)
      ensures projectPath == old(projectPath)
    {
      if readFile(projectPath + "/config/performance.php").Some? {
        AddCheck(ConfigFoundName, ConfigFoundMessage);
      } else {
        AddError(ConfigMissingName, ConfigMissingMessage);
      }
      ghost var afterConfig := Results();
      assert afterConfig == AfterConfigFile(old(Results()), projectPath, readFile);
      var providers := readFile(projectPath + "/bootstrap/providers.php");
      if providers.Some? {
        if Contains(providers.value, "PerformanceOptimizationProvider") {
          AddCheck(ProviderFoundName, ProviderFoundMessage);
        } else {
          AddWarning(ProviderMissingName, ProviderMissingMessage);
        }
      }
      assert Results() == AfterProviders(afterConfig, projectPath, readFile);
      var env := readFile(projectPath + "/.env");
      if env.Some? {
        if Contains(env.value, "CACHE_STORE") {
          AddCheck(CacheStoreFoundName, CacheStoreFoundMessage);
        } else {
          AddWarning(CacheStoreMissingName, CacheStoreMissingMessage);
        }
        if Contains(env.value, "RESPONSE_CACHE_ENABLED") {
          AddCheck(ResponseCacheFoundName, ResponseCacheFoundMessage);
        } else {
          AddWarning(ResponseCacheMissingName, ResponseCacheMissingMessage);
        }
      }
    }

    method CheckFiles(readFile: string -> Option<string>)
      modifies this
      ensures Results() == AfterFiles(old(Results()), projectPath, readFile)
      ensures projectPath == old(projectPath)
    {
      var i := 0;
      while i < |RequiredFiles|
        invariant 0 <= i <= |RequiredFiles|
        invariant projectPath == old(projectPath)
        invariant Results() == AfterFileList(old(Results()), projectPath, RequiredFiles[..i], readFile)
      {
        var file := RequiredFiles[i];
        assert RequiredFiles[..i + 1][..i] == RequiredFiles[..i];
        if readFile(projectPath + "/" + Full(file)).Some? {
          AddCheck(FileFoundName(file), FileFoundMessage(file));
        } else {
          AddWarning(FileMissingName(file), FileMissingMessage(file));
        }
        i := i + 1;
      }
      assert RequiredFiles[..i] == RequiredFiles;
      var vite := readFile(projectPath + "/packages/Webkul/Shop/vite.config.js");
      if vite.Some? {
        if Contains(vite.value, "cssCodeSplit") && Contains(vite.value, "manualChunks") {
          AddCheck(ViteConfigFoundName, ViteConfigFoundMessage);
        } else {
          AddWarning(ViteConfigWeakName, ViteConfigWeakMessage);
        }
      }
    }

    method CheckEnvironment(env: Environment)
      modifies this
      ensures Results() == AfterEnvironment(old(Results()), env)
      ensures projectPath == old(projectPath)
    {
      AddCheck(EnvironmentName, EnvironmentMessage(EnvName(env.appEnv)));
      if env.phpAtLeast82 {
        AddCheck(PhpFoundName, PhpFoundMessage(env.phpVersion));
      } else {
        AddError(PhpTooOldName, PhpTooOldMessage(env.phpVersion));
      }
      if env.redisLoaded {
        AddCheck(RedisFoundName, InstalledMessage);
      } else {
        AddWarning(RedisMissingName, RedisMissingMessage);
      }
      if env.nodeVersion.Some? {
        AddCheck(NodeFoundName, env.nodeVersion.value);
      } else {
        AddError(NodeMissingName, NodeMissingMessage);
      }
    }

    method CheckDependencies(composer: Option<Manifest>, package: Option<Manifest>)
      modifies this
      ensures Results() == AfterDependencies(old(Results()), composer, package)
      ensures projectPath == old(projectPath)
    {
      if composer.Some? {
        var c := composer.value;
        if Declares(c, "require", "laravel/framework") {
          var version := c["require"]["laravel/framework"];
          if Contains(version, "11") {
            AddCheck(LaravelFoundName, LaravelFoundMessage);
          } else {
            AddWarning(LaravelOtherName, LaravelOtherMessage(version));
          }
        }
        ghost var afterLaravel := Results();
        var i := 0;
        while i < |RequiredPackages|
          invariant 0 <= i <= |RequiredPackages|
          invariant projectPath == old(projectPath)
          invariant Results() == AfterPackageList(afterLaravel, c, RequiredPackages[..i])
        {
          var pkg := RequiredPackages[i];
          assert RequiredPackages[..i + 1][..i] == RequiredPackages[..i];
          if Declares(c, "require", Full(pkg)) || Declares(c, "require-dev", Full(pkg)) {
            AddCheck(PackageFoundName(pkg), InstalledMessage);
          } else {
            AddWarning(PackageMissingName(pkg), PackageMissingMessage);
          }
          i := i + 1;
        }
        assert RequiredPackages[..i] == RequiredPackages;
      }
      if package.Some? {
        var p := package.value;
        if Declares(p, "devDependencies", "vite") {
          var version := p["devDependencies"]["vite"];
          if Contains(version, "5") || Contains(version, "7") {
            AddCheck(ViteFoundName, version);
          }
        }
        if Declares(p, "dependencies", "vue") || Declares(p, "devDependencies", "vue") {
          AddCheck(VueFoundName, InstalledMessage);
        }
      }
    }

    /** `generateReport`: the total, the pass rate and the verdict. */
    method GenerateReport() returns (total: nat, passRate: real, verdict: Verdict)
      ensures total == |checks| + |warnings| + |errors|
      ensures passRate == PassRate(|checks|, |warnings|, |errors|)
      ensures verdict == VerdictOf(|warnings|, |errors|)
    {
      total := |checks| + |warnings| + |errors|;
      passRate := if total != 0 then (|checks| as real / total as real) * 100.0 else 0.0;
      if |errors| == 0 && |warnings| == 0 {
        verdict := AllPassed;
      } else if |errors| == 0 {
        verdict := ReadyWithWarnings;
      } else {
        verdict := IssuesFound;
      }
    }
  }

  /** The lists after a whole run. */
  function AfterRun(path: string, env: Environment): Lists {
    var l0 := Lists([], [], []);
    var l1 := AfterConfiguration(l0, path, env.readFile);
    var l2 := AfterFiles(l1, path, env.readFile);
    var l3 := AfterEnvironment(l2, env);
    AfterDependencies(l3, env.composer, env.package)
  }

  /** Over a whole run, errors come only from a missing performance
      configuration, an old PHP or a missing Node.js; a missing required
      file or Redis extension leaves a warning; and at least ten entries
      are made, one per required file plus five. */
  lemma RunShape(path: string, env: Environment)
    ensures var l := AfterRun(path, env);
      && (|l.errors| > 0 <==>
          env.readFile(path + "/config/performance.php").None? || !env.phpAtLeast82 || env.nodeVersion.None?)
      && (!env.redisLoaded ==> |l.warnings| > 0)
      && ((exists k | 0 <= k < |RequiredFiles| :: env.readFile(path + "/" + Full(RequiredFiles[k])).None?)
          ==> |l.warnings| > 0)
      && |l.checks| + |l.warnings| + |l.errors| >= |RequiredFiles| + 5
  {
    var l0 := Lists([], [], []);
    var l1 := AfterConfiguration(l0, path, env.readFile);
    var l2 := AfterFiles(l1, path, env.readFile);
    var l3 := AfterEnvironment(l2, env);
    ConfigurationShape(l0, path, env.readFile);
    FilesShape(l1, path, env.readFile);
    EnvironmentShape(l2, env);
    DependenciesShape(l3, env.composer, env.package);
    if exists k | 0 <= k < |RequiredFiles| :: env.readFile(path + "/" + Full(RequiredFiles[k])).None? {
      var k :| 0 <= k < |RequiredFiles| && env.readFile(path + "/" + Full(RequiredFiles[k])).None?;
      MissingFileWarns(l1, path, RequiredFiles, env.readFile, k);
      FileListShape(l1, path, RequiredFiles, env.readFile);
    }
  }

  /** A whole run, as the script's last lines start it: the verdict is
      ISSUES FOUND exactly when the performance configuration is missing,
      PHP is older than 8.2 or Node.js is not available, and ALL PASSED
      needs every required file and the Redis extension. */
  method Run(projectPath: string, env: Environment) returns (total: nat, verdict: Verdict)
    ensures verdict == IssuesFound <==>
      env.readFile(RTrim(projectPath, '/') + "/config/performance.php").None?
      || !env.phpAtLeast82 || env.nodeVersion.None?
    ensures verdict == AllPassed ==>
      env.redisLoaded
      && forall k | 0 <= k < |RequiredFiles| ::
           env.readFile(RTrim(projectPath, '/') + "/" + Full(RequiredFiles[k])).Some?
    ensures total >= |RequiredFiles| + 5
  {
    var checker := new Checker(projectPath);
    checker.CheckConfiguration(env.readFile);
    checker.CheckFiles(env.readFile);
    checker.CheckEnvironment(env);
    checker.CheckDependencies(env.composer, env.package);
    assert checker.Results() == AfterRun(checker.projectPath, env);
    RunShape(checker.projectPath, env);
    var passRate;
    total, passRate, verdict := checker.GenerateReport();
  }
}
