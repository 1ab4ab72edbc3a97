/**
 * The `remap` goal (RemapMojo): remap the project's main jar with the remapper
 * library, then rename the result to `finalName`, attach it under a classifier, or
 * put it in place of the original artifact.
 *
 * The remapper library and Maven's services are opaque here: each call the goal makes
 * into them is appended to a call log with its arguments, and whether it throws, or
 * what file a resolved artifact has, is answered by a `RemapHost` given as a parameter.
 */
module Remap {
  import opened Wrappers
  import opened Paths
  import opened Coordinates
  import opened FileSystems
  import opened FileReplacement

  /** The goal's parameters that `execute` only reads. */
  datatype RemapConfig = RemapConfig(
    outputDirectory: Path,
    finalName: Option<string>,
    remappedArtifactId: string,
    remappedArtifactAttached: bool,
    remappedClassifierName: string,
    accessIn: Option<Path>,
    logFile: Option<Path>,
    reverse: bool,
    numeric: bool,
    generateApi: bool,
    inShadeRelocation: Option<string>,
    outShadeRelocation: Option<string>,
    remappedDependencies: seq<string>,
    excludedPackages: seq<string>,
    useProjectDependencies: bool)

  /** What the goal reads of the Maven project. */
  datatype Project = Project(
    groupId: string,
    name: string,
    artifactFile: Option<Path>,
    artifactVersion: string,
    artifactType: string,
    extension: string,
    buildFinalName: Option<string>,
    dependencies: seq<Coordinate>)

  /** The calls into the remapper library and Maven's services, with their arguments. */
  datatype RemapCall =
    | AddExcludedPackage(packageName: string)
    | ResolveArtifact(coordinate: Coordinate)
    | LoadMappings(source: string, reverse: bool, numeric: bool, inShade: Option<string>, outShade: Option<string>)
    | InitJar(file: Path)
    | SetInheritanceProviders(jars: seq<Path>)
    | LoadAccessTransformer(file: Path)
    | SetGenerateApi(generate: bool)
    | SetLogFile(file: Path)
    | RemapJar(input: Path, output: Path)
    | ReplaceFile(oldFile: Path, newFile: Path)
    | AttachArtifact(artifactType: string, classifier: string, file: Path)

  /** The library calls that may throw (an IOException or the library's own errors). */
  predicate Fallible(c: RemapCall) {
    c.LoadMappings? || c.InitJar? || c.LoadAccessTransformer? || c.SetLogFile? || c.RemapJar?
  }

  /** The answers of everything outside the plugin. */
  datatype RemapHost = RemapHost(
    resolve: Coordinate -> Option<Path>,   // the artifact's file, None when resolution throws
    fails: RemapCall -> bool,              // whether a fallible library call throws
    remappedContents: Bytes,               // what remapJar writes to the output file
    replaceEnv: ReplaceEnv)                // the platform's answers inside replaceFile

  datatype RemapError =
    | MainArtifactMissing
    | InvalidCoordinate(setting: string, fieldCount: nat)
    | ResolutionFailed(coordinate: Coordinate)
    | LibraryFailed(call: RemapCall)
    | ReplaceFailed(oldFile: Path)

  datatype RemapOutcome = Completed | SkippedForgeModParent | Failed(error: RemapError)

  // ---------------------------------------------------------------------------
  // The decisions of execute, as functions
  // ---------------------------------------------------------------------------

  /** The main artifact's file is set and is a regular file. */
  predicate MainArtifactReady(files: map<Path, Entry>, project: Project) {
    project.artifactFile.Some? && IsFileIn(files, project.artifactFile.value)
  }

  /** The ForgeMod parent project, which has no main artifact and is skipped. */
  predicate IsForgeModParent(project: Project) {
    project.groupId == "net.md-5" && project.name == "ForgeMod"
  }

  /** remappedArtifactFileWithClassifier(). */
  function RemappedArtifactFile(config: RemapConfig, project: Project): (f: Path)
    ensures Parent(f) == config.outputDirectory
    ensures Name(f) == config.remappedArtifactId + "-" + project.artifactVersion + "-" + config.remappedClassifierName
      + "." + project.extension
  {
    Child(config.outputDirectory,
      config.remappedArtifactId + "-" + project.artifactVersion + "-" + config.remappedClassifierName
        + "." + project.extension)
  }

  /** `new File(outputDirectory, finalName + "." + extension)`. */
  function FinalFile(config: RemapConfig, project: Project, finalName: string): (f: Path)
    ensures Parent(f) == config.outputDirectory && Name(f) == finalName + "." + project.extension
  {
    Child(config.outputDirectory, finalName + "." + project.extension)
  }

  lemma AppendCancel(a: string, b: string, t: string)
    ensures a + t == b + t <==> a == b
  {
    if a + t == b + t {
      assert |a| == |b|;
      assert a == (a + t)[..|a|];
    }
  }

  /**
   * The output is renamed onto itself exactly when finalName spells the remapped
   * file's own base name.
   */
  lemma RemappedFileIsFinalFileIff(config: RemapConfig, project: Project, finalName: string)
    ensures RemappedArtifactFile(config, project) == FinalFile(config, project, finalName)
      <==> finalName == config.remappedArtifactId + "-" + project.artifactVersion + "-" + config.remappedClassifierName
  {
    var base := config.remappedArtifactId + "-" + project.artifactVersion + "-" + config.remappedClassifierName;
    var t := "." + project.extension;
    assert base + "." + project.extension == base + t;
    assert finalName + "." + project.extension == finalName + t;
    AppendCancel(base, finalName, t);
    if RemappedArtifactFile(config, project) == FinalFile(config, project, finalName) {
      assert Name(RemappedArtifactFile(config, project)) == Name(FinalFile(config, project, finalName));
    }
  }

  /** The output is renamed when finalName is set, not empty, and not the build's own final name. */
  predicate ShouldRename(config: RemapConfig, project: Project) {
    config.finalName.Some? && |config.finalName.value| > 0 && Some(config.finalName.value) != project.buildFinalName
  }

  /** The three possible fates of the remapped file. */
  datatype Disposition = Disposition(renameTo: Option<Path>, attach: bool, replaceOriginal: bool)

  /** The rename, attach and replace decisions of execute, taken in the source's order. */
  function Decide(config: RemapConfig, project: Project): (d: Disposition)
    ensures d.renameTo.Some? <==> ShouldRename(config, project)
    ensures d.attach == config.remappedArtifactAttached
    ensures d.renameTo.Some? ==> d.renameTo.value == FinalFile(config, project, config.finalName.value)
    ensures d.replaceOriginal <==> !d.attach && d.renameTo.None?
    ensures !(d.replaceOriginal && d.renameTo.Some?)
  {
    var renamed := ShouldRename(config, project);
    Disposition(
      if renamed then Some(FinalFile(config, project, config.finalName.value)) else None,
      config.remappedArtifactAttached,
      !config.remappedArtifactAttached && !renamed)
  }

  /** The file the attach step names: the renamed file once the output has been renamed, else the output. */
  function AttachedFile(d: Disposition, config: RemapConfig, project: Project): Path {
    if d.renameTo.Some? then d.renameTo.value else RemappedArtifactFile(config, project)
  }

  /** The calls the disposition makes, in order: rename, then attach or replace. */
  function DispositionCalls(d: Disposition, config: RemapConfig, project: Project, original: Path): seq<RemapCall> {
    var output := RemappedArtifactFile(config, project);
    (if d.renameTo.Some? then [ReplaceFile(d.renameTo.value, output)] else [])
      + (if d.attach then [AttachArtifact(project.artifactType, config.remappedClassifierName, AttachedFile(d, config, project))] else [])
      + (if d.replaceOriginal then [ReplaceFile(original, output)] else [])
  }

  /** The calls as the source makes them: the attach step always names the remapped output. */
  function DispositionCallsAsWritten(d: Disposition, config: RemapConfig, project: Project, original: Path): seq<RemapCall> {
    var output := RemappedArtifactFile(config, project);
    (if d.renameTo.Some? then [ReplaceFile(d.renameTo.value, output)] else [])
      + (if d.attach then [AttachArtifact(project.artifactType, config.remappedClassifierName, output)] else [])
      + (if d.replaceOriginal then [ReplaceFile(original, output)] else [])
  }

  /**
   * The two dispositions differ exactly when the output is both renamed and attached
   * and finalName names a file other than the output itself.
   */
  lemma AttachedFileDiffersIff(config: RemapConfig, project: Project, original: Path)
    ensures var d := Decide(config, project);
      DispositionCalls(d, config, project, original) != DispositionCallsAsWritten(d, config, project, original)
      <==> ShouldRename(config, project) && config.remappedArtifactAttached
           && FinalFile(config, project, config.finalName.value) != RemappedArtifactFile(config, project)
  {
    var d := Decide(config, project);
    var output := RemappedArtifactFile(config, project);
    var a := DispositionCalls(d, config, project, original);
    var w := DispositionCallsAsWritten(d, config, project, original);
    if ShouldRename(config, project) && config.remappedArtifactAttached {
      assert a == [ReplaceFile(d.renameTo.value, output), AttachArtifact(project.artifactType, config.remappedClassifierName, d.renameTo.value)];
      assert w == [ReplaceFile(d.renameTo.value, output), AttachArtifact(project.artifactType, config.remappedClassifierName, output)];
      if a == w {
        assert a[1] == w[1];
      }
    }
  }

  function CountReplaceFile(calls: seq<RemapCall>): nat {
    if calls == [] then 0
    else CountReplaceFile(calls[..|calls| - 1]) + (if calls[|calls| - 1].ReplaceFile? then 1 else 0)
  }

  lemma {:induction false} CountReplaceFileAppend(a: seq<RemapCall>, b: seq<RemapCall>)
    ensures CountReplaceFile(a + b) == CountReplaceFile(a) + CountReplaceFile(b)
  {
    if b != [] {
      assert (a + b)[..|a + b| - 1] == a + b[..|b| - 1];
      CountReplaceFileAppend(a, b[..|b| - 1]);
    } else {
      assert a + b == a;
    }
  }

  /** The remapped file is moved by replaceFile exactly once, unless it is only attached. */
  lemma DispositionReplacesAtMostOnce(config: RemapConfig, project: Project, original: Path)
    ensures var n := CountReplaceFile(DispositionCalls(Decide(config, project), config, project, original));
      n <= 1 && (n == 1 <==> !config.remappedArtifactAttached || ShouldRename(config, project))
  {
    var d := Decide(config, project);
    var output := RemappedArtifactFile(config, project);
    var a := if d.renameTo.Some? then [ReplaceFile(d.renameTo.value, output)] else [];
    var b := if d.attach then [AttachArtifact(project.artifactType, config.remappedClassifierName, AttachedFile(d, config, project))] else [];
    var c := if d.replaceOriginal then [ReplaceFile(original, output)] else [];
    CountReplaceFileAppend(a, b);
    CountReplaceFileAppend(a + b, c);
    assert CountReplaceFile([]) == 0;
    assert CountReplaceFile(b) == 0 by {
      if d.attach {
        assert b[..0] == [];
      }
    }
    if d.renameTo.Some? {
      assert a[..0] == [];
    }
    if d.replaceOriginal {
      assert c[..0] == [];
    }
  }

  // ---------------------------------------------------------------------------
  // Resolution and the inheritance providers
  // ---------------------------------------------------------------------------

  /** A prefix of the run: the calls made, the error that stopped it, and what it yielded. */
  datatype Progress = Progress(calls: seq<RemapCall>, err: Option<RemapError>, jars: seq<Path>)

  /** Runs `b` after `a` unless `a` stopped with an error. */
  function Then(a: Progress, b: Progress): (r: Progress)
    ensures a.err.Some? ==> r == a
    ensures NoDisposition(a.calls) && NoDisposition(b.calls) ==> NoDisposition(r.calls)
  {
    if a.err.Some? then a else Progress(a.calls + b.calls, b.err, a.jars + b.jars)
  }

  /** resolveArtifact(groupId, ..., classifier): ask the resolver for the artifact's file. */
  function ResolveCoordinate(c: Coordinate, host: RemapHost): (r: Progress)
    ensures r.calls == [ResolveArtifact(c)]
    ensures r.err.None? <==> host.resolve(c).Some?
    ensures r.err.None? ==> r.jars == [host.resolve(c).value]
    ensures r.err.Some? ==> r.err == Some(ResolutionFailed(c))
  {
    var found := host.resolve(c);
    Progress([ResolveArtifact(c)],
      if found.None? then Some(ResolutionFailed(c)) else None,
      if found.Some? then [found.value] else [])
  }

  /** The file a configured dependency entry resolves to, when it does. */
  function SettingFile(s: string, host: RemapHost): Option<Path> {
    match ParseCoordinate(s)
    case Err(_) => None
    case Ok(c) => host.resolve(c)
  }

  /**
   * resolveArtifact(String): parse the coordinate, then resolve it. A wrong field count
   * fails before any call, with the count; otherwise it is the coordinate's resolution.
   */
  function ResolveSetting(s: string, host: RemapHost): (r: Progress)
    ensures r.err.None? <==> SettingFile(s, host).Some?
    ensures r.err.None? ==> r.jars == [SettingFile(s, host).value]
    ensures ParseCoordinate(s).Err? ==> r == Progress([], Some(InvalidCoordinate(s, |JavaSplit(s)|)), [])
    ensures ParseCoordinate(s).Ok? ==> r == ResolveCoordinate(ParseCoordinate(s).value, host)
  {
    match ParseCoordinate(s)
    case Err(WrongFieldCount(n)) => Progress([], Some(InvalidCoordinate(s, n)), [])
    case Ok(c) => ResolveCoordinate(c, host)
  }

  /** `Jar.init` of a resolved dependency, which becomes one inheritance provider. */
  function OpenJar(resolved: Progress, host: RemapHost): (r: Progress)
    requires resolved.err.None? ==> |resolved.jars| == 1
    ensures NoDisposition(resolved.calls) ==> NoDisposition(r.calls)
  {
    if resolved.err.Some? then resolved
    else
      var init := InitJar(resolved.jars[0]);
      Progress(resolved.calls + [init], if host.fails(init) then Some(LibraryFailed(init)) else None, resolved.jars)
  }

  /** Providers for the `remappedDependencies` entries, in the order given. */
  function SettingProviders(entries: seq<string>, host: RemapHost): (r: Progress)
    ensures NoDisposition(r.calls)
  {
    if entries == [] then Progress([], None, [])
    else Then(SettingProviders(entries[..|entries| - 1], host), OpenJar(ResolveSetting(entries[|entries| - 1], host), host))
  }

  /** The project dependencies whose type is exactly "jar". */
  function JarDependencies(deps: seq<Coordinate>): (r: seq<Coordinate>)
    ensures forall d <- r :: d in deps && d.artifactType == "jar"
  {
    if deps == [] then []
    else JarDependencies(deps[..|deps| - 1]) + (if deps[|deps| - 1].artifactType == "jar" then [deps[|deps| - 1]] else [])
  }

  /** The filter keeps exactly the dependencies of type "jar". */
  lemma {:induction false} JarDependenciesMembers(deps: seq<Coordinate>, d: Coordinate)
    ensures d in JarDependencies(deps) <==> d in deps && d.artifactType == "jar"
  {
    if deps != [] {
      JarDependenciesMembers(deps[..|deps| - 1], d);
      assert deps == deps[..|deps| - 1] + [deps[|deps| - 1]];
    }
  }

  /** The filter keeps the project's order: filtering a concatenation filters each part. */
  lemma {:induction false} JarDependenciesAppend(a: seq<Coordinate>, b: seq<Coordinate>)
    ensures JarDependencies(a + b) == JarDependencies(a) + JarDependencies(b)
    decreases |b|
  {
    if b == [] {
      assert a + b == a;
    } else {
      var front := b[..|b| - 1];
      var last := b[|b| - 1];
      assert (a + b)[..|a + b| - 1] == a + front;
      assert (a + b)[|a + b| - 1] == last;
      JarDependenciesAppend(a, front);
    }
  }

  /** Providers for the project dependencies of type "jar", in the project's order. */
  function ProjectProviders(deps: seq<Coordinate>, host: RemapHost): (r: Progress)
    ensures NoDisposition(r.calls)
  {
    if deps == [] then Progress([], None, [])
    else
      var prior := ProjectProviders(deps[..|deps| - 1], host);
      var d := deps[|deps| - 1];
      if d.artifactType != "jar" then prior else Then(prior, OpenJar(ResolveCoordinate(d, host), host))
  }

  /** The joint inheritance provider: the configured dependencies, the project's jars, then the input jar. */
  function Providers(config: RemapConfig, project: Project, input: Path, host: RemapHost): (r: Progress)
    ensures NoDisposition(r.calls)
  {
    Then(Then(SettingProviders(config.remappedDependencies, host),
              if config.useProjectDependencies then ProjectProviders(project.dependencies, host) else Progress([], None, [])),
         Progress([], None, [input]))
  }

  /** One configured entry that opened cleanly yields exactly the file it resolves to. */
  lemma SettingYield(entry: string, host: RemapHost)
    requires OpenJar(ResolveSetting(entry, host), host).err.None?
    ensures var jars := OpenJar(ResolveSetting(entry, host), host).jars;
      |jars| == 1 && SettingFile(entry, host) == Some(jars[0])
  {
  }

  lemma {:induction false} SettingProvidersYield(entries: seq<string>, host: RemapHost)
    requires SettingProviders(entries, host).err.None?
    ensures var jars := SettingProviders(entries, host).jars;
      |jars| == |entries| && forall i :: 0 <= i < |entries| ==> SettingFile(entries[i], host) == Some(jars[i])
  {
    if entries != [] {
      var prefix := entries[..|entries| - 1];
      var last := entries[|entries| - 1];
      var p := SettingProviders(prefix, host);
      var o := OpenJar(ResolveSetting(last, host), host);
      assert p.err.None? && SettingProviders(entries, host).jars == p.jars + o.jars;
      SettingProvidersYield(prefix, host);
      SettingYield(last, host);
      YieldAppend(e => SettingFile(e, host), entries, prefix, SettingProviders(entries, host).jars, p.jars, o.jars);
    }
  }

  /** Appending one entry and what it yields keeps entries and results matched up. */
  lemma YieldAppend<A, B>(f: A -> Option<B>, entries: seq<A>, prefix: seq<A>, jars: seq<B>, pj: seq<B>, oj: seq<B>)
    requires |entries| > 0 && prefix == entries[..|entries| - 1] && jars == pj + oj
    requires |pj| == |prefix| && forall i :: 0 <= i < |prefix| ==> f(prefix[i]) == Some(pj[i])
    requires |oj| == 1 && f(entries[|entries| - 1]) == Some(oj[0])
    ensures |jars| == |entries| && forall i :: 0 <= i < |entries| ==> f(entries[i]) == Some(jars[i])
  {
    forall i | 0 <= i < |entries| ensures f(entries[i]) == Some(jars[i]) {
      if i < |prefix| {
        assert entries[i] == prefix[i] && jars[i] == pj[i];
      }
    }
  }

  lemma {:induction false} ProjectProvidersYield(deps: seq<Coordinate>, host: RemapHost)
    requires ProjectProviders(deps, host).err.None?
    ensures var jars := ProjectProviders(deps, host).jars; var jd := JarDependencies(deps);
      |jars| == |jd| && forall j :: 0 <= j < |jd| ==> host.resolve(jd[j]) == Some(jars[j])
  {
    if deps != [] {
      var prefix := deps[..|deps| - 1];
      ProjectProvidersYield(prefix, host);
      var jars := ProjectProviders(deps, host).jars;
      var jd := JarDependencies(deps);
      var pj := ProjectProviders(prefix, host).jars;
      var pd := JarDependencies(prefix);
      assert jars[..|pj|] == pj;
      assert jd[..|pd|] == pd;
      forall j | 0 <= j < |jd| ensures host.resolve(jd[j]) == Some(jars[j]) {
        if j < |pd| {
          assert jd[j] == pd[j];
          assert jars[j] == pj[j];
        }
      }
    }
  }

  /**
   * The providers are every remappedDependencies entry in the order given, then, when
   * useProjectDependencies is set, the project's "jar" dependencies in order, and the
   * input jar last.
   */
  lemma ProvidersInOrder(config: RemapConfig, project: Project, input: Path, host: RemapHost)
    requires Providers(config, project, input, host).err.None?
    ensures var jars := Providers(config, project, input, host).jars;
      var n := |config.remappedDependencies|;
      var deps := if config.useProjectDependencies then JarDependencies(project.dependencies) else [];
      && |jars| == n + |deps| + 1
      && (forall i :: 0 <= i < n ==> SettingFile(config.remappedDependencies[i], host) == Some(jars[i]))
      && (forall j :: 0 <= j < |deps| ==> host.resolve(deps[j]) == Some(jars[n + j]))
      && jars[n + |deps|] == input
  {
    var s := SettingProviders(config.remappedDependencies, host);
    var p := if config.useProjectDependencies then ProjectProviders(project.dependencies, host) else Progress([], None, []);
    SettingProvidersYield(config.remappedDependencies, host);
    if config.useProjectDependencies {
      ProjectProvidersYield(project.dependencies, host);
    }
    var jars := Providers(config, project, input, host).jars;
    assert jars == s.jars + p.jars + [input];
  }

  /** A run of the dependency loops stops at the first error and never resumes. */
  lemma {:induction false} SettingProvidersStop(entries: seq<string>, k: nat, host: RemapHost)
    requires k <= |entries| && SettingProviders(entries[..k], host).err.Some?
    ensures SettingProviders(entries, host) == SettingProviders(entries[..k], host)
  {
    if k < |entries| {
      assert entries[..|entries| - 1][..k] == entries[..k];
      SettingProvidersStop(entries[..|entries| - 1], k, host);
    } else {
      assert entries[..k] == entries;
    }
  }

  lemma {:induction false} ProjectProvidersStop(deps: seq<Coordinate>, k: nat, host: RemapHost)
    requires k <= |deps| && ProjectProviders(deps[..k], host).err.Some?
    ensures ProjectProviders(deps, host) == ProjectProviders(deps[..k], host)
  {
    if k < |deps| {
      assert deps[..|deps| - 1][..k] == deps[..k];
      ProjectProvidersStop(deps[..|deps| - 1], k, host);
    } else {
      assert deps[..k] == deps;
    }
  }

  /** One more entry extends the providers by that entry's jar. */
  lemma SettingProvidersStep(entries: seq<string>, i: nat, host: RemapHost)
    requires i < |entries|
    ensures SettingProviders(entries[..i + 1], host)
      == Then(SettingProviders(entries[..i], host), OpenJar(ResolveSetting(entries[i], host), host))
  {
    assert entries[..i + 1][..i] == entries[..i];
    assert entries[..i + 1][i] == entries[i];
  }

  /** The loop over `remappedDependencies` (resolve each entry, open its jar). */
  method CollectSettingProviders(entries: seq<string>, host: RemapHost) returns (p: Progress)
    ensures p == SettingProviders(entries, host)
  {
    p := Progress([], None, []);
    var i := 0;
    while i < |entries|
      invariant 0 <= i <= |entries|
      invariant p == SettingProviders(entries[..i], host) && p.err.None?
    {
      SettingProvidersStep(entries, i, host);
      p := Then(p, OpenJar(ResolveSetting(entries[i], host), host));
      i := i + 1;
      if p.err.Some? {
        SettingProvidersStop(entries, i, host);
        return;
      }
    }
    assert entries[..i] == entries;
  }

  /** The loop over the project dependencies, skipping those whose type is not "jar". */
  method CollectProjectProviders(deps: seq<Coordinate>, host: RemapHost) returns (p: Progress)
    ensures p == ProjectProviders(deps, host)
  {
    p := Progress([], None, []);
    var j := 0;
    while j < |deps|
      invariant 0 <= j <= |deps|
      invariant p == ProjectProviders(deps[..j], host) && p.err.None?
    {
      assert deps[..j + 1][..j] == deps[..j];
      var d := deps[j];
      if d.artifactType == "jar" {
        p := Then(p, OpenJar(ResolveCoordinate(d, host), host));
      }
      j := j + 1;
      if p.err.Some? {
        ProjectProvidersStop(deps, j, host);
        return;
      }
    }
    assert deps[..j] == deps;
  }

  /**
   * The loops of execute that fill the joint inheritance provider. Returns the calls
   * made, the error that stopped them, and the files of the jars added.
   */
  method CollectProviders(config: RemapConfig, project: Project, input: Path, host: RemapHost) returns (p: Progress)
    ensures p == Providers(config, project, input, host)
  {
    p := CollectSettingProviders(config.remappedDependencies, host);
    if p.err.Some? {
      return;
    }
    if config.useProjectDependencies {
      var q := CollectProjectProviders(project.dependencies, host);
      p := Then(p, q);
      if p.err.Some? {
        return;
      }
    } else {
      p := Then(p, Progress([], None, []));
    }
    p := Then(p, Progress([], None, [input]));
  }

  // ---------------------------------------------------------------------------
  // The run up to the remapped jar
  // ---------------------------------------------------------------------------

  /** The state of execute up to remapJar: calls made, error, the mapping source and the providers. */
  datatype Prepared = Prepared(calls: seq<RemapCall>, err: Option<RemapError>, source: string, providers: seq<Path>)

  /** The calls made before the disposition neither replace nor attach a file. */
  predicate NoDisposition(calls: seq<RemapCall>) {
    forall c <- calls :: !c.ReplaceFile? && !c.AttachArtifact?
  }

  /** A stretch of library calls: the calls made and the error that stopped them. */
  datatype Segment = Segment(calls: seq<RemapCall>, err: Option<RemapError>)

  /** One library call, unless the stretch has already stopped. */
  function Invoke(s: Segment, c: RemapCall, host: RemapHost): (r: Segment)
    ensures s.err.Some? ==> r == s
    ensures NoDisposition(s.calls) && !c.ReplaceFile? && !c.AttachArtifact? ==> NoDisposition(r.calls)
  {
    if s.err.Some? then s
    else Segment(s.calls + [c], if Fallible(c) && host.fails(c) then Some(LibraryFailed(c)) else None)
  }

  function ExclusionCalls(packages: seq<string>): (r: seq<RemapCall>)
    ensures |r| == |packages| && forall i :: 0 <= i < |packages| ==> r[i] == AddExcludedPackage(packages[i])
  {
    if packages == [] then [] else ExclusionCalls(packages[..|packages| - 1]) + [AddExcludedPackage(packages[|packages| - 1])]
  }

  /** The srgIn test: a coordinate setting is resolved and replaced by its file's path. */
  function MappingSource(srg: string, host: RemapHost): (r: Prepared)
    ensures NoDisposition(r.calls)
    ensures r.err.Some? ==> r.source == srg
  {
    if !IsCoordinateSetting(srg) then Prepared([], None, srg, [])
    else
      var q := ResolveSetting(srg, host);
      if q.err.Some? then Prepared(q.calls, q.err, srg, [])
      else Prepared(q.calls, None, PathString(q.jars[0]), [])
  }

  /** Loading the mappings from the (possibly resolved) source, then opening the input jar. */
  function LoadSteps(config: RemapConfig, input: Path, source: string, host: RemapHost): (r: Segment)
    ensures NoDisposition(r.calls)
  {
    var loaded := Invoke(Segment([], None), LoadMappings(source, config.reverse, config.numeric, config.inShadeRelocation, config.outShadeRelocation), host);
    Invoke(loaded, InitJar(input), host)
  }

  /** Setting the providers, the access transformer, the API flag and log file, then remapJar. */
  function RemapSteps(config: RemapConfig, project: Project, input: Path, jars: seq<Path>, host: RemapHost): (r: Segment)
    ensures NoDisposition(r.calls)
  {
    Invoke(ConfigureSteps(config, jars, host), RemapJar(input, RemappedArtifactFile(config, project)), host)
  }

  /** The remapper's configuration: the providers, the access transformer, the API flag and log file. */
  function ConfigureSteps(config: RemapConfig, jars: seq<Path>, host: RemapHost): (r: Segment)
    ensures NoDisposition(r.calls)
  {
    var s5 := Invoke(Segment([], None), SetInheritanceProviders(jars), host);
    var s6 := if config.accessIn.Some? then Invoke(s5, LoadAccessTransformer(config.accessIn.value), host) else s5;
    var s7 := Invoke(s6, SetGenerateApi(config.generateApi), host);
    if config.logFile.Some? then Invoke(s7, SetLogFile(config.logFile.value), host) else s7
  }

  lemma NoDispositionAppend(a: seq<RemapCall>, b: seq<RemapCall>)
    requires NoDisposition(a) && NoDisposition(b)
    ensures NoDisposition(a + b)
  {
  }

  lemma SeqAssoc3<T>(a: seq<T>, b: seq<T>, c: seq<T>)
    ensures (a + b) + c == a + (b + c)
  {
  }

  /** execute from loadMappings through remapJar, once the mapping source is known. */
  function AfterSource(config: RemapConfig, project: Project, input: Path, source: string, host: RemapHost): (r: Prepared)
    ensures NoDisposition(r.calls)
    ensures r.source == source
  {
    var ld := LoadSteps(config, input, source, host);
    if ld.err.Some? then Prepared(ld.calls, ld.err, source, [])
    else
      var jars := Providers(config, project, input, host);
      NoDispositionAppend(ld.calls, jars.calls);
      if jars.err.Some? then Prepared(ld.calls + jars.calls, jars.err, source, [])
      else
        var rs := RemapSteps(config, project, input, jars.jars, host);
        NoDispositionAppend(ld.calls + jars.calls, rs.calls);
        Prepared(ld.calls + jars.calls + rs.calls, rs.err, source, jars.jars)
  }

  /** execute from the excluded packages through remapJar, given the input jar and srgIn. */
  function Prepare(config: RemapConfig, project: Project, input: Path, srg: string, host: RemapHost): (r: Prepared)
    ensures NoDisposition(r.calls)
  {
    var ms := MappingSource(srg, host);
    var head := ExclusionCalls(config.excludedPackages) + ms.calls;
    NoDispositionAppend(ExclusionCalls(config.excludedPackages), ms.calls);
    if ms.err.Some? then Prepared(head, ms.err, srg, [])
    else
      var rest := AfterSource(config, project, input, ms.source, host);
      NoDispositionAppend(head, rest.calls);
      Prepared(head + rest.calls, rest.err, ms.source, rest.providers)
  }

  /** The srgIn that the mappings are loaded from: the setting itself unless it is a coordinate, whose file's path replaces it. */
  lemma MappingSourceChoice(config: RemapConfig, project: Project, input: Path, srg: string, host: RemapHost)
    ensures var p := Prepare(config, project, input, srg, host);
      && (!IsCoordinateSetting(srg) ==> p.source == srg)
      && (IsCoordinateSetting(srg) && ParseCoordinate(srg).Err? ==>
            p.err == Some(InvalidCoordinate(srg, |JavaSplit(srg)|)) && p.calls == ExclusionCalls(config.excludedPackages))
      && (IsCoordinateSetting(srg) && ParseCoordinate(srg).Ok? && host.resolve(ParseCoordinate(srg).value).Some? ==>
            p.source == PathString(host.resolve(ParseCoordinate(srg).value).value))
  {
  }

  lemma {:induction false} NoDispositionNoReplace(calls: seq<RemapCall>)
    requires NoDisposition(calls)
    ensures CountReplaceFile(calls) == 0
  {
    if calls != [] {
      assert calls[..|calls| - 1] <= calls;
      NoDispositionNoReplace(calls[..|calls| - 1]);
    }
  }

  /** replaceFile is called at most once in a whole run of execute. */
  lemma RunReplacesAtMostOnce(config: RemapConfig, project: Project, input: Path, srg: string, host: RemapHost, original: Path)
    ensures CountReplaceFile(Prepare(config, project, input, srg, host).calls
      + DispositionCalls(Decide(config, project), config, project, original)) <= 1
  {
    var p := Prepare(config, project, input, srg, host);
    NoDispositionNoReplace(p.calls);
    CountReplaceFileAppend(p.calls, DispositionCalls(Decide(config, project), config, project, original));
    DispositionReplacesAtMostOnce(config, project, original);
  }

  // ---------------------------------------------------------------------------
  // The goal
  // ---------------------------------------------------------------------------

  /** The file the disposition finally writes the remapped jar to, if any. */
  function Destination(d: Disposition, original: Path): Option<Path> {
    if d.renameTo.Some? then d.renameTo else if d.replaceOriginal then Some(original) else None
  }

  /**
   * The files after the disposition, and whether it completed: without a destination
   * nothing is replaced and it completes; otherwise it is one replaceFile of the
   * remapped output onto the destination, and completes exactly when that succeeds.
   */
  predicate Disposed(d: Disposition, config: RemapConfig, project: Project, original: Path, env: ReplaceEnv,
                     before: map<Path, Entry>, after: map<Path, Entry>, completed: bool)
  {
    var dest := Destination(d, original);
    && (dest.None? ==> completed && after == before)
    && (dest.Some? ==>
          var t := Replaced(before, config.outputDirectory, dest.value, RemappedArtifactFile(config, project), env);
          after == t.files && (completed <==> t.ok))
  }

  /**
   * Once remapJar has written the output, whether replacing a separate destination with
   * it succeeds depends only on the platform's answers, and on a directory at the
   * destination that the backup fails to move away.
   */
  lemma ReplaceRemappedOutcome(before: map<Path, Entry>, outputDirectory: Path, dest: Path, output: Path,
                               contents: Bytes, env: ReplaceEnv)
    requires Separate(outputDirectory, dest, output)
    ensures var files := before[output := RegularFile(contents)];
      Replaced(files, outputDirectory, dest, output, env).ok <==>
        || env.moveRename || env.moveRetry
        || (env.moveCopy.Copied? && !(dest in before && before[dest].Directory? && !env.backupRename && !env.backupRetry))
  {
    var files := before[output := RegularFile(contents)];
    assert Lookup(files, dest) == Lookup(before, dest);
  }

  class RemapMojo {
    const config: RemapConfig
    const project: Project
    const fs: FileSystem
    var inputFile: Option<Path>
    var srgIn: string
    var calls: seq<RemapCall>

    constructor (config: RemapConfig, project: Project, fs: FileSystem, inputFile: Option<Path>, srgIn: string)
      ensures this.config == config && this.project == project && this.fs == fs
      ensures this.inputFile == inputFile && this.srgIn == srgIn && calls == []
    {
      this.config := config;
      this.project := project;
      this.fs := fs;
      this.inputFile := inputFile;
      this.srgIn := srgIn;
      calls := [];
    }

    /** Appends one call to the log; true when it throws. */
    method Call(c: RemapCall, host: RemapHost) returns (failed: bool)
      modifies this`calls
      ensures calls == old(calls) + [c]
      ensures failed == (Fallible(c) && host.fails(c))
    {
      calls := calls + [c];
      failed := Fallible(c) && host.fails(c);
    }

    /** Runs replaceFile, logging the call; true on success. */
    method Replace(oldFile: Path, newFile: Path, host: RemapHost) returns (ok: bool)
      modifies this`calls, fs
      ensures calls == old(calls) + [ReplaceFile(oldFile, newFile)]
      ensures var t := Replaced(old(fs.files), config.outputDirectory, oldFile, newFile, host.replaceEnv);
        ok == t.ok && fs.files == t.files
    {
      calls := calls + [ReplaceFile(oldFile, newFile)];
      ok := FileReplacement.ReplaceFile(fs, config.outputDirectory, oldFile, newFile, host.replaceEnv);
    }

    /** The loop over excludedPackages. */
    method ExcludePackages()
      modifies this`calls
      ensures calls == old(calls) + ExclusionCalls(config.excludedPackages)
    {
      var packages := config.excludedPackages;
      var i := 0;
      while i < |packages|
        invariant 0 <= i <= |packages|
        invariant calls == old(calls) + ExclusionCalls(packages[..i])
      {
        assert packages[..i + 1][..i] == packages[..i];
        calls := calls + [AddExcludedPackage(packages[i])];
        i := i + 1;
      }
      assert packages[..i] == packages;
    }

    /** The srgIn test, resolving and overwriting srgIn when it names a coordinate. */
    method ResolveMappingSource(host: RemapHost) returns (err: Option<RemapError>)
      modifies this`calls, this`srgIn
      ensures var m := MappingSource(old(srgIn), host);
        calls == old(calls) + m.calls && err == m.err && srgIn == m.source
    {
      err := None;
      if IsCoordinateSetting(srgIn) {
        match ParseCoordinate(srgIn)
        case Err(WrongFieldCount(n)) =>
          err := Some(InvalidCoordinate(srgIn, n));
        case Ok(c) =>
          calls := calls + [ResolveArtifact(c)];
          var found := host.resolve(c);
          if found.None? {
            err := Some(ResolutionFailed(c));
          } else {
            srgIn := PathString(found.value);
          }
      }
    }

    /** loadMappings, then Jar.init of the input jar. */
    method LoadInput(input: Path, host: RemapHost) returns (err: Option<RemapError>)
      modifies this`calls
      ensures var l := LoadSteps(config, input, srgIn, host);
        calls == old(calls) + l.calls && err == l.err
    {
      var load := LoadMappings(srgIn, config.reverse, config.numeric, config.inShadeRelocation, config.outShadeRelocation);
      var failed := Call(load, host);
      if failed {
        return Some(LibraryFailed(load));
      }
      failed := Call(InitJar(input), host);
      err := if failed then Some(LibraryFailed(InitJar(input))) else None;
    }

    /** The calls that configure the remapper before remapJar. */
    method ConfigureRemapper(jars: seq<Path>, host: RemapHost) returns (err: Option<RemapError>)
      modifies this`calls
      ensures var t := ConfigureSteps(config, jars, host);
        calls == old(calls) + t.calls && err == t.err
    {
      ghost var start := calls;
      ghost var s5 := Invoke(Segment([], None), SetInheritanceProviders(jars), host);
      ghost var s6 := if config.accessIn.Some? then Invoke(s5, LoadAccessTransformer(config.accessIn.value), host) else s5;
      ghost var s7 := Invoke(s6, SetGenerateApi(config.generateApi), host);
      var failed := Call(SetInheritanceProviders(jars), host);
      assert calls == start + s5.calls && s5.err.None?;
      if config.accessIn.Some? {
        failed := Call(LoadAccessTransformer(config.accessIn.value), host);
        if failed {
          assert ConfigureSteps(config, jars, host) == s6;
          return Some(LibraryFailed(LoadAccessTransformer(config.accessIn.value)));
        }
      }
      assert calls == start + s6.calls && s6.err.None?;
      failed := Call(SetGenerateApi(config.generateApi), host);
      assert calls == start + s7.calls && s7.err.None?;
      if config.logFile.Some? {
        failed := Call(SetLogFile(config.logFile.value), host);
        if failed {
          return Some(LibraryFailed(SetLogFile(config.logFile.value)));
        }
      }
      err := None;
    }

    /** From setting the providers through remapJar, which writes the output file. */
    method RunRemapper(input: Path, jars: seq<Path>, host: RemapHost) returns (err: Option<RemapError>)
      modifies this`calls, fs
      ensures var t := RemapSteps(config, project, input, jars, host);
        && calls == old(calls) + t.calls && err == t.err
        && fs.files == if t.err.None? then old(fs.files)[RemappedArtifactFile(config, project) := RegularFile(host.remappedContents)]
                       else old(fs.files)
    {
      err := ConfigureRemapper(jars, host);
      if err.Some? {
        return;
      }
      var output := RemappedArtifactFile(config, project);
      var failed := Call(RemapJar(input, output), host);
      if failed {
        return Some(LibraryFailed(RemapJar(input, output)));
      }
      fs.files := fs.files[output := RegularFile(host.remappedContents)];
    }

    /** From loadMappings through remapJar, with srgIn already resolved. */
    method RunFromSource(input: Path, host: RemapHost) returns (err: Option<RemapError>)
      modifies this`calls, fs
      ensures var p := AfterSource(config, project, input, srgIn, host);
        && calls == old(calls) + p.calls && err == p.err
        && fs.files == if p.err.None? then old(fs.files)[RemappedArtifactFile(config, project) := RegularFile(host.remappedContents)]
                       else old(fs.files)
    {
      ghost var start := calls;
      ghost var ld := LoadSteps(config, input, srgIn, host);
      err := LoadInput(input, host);
      if err.Some? {
        return;
      }
      var jars := CollectProviders(config, project, input, host);
      calls := calls + jars.calls;
      SeqAssoc3(start, ld.calls, jars.calls);
      if jars.err.Some? {
        return jars.err;
      }
      ghost var mid := calls;
      err := RunRemapper(input, jars.jars, host);
      SeqAssoc3(start, ld.calls + jars.calls, calls[|mid|..]);
    }

    /** execute() up to remapJar; the disposition follows in Execute. */
    method PrepareRun(input: Path, host: RemapHost) returns (err: Option<RemapError>)
      modifies this`calls, this`srgIn, fs
      ensures var p := Prepare(config, project, input, old(srgIn), host);
        && calls == old(calls) + p.calls && err == p.err && srgIn == p.source
        && fs.files == if p.err.None? then old(fs.files)[RemappedArtifactFile(config, project) := RegularFile(host.remappedContents)]
                       else old(fs.files)
    {
      ghost var start := calls;
      ghost var ms := MappingSource(srgIn, host);
      ghost var head := ExclusionCalls(config.excludedPackages) + ms.calls;
      ghost var p := Prepare(config, project, input, srgIn, host);
      ExcludePackages();
      err := ResolveMappingSource(host);
      SeqAssoc3(start, ExclusionCalls(config.excludedPackages), ms.calls);
      if err.Some? {
        assert p == Prepared(head, ms.err, old(srgIn), []);
        return;
      }
      ghost var rest := AfterSource(config, project, input, ms.source, host);
      assert p == Prepared(head + rest.calls, rest.err, ms.source, rest.providers);
      err := RunFromSource(input, host);
      SeqAssoc3(start, head, rest.calls);
    }

    /**
     * The rename, attach and replace steps of execute, after the jar has been remapped,
     * with the attach step naming the file the remapped jar is in after a rename.
     */
    method Dispose(original: Path, host: RemapHost) returns (r: RemapOutcome)
      modifies this`calls, fs
      ensures var d := Decide(config, project);
        var output := RemappedArtifactFile(config, project);
        var dest := Destination(d, original);
        && !r.SkippedForgeModParent?
        && (r.Completed? ==> calls == old(calls) + DispositionCalls(d, config, project, original))
        && (r.Failed? ==>
              && dest.Some? && r.error == ReplaceFailed(dest.value)
              && calls == old(calls) + [ReplaceFile(dest.value, output)])
        && Disposed(d, config, project, original, host.replaceEnv, old(fs.files), fs.files, r.Completed?)
        && (r.Completed? && dest.Some? && Separate(config.outputDirectory, dest.value, output) ==>
              Lookup(fs.files, dest.value) == Lookup(old(fs.files), output))
        // the attached file holds the remapped jar
        && (r.Completed? && d.attach && (d.renameTo.Some? ==> Separate(config.outputDirectory, d.renameTo.value, output)) ==>
              Lookup(fs.files, AttachedFile(d, config, project)) == Lookup(old(fs.files), output))
    {
      ghost var d := Decide(config, project);
      var output := RemappedArtifactFile(config, project);
      ghost var start := calls;
      var renamed := false;
      if ShouldRename(config, project) {
        var finalFile := FinalFile(config, project, config.finalName.value);
        var ok := Replace(finalFile, output, host);
        if !ok {
          return Failed(ReplaceFailed(finalFile));
        }
        renamed := true;
      }
      if config.remappedArtifactAttached {
        var attached := if renamed then FinalFile(config, project, config.finalName.value) else output;
        calls := calls + [AttachArtifact(project.artifactType, config.remappedClassifierName, attached)];
      } else if !renamed {
        var ok := Replace(original, output, host);
        if !ok {
          return Failed(ReplaceFailed(original));
        }
      }
      assert calls == start + DispositionCalls(d, config, project, original);
      r := Completed;
    }

    /**
     * The disposition as the source writes it: after a rename the attach step still
     * names the remapped output, which a successful rename (first attempt or retry) has moved away.
     */
    method DisposeAsWritten(original: Path, host: RemapHost) returns (r: RemapOutcome)
      modifies this`calls, fs
      ensures var d := Decide(config, project);
        var output := RemappedArtifactFile(config, project);
        var dest := Destination(d, original);
        && !r.SkippedForgeModParent?
        && (r.Completed? ==> calls == old(calls) + DispositionCallsAsWritten(d, config, project, original))
        && (r.Failed? ==>
              && dest.Some? && r.error == ReplaceFailed(dest.value)
              && calls == old(calls) + [ReplaceFile(dest.value, output)])
        && Disposed(d, config, project, original, host.replaceEnv, old(fs.files), fs.files, r.Completed?)
        && (r.Completed? && dest.Some? && Separate(config.outputDirectory, dest.value, output) ==>
              Lookup(fs.files, dest.value) == Lookup(old(fs.files), output))
        // the attach step names a path a successful rename has emptied
        && (r.Completed? && d.attach && d.renameTo.Some? && Separate(config.outputDirectory, d.renameTo.value, output)
            && output in old(fs.files) && (host.replaceEnv.moveRename || host.replaceEnv.moveRetry) ==>
              output !in fs.files)
    {
      ghost var d := Decide(config, project);
      var output := RemappedArtifactFile(config, project);
      ghost var start := calls;
      var renamed := false;
      if ShouldRename(config, project) {
        var finalFile := FinalFile(config, project, config.finalName.value);
        var ok := Replace(finalFile, output, host);
        if !ok {
          return Failed(ReplaceFailed(finalFile));
        }
        renamed := true;
      }
      if config.remappedArtifactAttached {
        calls := calls + [AttachArtifact(project.artifactType, config.remappedClassifierName, output)];
      } else if !renamed {
        var ok := Replace(original, output, host);
        if !ok {
          return Failed(ReplaceFailed(original));
        }
      }
      assert calls == start + DispositionCallsAsWritten(d, config, project, original);
      r := Completed;
    }

    /**
     * execute(). A missing main artifact stops the run (quietly for the ForgeMod parent
     * project); otherwise inputFile defaults to the main artifact, the jar is remapped,
     * and the disposition renames, attaches or replaces.
     */
    method Execute(host: RemapHost) returns (r: RemapOutcome)
      modifies this, fs
      ensures !MainArtifactReady(old(fs.files), project) ==>
        && r == (if IsForgeModParent(project) then SkippedForgeModParent else Failed(MainArtifactMissing))
        && calls == old(calls) && fs.files == old(fs.files)
        && inputFile == old(inputFile) && srgIn == old(srgIn)
      ensures MainArtifactReady(old(fs.files), project) ==>
        var original := project.artifactFile.value;
        var input := old(inputFile).GetOr(original);
        var p := Prepare(config, project, input, old(srgIn), host);
        var d := Decide(config, project);
        var disposition := DispositionCalls(d, config, project, original);
        && inputFile == Some(input)
        && srgIn == p.source
        && (p.err.Some? ==> r == Failed(p.err.value) && calls == old(calls) + p.calls && fs.files == old(fs.files))
        && (p.err.None? ==>
              && !r.SkippedForgeModParent?
              && (r.Completed? ==> calls == old(calls) + p.calls + disposition)
              && (r.Failed? ==>
                    && Destination(d, original).Some? && r.error == ReplaceFailed(Destination(d, original).value)
                    && calls == old(calls) + p.calls + [ReplaceFile(Destination(d, original).value, RemappedArtifactFile(config, project))])
              && Disposed(d, config, project, original, host.replaceEnv,
                   old(fs.files)[RemappedArtifactFile(config, project) := RegularFile(host.remappedContents)], fs.files, r.Completed?)
              && (r.Completed? && Destination(d, original).Some?
                  && Separate(config.outputDirectory, Destination(d, original).value, RemappedArtifactFile(config, project)) ==>
                    Destination(d, original).value in fs.files && fs.files[Destination(d, original).value] == RegularFile(host.remappedContents))
              && (r.Completed? && d.attach
                  && (d.renameTo.Some? ==> Separate(config.outputDirectory, d.renameTo.value, RemappedArtifactFile(config, project))) ==>
                    Lookup(fs.files, AttachedFile(d, config, project)) == Some(RegularFile(host.remappedContents))))
    {
      if project.artifactFile.None? || !fs.IsFile(project.artifactFile.value) {
        if IsForgeModParent(project) {
          return SkippedForgeModParent;
        }
        return Failed(MainArtifactMissing);
      }
      var original := project.artifactFile.value;
      if inputFile.None? {
        inputFile := Some(original);
      }
      var err := PrepareRun(inputFile.value, host);
      if err.Some? {
        return Failed(err.value);
      }
      r := Dispose(original, host);
    }
  }
}
