/**
 * The install-remapped-file goal: validate the configured coordinates, remap the input
 * jars into a temporary jar, generate a minimal POM, install the jar (and optionally
 * sources and javadoc) into the local repository, and write MD5/SHA-1 checksum files.
 *
 * The remapping library, the installer, the validator, the repository layout and the
 * digesters are foreign: the model records each call with its arguments in a log, and
 * takes their answers (failures, paths, digests) from an `InstallHost` value.
 */
module Install {
  import opened Wrappers
  import opened Paths
  import opened Coordinates

  // ---------------------------------------------------------------------------
  // Configuration and the generated model
  // ---------------------------------------------------------------------------

  datatype InstallConfig = InstallConfig(
    createChecksum: bool,
    updateReleaseInfo: bool,
    groupId: string,
    artifactId: string,
    version: string,
    packaging: string,
    classifier: Option<string>,
    inJars: seq<string>,
    javadoc: Option<Path>,
    sources: Option<Path>,
    srgIn: string,
    reverse: bool,
    numeric: bool,
    inShadeRelocation: Option<string>,
    outShadeRelocation: Option<string>)

  /** The fields of the minimal POM model that generateModel fills in. */
  datatype PomModel = PomModel(
    modelVersion: string,
    groupId: string,
    artifactId: string,
    version: string,
    packaging: string,
    description: string)

  const PomModelVersion := "4.0.0"
  const PomDescription := "POM was created from specialsource-maven-plugin"

  /** generateModel: model version 4.0.0, the four coordinates as configured, a fixed description. */
  function GenerateModel(config: InstallConfig): (m: PomModel)
    ensures m.modelVersion == "4.0.0"
    ensures m.groupId == config.groupId && m.artifactId == config.artifactId
    ensures m.version == config.version && m.packaging == config.packaging
    ensures m.description == "POM was created from specialsource-maven-plugin"
  {
    PomModel(PomModelVersion, config.groupId, config.artifactId, config.version, config.packaging, PomDescription)
  }

  // ---------------------------------------------------------------------------
  // Artifacts, calls and the host
  // ---------------------------------------------------------------------------

  /** Metadata attached to an artifact: the generated POM, or metadata the installer adds. */
  datatype Metadata =
    | PomMetadata(owner: Coordinate, pomFile: Path)
    | InstallerMetadata(owner: Coordinate, key: string)

  /** The mutable parts of a Maven artifact that the goal touches. */
  datatype Artifact = Artifact(coord: Coordinate, metadata: seq<Metadata>, release: bool)

  datatype Algorithm = MD5 | SHA1

  /** The extension of the checksum file for each digest. */
  function Extension(alg: Algorithm): string {
    match alg
    case MD5 => ".md5"
    case SHA1 => ".sha1"
  }

  /** Which of the three installs failed; each has its own message. */
  datatype Role = MainArtifact | SourcesArtifact | JavadocArtifact

  /** The calls the goal makes into the host and the remapping library, with their arguments. */
  datatype InstallCall =
    | Validate(model: PomModel)
    | FetchJar(name: string)
    | InitJars(files: seq<Path>)
    | CreateTempJar(prefix: string, suffix: string)
    | LoadMappings(source: string, reverse: bool, numeric: bool, inShade: Option<string>, outShade: Option<string>)
    | SetFallbackProvider(files: seq<Path>)
    | RemapJar(files: seq<Path>, output: Path)
    | WritePom(pomFile: Path, model: PomModel)
    | Install(file: Path, artifact: Artifact)
    | Digest(file: Path, algorithm: Algorithm)
    | WriteChecksum(target: Path, checksum: string)
    | DeletePom(pomFile: Path)

  /** Validation reports messages instead of throwing, and File.delete never throws. */
  predicate Fallible(c: InstallCall) {
    !c.Validate? && !c.DeletePom?
  }

  /** The phases of the goal; every call belongs to exactly one. */
  datatype Kind = Validation | Remapping | PomHandling | Installing | Checksumming

  function KindOf(c: InstallCall): Kind {
    match c
    case Validate(_) => Validation
    case FetchJar(_) => Remapping
    case InitJars(_) => Remapping
    case CreateTempJar(_, _) => Remapping
    case LoadMappings(_, _, _, _, _) => Remapping
    case SetFallbackProvider(_) => Remapping
    case RemapJar(_, _) => Remapping
    case WritePom(_, _) => PomHandling
    case DeletePom(_) => PomHandling
    case Install(_, _) => Installing
    case Digest(_, _) => Checksumming
    case WriteChecksum(_, _) => Checksumming
  }

  datatype InstallError =
    | InvalidArtifactInformation(messages: seq<string>)
    | RemapFailed(call: InstallCall)
    | PomWriteFailed(call: InstallCall)
    | InstallFailed(role: Role, call: InstallCall)
    | ChecksumFailed(call: InstallCall)

  /**
   * The answers of everything the goal cannot see: the validator's messages, where
   * URLDownloader puts each input, the temporary files, which calls throw, the local
   * repository's base directory and layout, the local repository's files, the metadata
   * the installer adds to an artifact, and the digests.
   */
  datatype InstallHost = InstallHost(
    validationMessages: PomModel -> seq<string>,
    localFile: string -> Path,
    tempJar: Path,
    tempPom: Path,
    fails: InstallCall -> bool,
    basedir: Path,
    pathOf: Coordinate -> Path,
    pathOfMetadata: Metadata -> Path,
    present: Path -> bool,
    isFile: Path -> bool,
    addedMetadata: Coordinate -> seq<Metadata>,
    digest: (Algorithm, Path) -> string)

  /** getLocalRepoFile(Artifact): the layout's path under the repository's base directory. */
  function LocalRepoFile(host: InstallHost, coord: Coordinate): Path {
    Resolve(host.basedir, host.pathOf(coord))
  }

  /** getLocalRepoFile(ArtifactMetadata). */
  function LocalRepoMetadataFile(host: InstallHost, m: Metadata): Path {
    Resolve(host.basedir, host.pathOfMetadata(m))
  }

  /** The local-repository files of a metadata list, in list order. */
  function MetadataFiles(host: InstallHost, ms: seq<Metadata>): (fs: seq<Path>)
    ensures |fs| == |ms| && forall i :: 0 <= i < |ms| ==> fs[i] == LocalRepoMetadataFile(host, ms[i])
  {
    seq(|ms|, i requires 0 <= i < |ms| => LocalRepoMetadataFile(host, ms[i]))
  }

  /** Where URLDownloader puts each input jar, in order. */
  function LocalFiles(host: InstallHost, names: seq<string>): (fs: seq<Path>)
    ensures |fs| == |names| && forall i :: 0 <= i < |names| ==> fs[i] == host.localFile(names[i])
  {
    seq(|names|, i requires 0 <= i < |names| => host.localFile(names[i]))
  }

  /** A file gets checksums only when it is a regular file and not a `.asc` signature. */
  predicate Eligible(host: InstallHost, f: Path) {
    host.isFile(f) && !EndsWith(Name(f), ".asc")
  }

  /** `new File(installedFile.getAbsolutePath() + ext)`. */
  function ChecksumFile(f: Path, alg: Algorithm): (q: Path)
    ensures Parent(q) == Parent(f) && Name(q) == Name(f) + Extension(alg)
  {
    WithSuffix(f, Extension(alg))
  }

  /** The main artifact: the configured coordinates, the POM unless already installed, the release flag. */
  function MainArtifactOf(config: InstallConfig, host: InstallHost): (a: Artifact)
    ensures a.coord == Coordinate(config.groupId, config.artifactId, config.version, config.packaging, config.classifier)
    ensures a.release == config.updateReleaseInfo
    ensures var pom := PomMetadata(a.coord, host.tempPom);
      a.metadata == if host.present(LocalRepoMetadataFile(host, pom)) then [] else [pom]
  {
    var coord := Coordinate(config.groupId, config.artifactId, config.version, config.packaging, config.classifier);
    var pom := PomMetadata(coord, host.tempPom);
    Artifact(coord, if host.present(LocalRepoMetadataFile(host, pom)) then [] else [pom], config.updateReleaseInfo)
  }

  /** The sources or javadoc artifact: type "jar" with the given classifier, nothing attached. */
  function ClassifiedArtifact(config: InstallConfig, classifier: string): Artifact {
    Artifact(Coordinate(config.groupId, config.artifactId, config.version, "jar", Some(classifier)), [], false)
  }

  /** The artifact after the installer has added its own metadata. */
  function Installed(host: InstallHost, a: Artifact): Artifact {
    a.(metadata := a.metadata + host.addedMetadata(a.coord))
  }

  // ---------------------------------------------------------------------------
  // The metadata file set (a LinkedHashSet)
  // ---------------------------------------------------------------------------

  predicate Distinct(s: seq<Path>) {
    forall i, j :: 0 <= i < j < |s| ==> s[i] != s[j]
  }

  /** `LinkedHashSet.add`: a new element goes at the end, a present one changes nothing. */
  function Insert(s: seq<Path>, f: Path): (r: seq<Path>)
    ensures s <= r && f in r
    ensures forall x :: x in r <==> x in s || x == f
    ensures Distinct(s) ==> Distinct(r)
  {
    if f in s then s else s + [f]
  }

  /** Adding several files in order. */
  function AddAll(s: seq<Path>, fs: seq<Path>): seq<Path>
    decreases |fs|
  {
    if fs == [] then s else Insert(AddAll(s, fs[..|fs| - 1]), fs[|fs| - 1])
  }

  /** Elements never move: the set's iteration order is the order of first insertion. */
  lemma {:induction false} AddAllKeepsOrder(s: seq<Path>, fs: seq<Path>)
    ensures s <= AddAll(s, fs)
    decreases |fs|
  {
    if fs != [] {
      AddAllKeepsOrder(s, fs[..|fs| - 1]);
    }
  }

  /** The set holds exactly the old elements and the added ones. */
  lemma {:induction false} AddAllMembers(s: seq<Path>, fs: seq<Path>)
    ensures forall x :: x in AddAll(s, fs) <==> x in s || x in fs
    decreases |fs|
  {
    if fs != [] {
      var init := fs[..|fs| - 1];
      AddAllMembers(s, init);
      assert fs == init + [fs[|fs| - 1]];
    }
  }

  /** No file is held twice. */
  lemma {:induction false} AddAllDistinct(s: seq<Path>, fs: seq<Path>)
    requires Distinct(s)
    ensures Distinct(AddAll(s, fs))
    decreases |fs|
  {
    if fs != [] {
      AddAllDistinct(s, fs[..|fs| - 1]);
    }
  }

  /** Adding files that are all present already leaves the set as it was. */
  lemma {:induction false} AddAllPresent(s: seq<Path>, fs: seq<Path>)
    requires forall x :: x in fs ==> x in s
    ensures AddAll(s, fs) == s
    decreases |fs|
  {
    if fs != [] {
      var init := fs[..|fs| - 1];
      assert forall x :: x in init ==> x in fs;
      AddAllPresent(s, init);
      assert fs[|fs| - 1] in fs;
    }
  }

  // ---------------------------------------------------------------------------
  // The run as a function of the configuration and the host
  // ---------------------------------------------------------------------------

  /** The state of a run: the call log, the error that stopped it, the metadata file set. */
  datatype Run = Run(calls: seq<InstallCall>, err: Option<InstallError>, metadataFiles: seq<Path>)

  /** `r` extends `s` by calls of kind `k` only. */
  predicate AddsOnly(s: Run, r: Run, k: Kind) {
    s.calls <= r.calls && forall i :: |s.calls| <= i < |r.calls| ==> KindOf(r.calls[i]) == k
  }

  /** A run that was going when `s` was reached stops, if at all, with a later error than validation's. */
  predicate NotInvalid(e: Option<InstallError>) {
    e.None? || !e.value.InvalidArtifactInformation?
  }

  /** One call, unless the run has stopped; `e` is the error it raises when it throws. */
  function Step(s: Run, c: InstallCall, e: InstallError, host: InstallHost): (r: Run)
    ensures AddsOnly(s, r, KindOf(c)) && r.metadataFiles == s.metadataFiles
    ensures s.err.Some? ==> r == s
    ensures s.err.None? ==> |r.calls| == |s.calls| + 1 && r.calls[|s.calls|] == c
    ensures s.err.None? ==> (r.err.Some? <==> Fallible(c) && host.fails(c)) && (r.err.Some? ==> r.err == Some(e))
    ensures s.err.None? && !e.InvalidArtifactInformation? ==> NotInvalid(r.err)
  {
    if s.err.Some? then s
    else Run(s.calls + [c], if Fallible(c) && host.fails(c) then Some(e) else None, s.metadataFiles)
  }

  /** installChecksum: compute the digest, then write it next to the file. */
  function OneChecksum(s: Run, f: Path, alg: Algorithm, host: InstallHost): (r: Run)
    ensures AddsOnly(s, r, Checksumming) && r.metadataFiles == s.metadataFiles
    ensures s.err.Some? ==> r == s
    ensures s.err.None? ==> NotInvalid(r.err)
  {
    var compute := Digest(f, alg);
    var write := WriteChecksum(ChecksumFile(f, alg), host.digest(alg, f));
    var a := Step(s, compute, ChecksumFailed(compute), host);
    Step(a, write, ChecksumFailed(write), host)
  }

  /** installChecksums(File): MD5 then SHA-1, for eligible files only. */
  function FileChecksums(s: Run, f: Path, host: InstallHost): (r: Run)
    ensures AddsOnly(s, r, Checksumming) && r.metadataFiles == s.metadataFiles
    ensures s.err.Some? || !Eligible(host, f) ==> r == s
    ensures s.err.None? ==> NotInvalid(r.err)
  {
    if !Eligible(host, f) then s
    else OneChecksum(OneChecksum(s, f, MD5, host), f, SHA1, host)
  }

  /**
   * installChecksums(Artifact, Collection): nothing unless createChecksum is set;
   * otherwise the artifact's file, then its metadata files go into the set.
   */
  function ArtifactChecksums(s: Run, a: Artifact, createChecksum: bool, host: InstallHost): (r: Run)
    ensures AddsOnly(s, r, Checksumming)
    ensures s.err.Some? || !createChecksum ==> r == s
    ensures s.err.None? ==> NotInvalid(r.err)
    // the calls are those that checksum the artifact's file in the local repository
    ensures s.err.None? && createChecksum ==>
      var t := FileChecksums(s, LocalRepoFile(host, a.coord), host); r.calls == t.calls && r.err == t.err
    ensures s.err.None? && createChecksum && r.err.None? ==>
      r.metadataFiles == AddAll(s.metadataFiles, MetadataFiles(host, a.metadata))
    ensures Distinct(s.metadataFiles) ==> Distinct(r.metadataFiles)
  {
    if s.err.Some? || !createChecksum then s
    else
      var t := FileChecksums(s, LocalRepoFile(host, a.coord), host);
      if t.err.Some? then t
      else
        var files := MetadataFiles(host, a.metadata);
        if Distinct(t.metadataFiles) then AddAllDistinct(t.metadataFiles, files); t.(metadataFiles := AddAll(t.metadataFiles, files))
        else t.(metadataFiles := AddAll(t.metadataFiles, files))
  }

  /** installer.install, then the artifact's checksums. */
  function InstallArtifact(s: Run, file: Path, a: Artifact, role: Role, config: InstallConfig, host: InstallHost): (r: Run)
    ensures s.calls <= r.calls
    ensures s.err.Some? ==> r == s
    ensures s.err.None? ==> NotInvalid(r.err)
    ensures Distinct(s.metadataFiles) ==> Distinct(r.metadataFiles)
  {
    var call := Install(file, a);
    var t := Step(s, call, InstallFailed(role, call), host);
    ArtifactChecksums(t, Installed(host, a), config.createChecksum, host)
  }

  /** A successful install with createChecksum on adds the installed artifact's metadata files to the set. */
  lemma InstallArtifactMetadata(s: Run, file: Path, a: Artifact, role: Role, config: InstallConfig, host: InstallHost)
    requires s.err.None? && config.createChecksum && InstallArtifact(s, file, a, role, config, host).err.None?
    ensures InstallArtifact(s, file, a, role, config, host).metadataFiles
      == AddAll(s.metadataFiles, MetadataFiles(host, Installed(host, a).metadata))
  {
    var call := Install(file, a);
    var t := Step(s, call, InstallFailed(role, call), host);
    assert t.err.None?;
  }

  /** The metadata files an install puts into the set, when its file is configured. */
  function InstallMetadataFiles(host: InstallHost, file: Option<Path>, a: Artifact): seq<Path> {
    if file.Some? then MetadataFiles(host, Installed(host, a).metadata) else []
  }

  /** The loop over inJars, each fetched through URLDownloader. */
  function FetchJars(s: Run, names: seq<string>, host: InstallHost): (r: Run)
    ensures AddsOnly(s, r, Remapping) && r.metadataFiles == s.metadataFiles
    ensures s.err.Some? ==> r == s
    ensures s.err.None? ==> NotInvalid(r.err)
    decreases |names|
  {
    if names == [] then s
    else
      var fetch := FetchJar(names[|names| - 1]);
      Step(FetchJars(s, names[..|names| - 1], host), fetch, RemapFailed(fetch), host)
  }

  /** The remap block: fetch the inputs, open them as one jar, create the output, load, remap. */
  function RemapStage(s: Run, config: InstallConfig, host: InstallHost): (r: Run)
    ensures AddsOnly(s, r, Remapping) && r.metadataFiles == s.metadataFiles
    ensures s.err.Some? ==> r == s
    ensures s.err.None? ==> NotInvalid(r.err)
  {
    var files := LocalFiles(host, config.inJars);
    var fetched := FetchJars(s, config.inJars, host);
    var init := InitJars(files);
    var joined := Step(fetched, init, RemapFailed(init), host);
    var temp := CreateTempJar(config.groupId + "." + config.artifactId + "-" + config.version, "." + config.packaging);
    var created := Step(joined, temp, RemapFailed(temp), host);
    var load := LoadMappings(config.srgIn, config.reverse, config.numeric, config.inShadeRelocation, config.outShadeRelocation);
    var loaded := Step(created, load, RemapFailed(load), host);
    var provider := SetFallbackProvider(files);
    var provided := Step(loaded, provider, RemapFailed(provider), host);
    var remap := RemapJar(files, host.tempJar);
    Step(provided, remap, RemapFailed(remap), host)
  }

  /** generatePomFile. */
  function PomStage(s: Run, config: InstallConfig, host: InstallHost): (r: Run)
    ensures AddsOnly(s, r, PomHandling) && r.metadataFiles == s.metadataFiles
    ensures s.err.Some? ==> r == s
    ensures s.err.None? ==> r.calls == s.calls + [WritePom(host.tempPom, GenerateModel(config))]
    ensures s.err.None? ==> NotInvalid(r.err)
  {
    var write := WritePom(host.tempPom, GenerateModel(config));
    Step(s, write, PomWriteFailed(write), host)
  }

  /** The main install and its checksums, then (in the finally block) the POM is deleted. */
  function MainStage(s: Run, config: InstallConfig, host: InstallHost): (r: Run)
    ensures s.calls <= r.calls
    ensures s.err.Some? ==> r == s
    ensures s.err.None? ==> NotInvalid(r.err)
    ensures Distinct(s.metadataFiles) ==> Distinct(r.metadataFiles)
  {
    if s.err.Some? then s
    else
      var t := InstallArtifact(s, host.tempJar, MainArtifactOf(config, host), MainArtifact, config, host);
      Run(t.calls + [DeletePom(host.tempPom)], t.err, t.metadataFiles)
  }

  /** The sources or javadoc install, when that file is configured. */
  function ExtraStage(s: Run, file: Option<Path>, classifier: string, role: Role, config: InstallConfig, host: InstallHost): (r: Run)
    ensures s.calls <= r.calls
    ensures s.err.Some? || file.None? ==> r == s
    ensures s.err.None? ==> NotInvalid(r.err)
    ensures Distinct(s.metadataFiles) ==> Distinct(r.metadataFiles)
  {
    if file.None? then s
    else InstallArtifact(s, file.value, ClassifiedArtifact(config, classifier), role, config, host)
  }

  /** The sources install, then the javadoc install. */
  function ExtraStages(main: Run, config: InstallConfig, host: InstallHost): (r: Run)
    ensures main.calls <= r.calls
    ensures main.err.Some? ==> r == main
    ensures main.err.None? ==> NotInvalid(r.err)
    ensures Distinct(main.metadataFiles) ==> Distinct(r.metadataFiles)
  {
    var sources := ExtraStage(main, config.sources, "sources", SourcesArtifact, config, host);
    ExtraStage(sources, config.javadoc, "javadoc", JavadocArtifact, config, host)
  }

  /** The main, sources and javadoc installs. */
  function AfterInstalls(pom: Run, config: InstallConfig, host: InstallHost): (r: Run)
    ensures pom.calls <= r.calls
    ensures pom.err.Some? ==> r == pom
    ensures pom.err.None? ==> NotInvalid(r.err)
    ensures Distinct(pom.metadataFiles) ==> Distinct(r.metadataFiles)
  {
    ExtraStages(MainStage(pom, config, host), config, host)
  }

  /** From the remap block through the javadoc install. */
  function AfterValidation(s: Run, config: InstallConfig, host: InstallHost): (r: Run)
    ensures s.calls <= r.calls
    ensures s.err.None? ==> NotInvalid(r.err)
    ensures Distinct(s.metadataFiles) ==> Distinct(r.metadataFiles)
  {
    AfterInstalls(PomStage(RemapStage(s, config, host), config, host), config, host)
  }

  /** Everything up to the final checksum pass, after the calls `pre` already logged. */
  function BeforeDrain(config: InstallConfig, host: InstallHost, pre: seq<InstallCall>): (r: Run)
    ensures pre <= r.calls
  {
    var model := GenerateModel(config);
    var messages := host.validationMessages(model);
    var validated := Run(pre + [Validate(model)], None, []);
    if |messages| > 0 then validated.(err := Some(InvalidArtifactInformation(messages)))
    else AfterValidation(validated, config, host)
  }

  /** installChecksums(Collection): the loop over the set, in its iteration order. */
  function Drain(s: Run, files: seq<Path>, host: InstallHost): (r: Run)
    ensures AddsOnly(s, r, Checksumming) && r.metadataFiles == s.metadataFiles
    ensures s.err.Some? ==> r == s
    ensures s.err.None? ==> NotInvalid(r.err)
    decreases |files|
  {
    if files == [] then s
    else FileChecksums(Drain(s, files[..|files| - 1], host), files[|files| - 1], host)
  }

  /** execute(), after the calls `pre` already logged. */
  function InstallRun(config: InstallConfig, host: InstallHost, pre: seq<InstallCall>): (r: Run)
    ensures pre <= r.calls
  {
    var b := BeforeDrain(config, host, pre);
    Drain(b, b.metadataFiles, host)
  }

  // ---------------------------------------------------------------------------
  // Properties of the run
  // ---------------------------------------------------------------------------

  /** Whether validation leaves no message. */
  predicate Valid(config: InstallConfig, host: InstallHost) {
    |host.validationMessages(GenerateModel(config))| == 0
  }

  /** Validation is the first call; any message stops the run right there. */
  lemma ValidationFirst(config: InstallConfig, host: InstallHost, pre: seq<InstallCall>)
    ensures var r := InstallRun(config, host, pre);
      && |r.calls| > |pre| && r.calls[|pre|] == Validate(GenerateModel(config))
      && (!Valid(config, host) ==>
            r.calls == pre + [Validate(GenerateModel(config))]
            && r.err == Some(InvalidArtifactInformation(host.validationMessages(GenerateModel(config)))))
      && (Valid(config, host) ==> NotInvalid(r.err))
  {
    var b := BeforeDrain(config, host, pre);
    var model := GenerateModel(config);
    var validated := Run(pre + [Validate(model)], None, []);
    if Valid(config, host) {
      assert validated.calls <= b.calls;
    }
    assert b.calls[|pre|] == Validate(model);
  }

  /** The (file, artifact) pairs installed, in call order. */
  function Installs(calls: seq<InstallCall>): seq<(Path, Artifact)>
    decreases |calls|
  {
    if calls == [] then []
    else
      var last := calls[|calls| - 1];
      Installs(calls[..|calls| - 1]) + if last.Install? then [(last.file, last.artifact)] else []
  }

  lemma {:induction false} InstallsOfOthers(a: seq<InstallCall>, b: seq<InstallCall>)
    requires forall i :: 0 <= i < |b| ==> KindOf(b[i]) != Installing
    ensures Installs(a + b) == Installs(a)
    decreases |b|
  {
    if b != [] {
      var init := b[..|b| - 1];
      assert (a + b)[..|a + b| - 1] == a + init;
      assert (a + b)[|a + b| - 1] == b[|b| - 1];
      assert KindOf(b[|b| - 1]) != Installing;
      InstallsOfOthers(a, init);
      assert Installs(a + b) == Installs(a + init) + [];
    } else {
      assert a + b == a;
    }
  }

  lemma KeepsInstalls(s: Run, r: Run, k: Kind)
    requires AddsOnly(s, r, k) && k != Installing
    ensures Installs(r.calls) == Installs(s.calls)
  {
    var b := r.calls[|s.calls|..];
    assert r.calls == s.calls + b;
    InstallsOfOthers(s.calls, b);
  }

  /** The installs that `file` makes, if it is configured. */
  function OptionalInstall(file: Option<Path>, a: Artifact): seq<(Path, Artifact)> {
    if file.Some? then [(file.value, a)] else []
  }

  /** The three installs in their fixed order: main, then sources, then javadoc. */
  function ExpectedInstalls(config: InstallConfig, host: InstallHost): seq<(Path, Artifact)> {
    [(host.tempJar, MainArtifactOf(config, host))] + ExpectedExtras(config)
  }

  /** The sources and javadoc installs, for the files that are configured. */
  function ExpectedExtras(config: InstallConfig): seq<(Path, Artifact)> {
    OptionalInstall(config.sources, ClassifiedArtifact(config, "sources"))
    + OptionalInstall(config.javadoc, ClassifiedArtifact(config, "javadoc"))
  }

  lemma InstallArtifactInstalls(s: Run, file: Path, a: Artifact, role: Role, config: InstallConfig, host: InstallHost)
    ensures Installs(InstallArtifact(s, file, a, role, config, host).calls)
      == Installs(s.calls) + if s.err.None? then [(file, a)] else []
  {
    var call := Install(file, a);
    var t := Step(s, call, InstallFailed(role, call), host);
    if s.err.None? {
      assert t.calls[..|t.calls| - 1] == s.calls;
    }
    KeepsInstalls(t, ArtifactChecksums(t, Installed(host, a), config.createChecksum, host), Checksumming);
  }

  lemma MainStageInstalls(s: Run, config: InstallConfig, host: InstallHost)
    ensures Installs(MainStage(s, config, host).calls)
      == Installs(s.calls) + if s.err.None? then [(host.tempJar, MainArtifactOf(config, host))] else []
  {
    if s.err.None? {
      var a := MainArtifactOf(config, host);
      var t := InstallArtifact(s, host.tempJar, a, MainArtifact, config, host);
      var d := DeletePom(host.tempPom);
      assert Installs(t.calls) == Installs(s.calls) + [(host.tempJar, a)] by {
        InstallArtifactInstalls(s, host.tempJar, a, MainArtifact, config, host);
      }
      assert Installs(MainStage(s, config, host).calls) == Installs(t.calls) by {
        assert MainStage(s, config, host).calls == t.calls + [d];
        InstallsOfOthers(t.calls, [d]);
      }
    }
  }

  lemma ExtraStageInstalls(s: Run, file: Option<Path>, classifier: string, role: Role, config: InstallConfig, host: InstallHost)
    ensures Installs(ExtraStage(s, file, classifier, role, config, host).calls)
      == Installs(s.calls) + if s.err.None? then OptionalInstall(file, ClassifiedArtifact(config, classifier)) else []
  {
    if file.Some? {
      InstallArtifactInstalls(s, file.value, ClassifiedArtifact(config, classifier), role, config, host);
    }
  }

  lemma ConcatAssoc<T>(a: seq<T>, b: seq<T>, c: seq<T>, d: seq<T>)
    ensures a + b + c + d == a + (b + c + d)
  {
  }

  /** The sources and javadoc installs, in that order (none once an earlier step failed). */
  lemma ExtrasInstalls(main: Run, config: InstallConfig, host: InstallHost)
    ensures var r := ExtraStages(main, config, host);
      && Installs(main.calls) <= Installs(r.calls)
      && Installs(r.calls)[|Installs(main.calls)|..] <= ExpectedExtras(config)
      && (r.err.None? ==> Installs(r.calls) == Installs(main.calls) + ExpectedExtras(config))
  {
    var sources := ExtraStage(main, config.sources, "sources", SourcesArtifact, config, host);
    ExtraStageInstalls(main, config.sources, "sources", SourcesArtifact, config, host);
    ExtraStageInstalls(sources, config.javadoc, "javadoc", JavadocArtifact, config, host);
    var so := OptionalInstall(config.sources, ClassifiedArtifact(config, "sources"));
    var jd := OptionalInstall(config.javadoc, ClassifiedArtifact(config, "javadoc"));
    var base := Installs(main.calls);
    if main.err.Some? {
      assert Installs(main.calls)[|base|..] == [];
    } else if sources.err.Some? {
      assert Installs(sources.calls) == base + so;
    } else {
      assert Installs(sources.calls) == base + so;
      assert base + so + jd == base + (so + jd);
    }
  }

  /** The installs made from the main install on, when the POM was written. */
  lemma InstallStagesInstalls(pom: Run, config: InstallConfig, host: InstallHost)
    requires pom.err.None?
    ensures var r := AfterInstalls(pom, config, host);
      && Installs(pom.calls) <= Installs(r.calls)
      && Installs(r.calls)[|Installs(pom.calls)|..] <= ExpectedInstalls(config, host)
      && (r.err.None? ==> Installs(r.calls) == Installs(pom.calls) + ExpectedInstalls(config, host))
  {
    var main := MainStage(pom, config, host);
    MainStageInstalls(pom, config, host);
    ExtrasInstalls(main, config, host);
    PrefixCompose(Installs(pom.calls), [(host.tempJar, MainArtifactOf(config, host))], ExpectedExtras(config),
                  Installs(AfterInstalls(pom, config, host).calls));
  }

  /** Sequence algebra: a prefix of `m` after `base`, then a prefix of `extras`. */
  lemma PrefixCompose<T>(base: seq<T>, m: seq<T>, extras: seq<T>, full: seq<T>)
    requires base + m <= full && full[|base + m|..] <= extras
    ensures base <= full && full[|base|..] <= m + extras
    ensures full == (base + m) + extras ==> full == base + (m + extras)
  {
    var x := full[|base + m|..];
    assert full == base + m + x;
    assert full[|base|..] == m + x;
  }

  /** The installs made from the remap block on, when validation passed. */
  lemma AfterValidationInstalls(s: Run, config: InstallConfig, host: InstallHost)
    requires s.err.None?
    ensures var r := AfterValidation(s, config, host);
      && Installs(s.calls) <= Installs(r.calls)
      && Installs(r.calls)[|Installs(s.calls)|..] <= ExpectedInstalls(config, host)
      && (r.err.None? ==> Installs(r.calls) == Installs(s.calls) + ExpectedInstalls(config, host))
  {
    var remapped := RemapStage(s, config, host);
    var pom := PomStage(remapped, config, host);
    KeepsInstalls(s, remapped, Remapping);
    KeepsInstalls(remapped, pom, PomHandling);
    if pom.err.None? {
      InstallStagesInstalls(pom, config, host);
    } else {
      assert AfterValidation(s, config, host) == pom;
      assert Installs(pom.calls)[|Installs(s.calls)|..] == [];
    }
  }

  /**
   * The installs happen in the fixed order main, sources, javadoc: a run makes a prefix
   * of them (a failure stops it), and all of them when it succeeds.
   */
  lemma InstallOrder(config: InstallConfig, host: InstallHost, pre: seq<InstallCall>)
    ensures var r := InstallRun(config, host, pre);
      && Installs(pre) <= Installs(r.calls)
      && Installs(r.calls)[|Installs(pre)|..] <= ExpectedInstalls(config, host)
      && (r.err.None? ==> Installs(r.calls) == Installs(pre) + ExpectedInstalls(config, host))
  {
    var model := GenerateModel(config);
    var validated := Run(pre + [Validate(model)], None, []);
    var b := BeforeDrain(config, host, pre);
    KeepsInstalls(b, InstallRun(config, host, pre), Checksumming);
    InstallsOfOthers(pre, [Validate(model)]);
    if Valid(config, host) {
      AfterValidationInstalls(validated, config, host);
    } else {
      assert Installs(b.calls) == Installs(pre) + [];
    }
  }

  /** `r` extends `s` by no call of kind `k`. */
  predicate Without(s: Run, r: Run, k: Kind) {
    s.calls <= r.calls && forall i :: |s.calls| <= i < |r.calls| ==> KindOf(r.calls[i]) != k
  }

  lemma WithoutTrans(a: Run, b: Run, c: Run, k: Kind)
    requires Without(a, b, k) && Without(b, c, k)
    ensures Without(a, c, k)
  {
    forall i | |a.calls| <= i < |c.calls|
      ensures KindOf(c.calls[i]) != k
    {
      if i < |b.calls| {
        assert c.calls[i] == b.calls[i];
      }
    }
  }

  /** With createChecksum off, an install is the installer call alone. */
  lemma InstallWithoutChecksums(s: Run, file: Path, a: Artifact, role: Role, config: InstallConfig, host: InstallHost)
    requires !config.createChecksum
    ensures var r := InstallArtifact(s, file, a, role, config, host);
      Without(s, r, Checksumming) && r.metadataFiles == s.metadataFiles
  {
  }

  lemma MainStageWithoutChecksums(s: Run, config: InstallConfig, host: InstallHost)
    requires !config.createChecksum
    ensures var r := MainStage(s, config, host);
      Without(s, r, Checksumming) && r.metadataFiles == s.metadataFiles
  {
    if s.err.None? {
      var t := InstallArtifact(s, host.tempJar, MainArtifactOf(config, host), MainArtifact, config, host);
      InstallWithoutChecksums(s, host.tempJar, MainArtifactOf(config, host), MainArtifact, config, host);
      WithoutTrans(s, t, MainStage(s, config, host), Checksumming);
    }
  }

  lemma ExtraStageWithoutChecksums(s: Run, file: Option<Path>, classifier: string, role: Role, config: InstallConfig, host: InstallHost)
    requires !config.createChecksum
    ensures var r := ExtraStage(s, file, classifier, role, config, host);
      Without(s, r, Checksumming) && r.metadataFiles == s.metadataFiles
  {
    if file.Some? {
      InstallWithoutChecksums(s, file.value, ClassifiedArtifact(config, classifier), role, config, host);
    }
  }

  lemma AfterValidationWithoutChecksums(s: Run, config: InstallConfig, host: InstallHost)
    requires !config.createChecksum
    ensures var r := AfterValidation(s, config, host);
      Without(s, r, Checksumming) && r.metadataFiles == s.metadataFiles
  {
    var remapped := RemapStage(s, config, host);
    var pom := PomStage(remapped, config, host);
    var main := MainStage(pom, config, host);
    var sources := ExtraStage(main, config.sources, "sources", SourcesArtifact, config, host);
    var r := ExtraStage(sources, config.javadoc, "javadoc", JavadocArtifact, config, host);
    WithoutTrans(s, remapped, pom, Checksumming);
    MainStageWithoutChecksums(pom, config, host);
    WithoutTrans(s, pom, main, Checksumming);
    ExtraStageWithoutChecksums(main, config.sources, "sources", SourcesArtifact, config, host);
    WithoutTrans(s, main, sources, Checksumming);
    ExtraStageWithoutChecksums(sources, config.javadoc, "javadoc", JavadocArtifact, config, host);
    WithoutTrans(s, sources, r, Checksumming);
  }

  /**
   * With createChecksum off no checksum is computed or written at all: each install's
   * checksum step returns at once, so the metadata set stays empty for the final pass.
   */
  lemma NoChecksumsWithoutFlag(config: InstallConfig, host: InstallHost, pre: seq<InstallCall>)
    requires !config.createChecksum
    ensures BeforeDrain(config, host, pre).metadataFiles == []
    ensures var r := InstallRun(config, host, pre);
      forall i :: |pre| <= i < |r.calls| ==> KindOf(r.calls[i]) != Checksumming
  {
    var validated := Run(pre + [Validate(GenerateModel(config))], None, []);
    var b := BeforeDrain(config, host, pre);
    if Valid(config, host) {
      AfterValidationWithoutChecksums(validated, config, host);
      WithoutTrans(Run(pre, None, []), validated, b, Checksumming);
    }
    assert InstallRun(config, host, pre) == b;
  }

  /** Whether the temporary POM gets written: validation and the remap block passed, and the write did not throw. */
  predicate PomWritten(config: InstallConfig, host: InstallHost, pre: seq<InstallCall>) {
    var validated := Run(pre + [Validate(GenerateModel(config))], None, []);
    && Valid(config, host)
    && RemapStage(validated, config, host).err.None?
    && !host.fails(WritePom(host.tempPom, GenerateModel(config)))
  }

  /** The main install stage installs first and deletes the POM last. */
  lemma MainStageDeletesPom(s: Run, config: InstallConfig, host: InstallHost)
    requires s.err.None?
    ensures var r := MainStage(s, config, host);
      && |s.calls| < |r.calls| - 1
      && r.calls[|s.calls|] == Install(host.tempJar, MainArtifactOf(config, host))
      && r.calls[|r.calls| - 1] == DeletePom(host.tempPom)
  {
    var t := InstallArtifact(s, host.tempJar, MainArtifactOf(config, host), MainArtifact, config, host);
    var call := Install(host.tempJar, MainArtifactOf(config, host));
    var u := Step(s, call, InstallFailed(MainArtifact, call), host);
    assert u.calls <= t.calls;
  }

  /** The part of the run after the POM has been written, as far as the POM is concerned. */
  lemma AfterPomDeletes(pom: Run, config: InstallConfig, host: InstallHost) returns (i: nat, j: nat)
    requires pom.err.None?
    ensures var r := AfterInstalls(pom, config, host);
      && |pom.calls| <= i < j < |r.calls|
      && r.calls[i] == Install(host.tempJar, MainArtifactOf(config, host))
      && r.calls[j] == DeletePom(host.tempPom)
  {
    var main := MainStage(pom, config, host);
    MainStageDeletesPom(pom, config, host);
    var r := AfterInstalls(pom, config, host);
    i, j := |pom.calls|, |main.calls| - 1;
    assert r.calls[i] == main.calls[i] && r.calls[j] == main.calls[j];
  }

  /** A written POM is deleted after the main install call, whether or not that install succeeded. */
  lemma PomDeletedWhenWritten(config: InstallConfig, host: InstallHost, pre: seq<InstallCall>)
    requires PomWritten(config, host, pre)
    ensures var r := InstallRun(config, host, pre);
      exists i, j :: |pre| <= i < j < |r.calls|
        && r.calls[i] == Install(host.tempJar, MainArtifactOf(config, host))
        && r.calls[j] == DeletePom(host.tempPom)
  {
    var validated := Run(pre + [Validate(GenerateModel(config))], None, []);
    var b := BeforeDrain(config, host, pre);
    var r := InstallRun(config, host, pre);
    var pom := PomStage(RemapStage(validated, config, host), config, host);
    var i, j := AfterPomDeletes(pom, config, host);
    assert b == AfterInstalls(pom, config, host);
    assert r.calls[i] == b.calls[i] && r.calls[j] == b.calls[j];
  }

  /** Calls added by the remap block are never a POM delete, wherever they end up. */
  lemma RemappingDeletesNothing(s: Run, r: Run, t: Run)
    requires AddsOnly(s, r, Remapping) && r.calls <= t.calls
    ensures forall i :: |s.calls| <= i < |r.calls| ==> !t.calls[i].DeletePom?
  {
    forall i | |s.calls| <= i < |r.calls| ensures !t.calls[i].DeletePom? {
      assert t.calls[i] == r.calls[i];
    }
  }

  /** When the POM write is not reached or throws, the run ends there without a delete. */
  lemma StopsBeforePom(s: Run, config: InstallConfig, host: InstallHost)
    requires s.err.None? && PomStage(RemapStage(s, config, host), config, host).err.Some?
    ensures var r := AfterValidation(s, config, host);
      forall i :: |s.calls| <= i < |r.calls| ==> !r.calls[i].DeletePom?
  {
    var remapped := RemapStage(s, config, host);
    var pom := PomStage(remapped, config, host);
    assert AfterValidation(s, config, host) == pom;
    RemappingDeletesNothing(s, remapped, pom);
    forall i | |remapped.calls| <= i < |pom.calls| ensures !pom.calls[i].DeletePom? {
      assert pom.calls[i] == WritePom(host.tempPom, GenerateModel(config));
    }
  }

  /** No POM is deleted that was never written. */
  lemma NoPomDeletedUnlessWritten(config: InstallConfig, host: InstallHost, pre: seq<InstallCall>)
    requires !PomWritten(config, host, pre)
    ensures var r := InstallRun(config, host, pre);
      forall i :: |pre| <= i < |r.calls| ==> !r.calls[i].DeletePom?
  {
    var validated := Run(pre + [Validate(GenerateModel(config))], None, []);
    var b := BeforeDrain(config, host, pre);
    if Valid(config, host) {
      StopsBeforePom(validated, config, host);
    }
    assert b.err.Some?;
    assert InstallRun(config, host, pre) == b;
  }

  /** The four calls that checksum an eligible file: MD5 first, then SHA-1, each computed then written. */
  function ChecksumCalls(f: Path, host: InstallHost): seq<InstallCall> {
    [ Digest(f, MD5), WriteChecksum(ChecksumFile(f, MD5), host.digest(MD5, f)),
      Digest(f, SHA1), WriteChecksum(ChecksumFile(f, SHA1), host.digest(SHA1, f)) ]
  }

  /**
   * Checksumming an eligible file makes the four calls in order, stopping at the first
   * that throws, with that call in the error.
   */
  lemma FileChecksumsCalls(s: Run, f: Path, host: InstallHost)
    requires s.err.None? && Eligible(host, f)
    ensures var r := FileChecksums(s, f, host);
      && r.calls <= s.calls + ChecksumCalls(f, host)
      && |r.calls| > |s.calls|
      && (r.err.None? ==> r.calls == s.calls + ChecksumCalls(f, host))
      && (r.err.Some? ==> r.err == Some(ChecksumFailed(r.calls[|r.calls| - 1])))
  {
    var cs := ChecksumCalls(f, host);
    var a := Step(s, cs[0], ChecksumFailed(cs[0]), host);
    var b := Step(a, cs[1], ChecksumFailed(cs[1]), host);
    var c := Step(b, cs[2], ChecksumFailed(cs[2]), host);
    var d := Step(c, cs[3], ChecksumFailed(cs[3]), host);
    assert FileChecksums(s, f, host) == d;
    assert a.calls == s.calls + cs[..1];
    if a.err.None? {
      assert b.calls == s.calls + cs[..2];
      if b.err.None? {
        assert c.calls == s.calls + cs[..3];
        if c.err.None? {
          assert d.calls == s.calls + cs;
        }
      }
    }
  }

  /** How many times the digest `alg` of `f` is computed. */
  function CountDigest(calls: seq<InstallCall>, f: Path, alg: Algorithm): nat
    decreases |calls|
  {
    if calls == [] then 0
    else CountDigest(calls[..|calls| - 1], f, alg) + if calls[|calls| - 1] == Digest(f, alg) then 1 else 0
  }

  lemma {:induction false} CountDigestAppend(a: seq<InstallCall>, b: seq<InstallCall>, f: Path, alg: Algorithm)
    ensures CountDigest(a + b, f, alg) == CountDigest(a, f, alg) + CountDigest(b, f, alg)
    decreases |b|
  {
    if b == [] {
      assert a + b == a;
    } else {
      var init := b[..|b| - 1];
      assert (a + b)[..|a + b| - 1] == a + init;
      assert (a + b)[|a + b| - 1] == b[|b| - 1];
      CountDigestAppend(a, init, f, alg);
    }
  }

  /** Checksumming one file computes its digest once per algorithm if it is eligible, and never otherwise. */
  lemma FileChecksumsDigestOnce(s: Run, g: Path, host: InstallHost, f: Path, alg: Algorithm)
    requires s.err.None? && FileChecksums(s, g, host).err.None?
    ensures var r := FileChecksums(s, g, host);
      CountDigest(r.calls[|s.calls|..], f, alg) == if f == g && Eligible(host, g) then 1 else 0
  {
    var r := FileChecksums(s, g, host);
    if Eligible(host, g) {
      FileChecksumsCalls(s, g, host);
      var cs := ChecksumCalls(g, host);
      assert r.calls[|s.calls|..] == cs;
      assert cs[..1][..0] == [];
      assert CountDigest(cs[..1], f, alg) == if f == g && alg == MD5 then 1 else 0;
      assert cs[..2][..1] == cs[..1];
      assert CountDigest(cs[..2], f, alg) == CountDigest(cs[..1], f, alg);
      assert cs[..3][..2] == cs[..2];
      assert CountDigest(cs[..3], f, alg) == CountDigest(cs[..2], f, alg) + if f == g && alg == SHA1 then 1 else 0;
      assert cs[..3] == cs[..|cs| - 1];
    } else {
      assert r.calls[|s.calls|..] == [];
    }
  }

  /**
   * The final pass over a duplicate-free set computes each eligible file's digests
   * exactly once, and none for any other file.
   */
  lemma {:induction false} DrainDigestsOnce(s: Run, files: seq<Path>, host: InstallHost, f: Path, alg: Algorithm)
    requires s.err.None? && Distinct(files) && Drain(s, files, host).err.None?
    ensures var r := Drain(s, files, host);
      CountDigest(r.calls[|s.calls|..], f, alg) == if f in files && Eligible(host, f) then 1 else 0
    decreases |files|
  {
    if files == [] {
      assert Drain(s, files, host).calls[|s.calls|..] == [];
    } else {
      var init := files[..|files| - 1];
      var last := files[|files| - 1];
      var d := Drain(s, init, host);
      var r := FileChecksums(d, last, host);
      assert Drain(s, files, host) == r;
      assert d.err.None?;
      DistinctInit(files);
      DrainDigestsOnce(s, init, host, f, alg);
      FileChecksumsDigestOnce(d, last, host, f, alg);
      SliceSplit(s.calls, d.calls, r.calls);
      CountDigestAppend(d.calls[|s.calls|..], r.calls[|d.calls|..], f, alg);
    }
  }

  lemma DistinctInit(files: seq<Path>)
    requires Distinct(files) && files != []
    ensures var init := files[..|files| - 1];
      && Distinct(init) && files[|files| - 1] !in init
      && forall x :: x in files <==> x in init || x == files[|files| - 1]
  {
    assert files == files[..|files| - 1] + [files[|files| - 1]];
  }

  lemma SliceSplit<T>(a: seq<T>, b: seq<T>, c: seq<T>)
    requires a <= b <= c
    ensures c[|a|..] == b[|a|..] + c[|b|..]
  {
  }

  /** The set of metadata files never holds a file twice. */
  lemma MetadataFilesDistinct(config: InstallConfig, host: InstallHost, pre: seq<InstallCall>)
    ensures Distinct(BeforeDrain(config, host, pre).metadataFiles)
  {
  }

  /** After all installs, each file in the metadata set has its digests computed exactly once. */
  lemma FinalPassChecksumsEachOnce(config: InstallConfig, host: InstallHost, pre: seq<InstallCall>, f: Path, alg: Algorithm)
    requires InstallRun(config, host, pre).err.None?
    ensures var b := BeforeDrain(config, host, pre);
      var r := InstallRun(config, host, pre);
      CountDigest(r.calls[|b.calls|..], f, alg) == if f in b.metadataFiles && Eligible(host, f) then 1 else 0
  {
    var b := BeforeDrain(config, host, pre);
    MetadataFilesDistinct(config, host, pre);
    DrainDigestsOnce(b, b.metadataFiles, host, f, alg);
  }

  /** The metadata files of the three installs, added to the set in install order. */
  lemma AfterInstallsMetadata(pom: Run, config: InstallConfig, host: InstallHost)
    requires config.createChecksum && pom.err.None? && AfterInstalls(pom, config, host).err.None?
    ensures AfterInstalls(pom, config, host).metadataFiles ==
      AddAll(AddAll(AddAll(pom.metadataFiles,
        MetadataFiles(host, Installed(host, MainArtifactOf(config, host)).metadata)),
        InstallMetadataFiles(host, config.sources, ClassifiedArtifact(config, "sources"))),
        InstallMetadataFiles(host, config.javadoc, ClassifiedArtifact(config, "javadoc")))
  {
    var main := MainStage(pom, config, host);
    var sources := ExtraStage(main, config.sources, "sources", SourcesArtifact, config, host);
    assert main.err.None? && sources.err.None?;
    InstallArtifactMetadata(pom, host.tempJar, MainArtifactOf(config, host), MainArtifact, config, host);
    if config.sources.Some? {
      InstallArtifactMetadata(main, config.sources.value, ClassifiedArtifact(config, "sources"), SourcesArtifact, config, host);
    } else {
      assert AddAll(main.metadataFiles, []) == main.metadataFiles;
    }
    if config.javadoc.Some? {
      InstallArtifactMetadata(sources, config.javadoc.value, ClassifiedArtifact(config, "javadoc"), JavadocArtifact, config, host);
    } else {
      assert AddAll(sources.metadataFiles, []) == sources.metadataFiles;
    }
  }

  /**
   * With createChecksum on and all installs done, the set holds exactly the metadata
   * files of the main, sources and javadoc installs.
   */
  lemma MetadataFilesOfInstalls(config: InstallConfig, host: InstallHost, pre: seq<InstallCall>, f: Path)
    requires config.createChecksum && BeforeDrain(config, host, pre).err.None?
    ensures f in BeforeDrain(config, host, pre).metadataFiles <==>
      || f in MetadataFiles(host, Installed(host, MainArtifactOf(config, host)).metadata)
      || f in InstallMetadataFiles(host, config.sources, ClassifiedArtifact(config, "sources"))
      || f in InstallMetadataFiles(host, config.javadoc, ClassifiedArtifact(config, "javadoc"))
  {
    var validated := Run(pre + [Validate(GenerateModel(config))], None, []);
    var pom := PomStage(RemapStage(validated, config, host), config, host);
    assert Valid(config, host) && pom.err.None?;
    AfterInstallsMetadata(pom, config, host);
    var m := MetadataFiles(host, Installed(host, MainArtifactOf(config, host)).metadata);
    var so := InstallMetadataFiles(host, config.sources, ClassifiedArtifact(config, "sources"));
    var jd := InstallMetadataFiles(host, config.javadoc, ClassifiedArtifact(config, "javadoc"));
    AddAllMembers([], m);
    AddAllMembers(AddAll([], m), so);
    AddAllMembers(AddAll(AddAll([], m), so), jd);
  }

  /** An eligible file has its digest `alg` computed among `calls`. */
  predicate Digested(calls: seq<InstallCall>, host: InstallHost, f: Path, alg: Algorithm) {
    Eligible(host, f) ==> Digest(f, alg) in calls
  }

  /** A call made after `a` within `b` is still made after `pre` within any extension `c` of `b`. */
  lemma DigestedLater(pre: seq<InstallCall>, a: seq<InstallCall>, b: seq<InstallCall>, c: seq<InstallCall>,
                      host: InstallHost, f: Path, alg: Algorithm)
    requires pre <= a <= b <= c
    requires Digested(b[|a|..], host, f, alg)
    ensures Digested(c[|pre|..], host, f, alg)
  {
    if Eligible(host, f) {
      var k :| 0 <= k < |b[|a|..]| && b[|a|..][k] == Digest(f, alg);
      assert c[|pre|..][|a| - |pre| + k] == Digest(f, alg);
    }
  }

  /** A successful install with createChecksum on computes both digests of the installed file. */
  lemma InstallArtifactDigests(s: Run, file: Path, a: Artifact, role: Role, config: InstallConfig, host: InstallHost,
                               alg: Algorithm)
    requires s.err.None? && config.createChecksum && InstallArtifact(s, file, a, role, config, host).err.None?
    ensures Digested(InstallArtifact(s, file, a, role, config, host).calls[|s.calls|..], host, LocalRepoFile(host, a.coord), alg)
  {
    var call := Install(file, a);
    var t := Step(s, call, InstallFailed(role, call), host);
    var f := LocalRepoFile(host, a.coord);
    var r := InstallArtifact(s, file, a, role, config, host);
    assert t.err.None?;
    assert Installed(host, a).coord == a.coord;
    if Eligible(host, f) {
      FileChecksumsCalls(t, f, host);
      var k := if alg == MD5 then 0 else 2;
      assert r.calls[|s.calls|..][|t.calls| - |s.calls| + k] == Digest(f, alg);
    }
  }

  /** The main stage computes both digests of the installed main artifact. */
  lemma MainStageDigests(s: Run, config: InstallConfig, host: InstallHost, alg: Algorithm)
    requires s.err.None? && config.createChecksum && MainStage(s, config, host).err.None?
    ensures Digested(MainStage(s, config, host).calls[|s.calls|..], host,
                     LocalRepoFile(host, MainArtifactOf(config, host).coord), alg)
  {
    var t := InstallArtifact(s, host.tempJar, MainArtifactOf(config, host), MainArtifact, config, host);
    InstallArtifactDigests(s, host.tempJar, MainArtifactOf(config, host), MainArtifact, config, host, alg);
    DigestedLater(s.calls, s.calls, t.calls, MainStage(s, config, host).calls, host,
                  LocalRepoFile(host, MainArtifactOf(config, host).coord), alg);
  }

  /**
   * With createChecksum on, a successful run computes the MD5 and SHA-1 digests of the
   * local-repository file of each artifact it installed (when that file is eligible).
   */
  lemma InstalledFilesChecksummed(config: InstallConfig, host: InstallHost, pre: seq<InstallCall>, alg: Algorithm)
    requires config.createChecksum && InstallRun(config, host, pre).err.None?
    ensures var after := InstallRun(config, host, pre).calls[|pre|..];
      && Digested(after, host, LocalRepoFile(host, MainArtifactOf(config, host).coord), alg)
      && (config.sources.Some? ==> Digested(after, host, LocalRepoFile(host, ClassifiedArtifact(config, "sources").coord), alg))
      && (config.javadoc.Some? ==> Digested(after, host, LocalRepoFile(host, ClassifiedArtifact(config, "javadoc").coord), alg))
  {
    var r := InstallRun(config, host, pre);
    var b := BeforeDrain(config, host, pre);
    assert b.err.None?;
    var validated := Run(pre + [Validate(GenerateModel(config))], None, []);
    assert Valid(config, host);
    var remapped := RemapStage(validated, config, host);
    var pom := PomStage(remapped, config, host);
    var main := MainStage(pom, config, host);
    var sources := ExtraStage(main, config.sources, "sources", SourcesArtifact, config, host);
    var javadoc := ExtraStage(sources, config.javadoc, "javadoc", JavadocArtifact, config, host);
    assert b == javadoc;
    assert sources.err.None? && main.err.None? && pom.err.None?;
    assert pre <= pom.calls;
    MainStageDigests(pom, config, host, alg);
    DigestedLater(pre, pom.calls, main.calls, r.calls, host, LocalRepoFile(host, MainArtifactOf(config, host).coord), alg);
    if config.sources.Some? {
      var a := ClassifiedArtifact(config, "sources");
      InstallArtifactDigests(main, config.sources.value, a, SourcesArtifact, config, host, alg);
      DigestedLater(pre, main.calls, sources.calls, r.calls, host, LocalRepoFile(host, a.coord), alg);
    }
    if config.javadoc.Some? {
      var a := ClassifiedArtifact(config, "javadoc");
      InstallArtifactDigests(sources, config.javadoc.value, a, JavadocArtifact, config, host, alg);
      DigestedLater(pre, sources.calls, javadoc.calls, r.calls, host, LocalRepoFile(host, a.coord), alg);
    }
  }

  /** An error in the loop over inJars stops it: the rest of the list adds nothing. */
  lemma {:induction false} FetchJarsStop(s: Run, names: seq<string>, k: nat, host: InstallHost)
    requires k <= |names| && FetchJars(s, names[..k], host).err.Some?
    ensures FetchJars(s, names, host) == FetchJars(s, names[..k], host)
    decreases |names|
  {
    if k < |names| {
      var init := names[..|names| - 1];
      assert init[..k] == names[..k];
      FetchJarsStop(s, init, k, host);
    } else {
      assert names[..k] == names;
    }
  }

  /** An error in the final pass stops it. */
  lemma {:induction false} DrainStop(s: Run, files: seq<Path>, k: nat, host: InstallHost)
    requires k <= |files| && Drain(s, files[..k], host).err.Some?
    ensures Drain(s, files, host) == Drain(s, files[..k], host)
    decreases |files|
  {
    if k < |files| {
      var init := files[..|files| - 1];
      assert init[..k] == files[..k];
      DrainStop(s, init, k, host);
    } else {
      assert files[..k] == files;
    }
  }

  // ---------------------------------------------------------------------------
  // The goal
  // ---------------------------------------------------------------------------

  /** The LinkedHashSet of metadata files. */
  class FileSet {
    var elements: seq<Path>

    constructor ()
      ensures elements == []
    {
      elements := [];
    }

    method Add(f: Path)
      modifies this
      ensures elements == Insert(old(elements), f)
    {
      if f !in elements {
        elements := elements + [f];
      }
    }
  }

  class InstallMojo {
    const config: InstallConfig
    var calls: seq<InstallCall>

    constructor (config: InstallConfig)
      ensures this.config == config && calls == []
    {
      this.config := config;
      calls := [];
    }

    /** Makes one call; `e` is what it throws. */
    method Call(c: InstallCall, e: InstallError, host: InstallHost, ghost files: seq<Path>) returns (err: Option<InstallError>)
      modifies this`calls
      ensures var r := Step(Run(old(calls), None, files), c, e, host);
        calls == r.calls && err == r.err
    {
      calls := calls + [c];
      err := if Fallible(c) && host.fails(c) then Some(e) else None;
    }

    /** validateArtifactInformation. */
    method ValidateArtifactInformation(host: InstallHost) returns (err: Option<InstallError>)
      modifies this`calls
      ensures calls == old(calls) + [Validate(GenerateModel(config))]
      ensures err.Some? <==> !Valid(config, host)
      ensures err.Some? ==> err.value == InvalidArtifactInformation(host.validationMessages(GenerateModel(config)))
    {
      var model := GenerateModel(config);
      calls := calls + [Validate(model)];
      var messages := host.validationMessages(model);
      err := if |messages| > 0 then Some(InvalidArtifactInformation(messages)) else None;
    }

    /** The loop over inJars. */
    method FetchInputs(host: InstallHost) returns (files: seq<Path>, err: Option<InstallError>)
      modifies this`calls
      ensures var r := FetchJars(Run(old(calls), None, []), config.inJars, host);
        calls == r.calls && err == r.err
      ensures err.None? ==> files == LocalFiles(host, config.inJars)
    {
      ghost var start := Run(calls, None, []);
      var names := config.inJars;
      files := [];
      var i := 0;
      while i < |names|
        invariant 0 <= i <= |names|
        invariant Run(calls, None, []) == FetchJars(start, names[..i], host)
        invariant files == LocalFiles(host, names[..i])
      {
        assert names[..i + 1][..i] == names[..i];
        err := Call(FetchJar(names[i]), RemapFailed(FetchJar(names[i])), host, []);
        if err.Some? {
          FetchJarsStop(start, names, i + 1, host);
          return;
        }
        files := files + [host.localFile(names[i])];
        i := i + 1;
      }
      assert names[..i] == names;
      err := None;
    }

    /** The remap block of execute. */
    method RemapInputs(host: InstallHost) returns (err: Option<InstallError>)
      modifies this`calls
      ensures var r := RemapStage(Run(old(calls), None, []), config, host);
        calls == r.calls && err == r.err
    {
      var files;
      files, err := FetchInputs(host);
      if err.Some? {
        return;
      }
      var init := InitJars(files);
      err := Call(init, RemapFailed(init), host, []);
      if err.Some? {
        return;
      }
      var temp := CreateTempJar(config.groupId + "." + config.artifactId + "-" + config.version, "." + config.packaging);
      err := Call(temp, RemapFailed(temp), host, []);
      if err.Some? {
        return;
      }
      var load := LoadMappings(config.srgIn, config.reverse, config.numeric, config.inShadeRelocation, config.outShadeRelocation);
      err := Call(load, RemapFailed(load), host, []);
      if err.Some? {
        return;
      }
      var provider := SetFallbackProvider(files);
      err := Call(provider, RemapFailed(provider), host, []);
      if err.Some? {
        return;
      }
      var remap := RemapJar(files, host.tempJar);
      err := Call(remap, RemapFailed(remap), host, []);
    }

    /** installChecksum. */
    method InstallChecksum(f: Path, alg: Algorithm, host: InstallHost, ghost files: seq<Path>) returns (err: Option<InstallError>)
      modifies this`calls
      ensures var r := OneChecksum(Run(old(calls), None, files), f, alg, host);
        calls == r.calls && err == r.err
    {
      var compute := Digest(f, alg);
      err := Call(compute, ChecksumFailed(compute), host, files);
      if err.Some? {
        return;
      }
      var write := WriteChecksum(ChecksumFile(f, alg), host.digest(alg, f));
      err := Call(write, ChecksumFailed(write), host, files);
    }

    /** installChecksums(File). */
    method InstallFileChecksums(f: Path, host: InstallHost, ghost files: seq<Path>) returns (err: Option<InstallError>)
      modifies this`calls
      ensures var r := FileChecksums(Run(old(calls), None, files), f, host);
        calls == r.calls && err == r.err
    {
      err := None;
      var signatureFile := EndsWith(Name(f), ".asc");
      if host.isFile(f) && !signatureFile {
        err := InstallChecksum(f, MD5, host, files);
        if err.Some? {
          return;
        }
        err := InstallChecksum(f, SHA1, host, files);
      }
    }

    /** installChecksums(Artifact, Collection), with the loop over the artifact's metadata. */
    method InstallArtifactChecksums(a: Artifact, metadataFiles: FileSet, host: InstallHost) returns (err: Option<InstallError>)
      modifies this`calls, metadataFiles
      ensures var r := ArtifactChecksums(Run(old(calls), None, old(metadataFiles.elements)), a, config.createChecksum, host);
        calls == r.calls && err == r.err && metadataFiles.elements == r.metadataFiles
    {
      ghost var s := Run(calls, None, metadataFiles.elements);
      err := None;
      if !config.createChecksum {
        assert ArtifactChecksums(s, a, config.createChecksum, host) == s;
        return;
      }
      err := InstallFileChecksums(LocalRepoFile(host, a.coord), host, metadataFiles.elements);
      ghost var t := FileChecksums(s, LocalRepoFile(host, a.coord), host);
      assert Run(calls, err, metadataFiles.elements) == t;
      if err.Some? {
        assert ArtifactChecksums(s, a, config.createChecksum, host) == t;
        return;
      }
      AddMetadataFiles(a, metadataFiles, host);
      assert ArtifactChecksums(s, a, config.createChecksum, host)
        == t.(metadataFiles := AddAll(s.metadataFiles, MetadataFiles(host, a.metadata)));
    }

    /** The loop that adds the metadata files of an installed artifact to the set. */
    method AddMetadataFiles(a: Artifact, metadataFiles: FileSet, host: InstallHost)
      modifies metadataFiles
      ensures metadataFiles.elements == AddAll(old(metadataFiles.elements), MetadataFiles(host, a.metadata))
    {
      ghost var files := MetadataFiles(host, a.metadata);
      var i := 0;
      while i < |a.metadata|
        invariant 0 <= i <= |a.metadata|
        invariant metadataFiles.elements == AddAll(old(metadataFiles.elements), files[..i])
      {
        assert files[..i + 1][..i] == files[..i];
        metadataFiles.Add(LocalRepoMetadataFile(host, a.metadata[i]));
        i := i + 1;
      }
      assert files[..i] == files;
    }

    /** One installer.install and its checksums. */
    method InstallOne(file: Path, a: Artifact, role: Role, metadataFiles: FileSet, host: InstallHost) returns (err: Option<InstallError>)
      modifies this`calls, metadataFiles
      ensures var r := InstallArtifact(Run(old(calls), None, old(metadataFiles.elements)), file, a, role, config, host);
        calls == r.calls && err == r.err && metadataFiles.elements == r.metadataFiles
    {
      var install := Install(file, a);
      err := Call(install, InstallFailed(role, install), host, metadataFiles.elements);
      if err.Some? {
        return;
      }
      err := InstallArtifactChecksums(Installed(host, a), metadataFiles, host);
    }

    /** The three installs; the main one deletes the temporary POM in its finally block. */
    method InstallArtifacts(metadataFiles: FileSet, host: InstallHost) returns (err: Option<InstallError>)
      modifies this`calls, metadataFiles
      ensures var r := AfterInstalls(Run(old(calls), None, old(metadataFiles.elements)), config, host);
        calls == r.calls && err == r.err && metadataFiles.elements == r.metadataFiles
    {
      ghost var pom := Run(calls, None, metadataFiles.elements);
      var coord := Coordinate(config.groupId, config.artifactId, config.version, config.packaging, config.classifier);
      var pomMetadata := PomMetadata(coord, host.tempPom);
      var artifact := Artifact(coord, [], false);
      if !host.present(LocalRepoMetadataFile(host, pomMetadata)) {
        artifact := artifact.(metadata := artifact.metadata + [pomMetadata]);
      }
      if config.updateReleaseInfo {
        artifact := artifact.(release := true);
      }
      assert artifact == MainArtifactOf(config, host);
      err := InstallOne(host.tempJar, artifact, MainArtifact, metadataFiles, host);
      calls := calls + [DeletePom(host.tempPom)];
      ghost var main := MainStage(pom, config, host);
      assert Run(calls, err, metadataFiles.elements) == main;
      if err.Some? {
        return;
      }
      if config.sources.Some? {
        artifact := ClassifiedArtifact(config, "sources");
        err := InstallOne(config.sources.value, artifact, SourcesArtifact, metadataFiles, host);
        if err.Some? {
          return;
        }
      }
      ghost var sources := ExtraStage(main, config.sources, "sources", SourcesArtifact, config, host);
      assert Run(calls, err, metadataFiles.elements) == sources;
      if config.javadoc.Some? {
        artifact := ClassifiedArtifact(config, "javadoc");
        err := InstallOne(config.javadoc.value, artifact, JavadocArtifact, metadataFiles, host);
      }
    }

    /** installChecksums(Collection): the loop over the set. */
    method InstallMetadataChecksums(metadataFiles: FileSet, host: InstallHost) returns (err: Option<InstallError>)
      modifies this`calls
      ensures var r := Drain(Run(old(calls), None, metadataFiles.elements), metadataFiles.elements, host);
        calls == r.calls && err == r.err
    {
      var files := metadataFiles.elements;
      ghost var start := Run(calls, None, files);
      err := None;
      var i := 0;
      while i < |files|
        invariant 0 <= i <= |files|
        invariant Run(calls, None, files) == Drain(start, files[..i], host)
        invariant err.None?
      {
        assert files[..i + 1][..i] == files[..i];
        ghost var before := Run(calls, None, files);
        err := InstallFileChecksums(files[i], host, files);
        assert Run(calls, err, files) == FileChecksums(before, files[i], host) == Drain(start, files[..i + 1], host);
        if err.Some? {
          DrainStop(start, files, i + 1, host);
          return;
        }
        i := i + 1;
      }
      assert files[..i] == files;
    }

    /** execute() up to the generated POM: validation, the remap block, generatePomFile. */
    method PrepareInstall(host: InstallHost) returns (err: Option<InstallError>)
      modifies this`calls
      ensures err.Some? ==> InstallRun(config, host, old(calls)) == Run(calls, err, [])
      ensures err.None? ==> BeforeDrain(config, host, old(calls)) == AfterInstalls(Run(calls, None, []), config, host)
    {
      ghost var pre := calls;
      err := ValidateArtifactInformation(host);
      if err.Some? {
        return;
      }
      ghost var validated := Run(calls, None, []);
      err := RemapInputs(host);
      if err.Some? {
        assert AfterValidation(validated, config, host) == RemapStage(validated, config, host);
        return;
      }
      var write := WritePom(host.tempPom, GenerateModel(config));
      err := Call(write, PomWriteFailed(write), host, []);
      assert Run(calls, err, []) == PomStage(RemapStage(validated, config, host), config, host);
    }

    /** execute() from the installs on: the three installs, then the metadata checksums. */
    method InstallAndChecksum(host: InstallHost) returns (err: Option<InstallError>)
      modifies this`calls
      ensures var b := AfterInstalls(Run(old(calls), None, []), config, host);
        var r := Drain(b, b.metadataFiles, host);
        calls == r.calls && err == r.err
    {
      var metadataFiles := new FileSet();
      err := InstallArtifacts(metadataFiles, host);
      if err.Some? {
        return;
      }
      err := InstallMetadataChecksums(metadataFiles, host);
    }

    /** execute(). */
    method Execute(host: InstallHost) returns (err: Option<InstallError>)
      modifies this`calls
      ensures var r := InstallRun(config, host, old(calls));
        calls == r.calls && err == r.err
    {
      err := PrepareInstall(host);
      if err.Some? {
        return;
      }
      err := InstallAndChecksum(host);
    }
  }
}
