# SpecialSourceMP in Dafny

A model of the two goals of the SpecialSource Maven plugin, with proofs about the model.

- **`remap`** (`RemapMojo`) takes the project's main jar and remaps it with the SpecialSource library. The mappings come from `srgIn`. That setting is a file path, or an artifact coordinate that is resolved first. The remapper gets an inheritance provider made of the configured dependencies, the project's "jar" dependencies and the input jar. The remapped jar is then renamed to `finalName`, attached under a classifier, or put in place of the original artifact. The replacement step backs up the old file as `original-<name>`.
- **`install-remapped-file`** (`InstallRemappedFileMojo`) does the following in order:
  1. validates the configured coordinates;
  2. remaps the input jars into a temporary jar;
  3. writes a minimal POM;
  4. installs the jar, then the optional sources and javadoc jars, into the local repository;
  5. writes MD5 and SHA-1 checksum files: one pass per installed artifact, then a final pass over the collected metadata files.

The remapping library, Maven's resolver, installer and validator, and the digesters are outside the model. Each call the goals make into them goes into a call log with its arguments. Their answers come from a host value passed as a parameter: whether a call throws, the file an artifact resolves to, the validation messages, the digest strings, and the repository layout.

The file replacement of the `remap` goal works on a modelled filesystem: a map from path to entry, held by a `FileSystem` object. Each `renameTo` and stream copy takes the platform's answer as a parameter. A stream copy opens its output first, which creates or truncates the target, and only then opens the source.

Files:

| file | contents |
|---|---|
| `wrappers.dfy` | `Option`, `Result` |
| `paths.dfy` | `java.io.File` paths as sequences of name segments |
| `coordinates.dfy` | `String.split(":")`, coordinate parsing, the `srgIn` test |
| `filesystem.dfy` | the filesystem, `renameTo`, stream copy |
| `replace_file.dfy` | `replaceFile` |
| `remap.dfy` | the `remap` goal |
| `install.dfy` | the `install-remapped-file` goal |

The state-changing code is written as classes: `RemapMojo`, `InstallMojo`, `FileSet` (the `LinkedHashSet` of metadata files) and `FileSystem`. Their methods keep the source's loops.

Most methods are proved equal to a specification function of the old state and the host. Examples are `Prepare`, `InstallRun`, `Copy` and `Replaced`. The disposition methods (`Dispose`, `DisposeAsWritten`, and `Execute` after them) state their calls for each outcome, and their files and outcome through the predicate `Disposed`. The properties the source promises are stated on those functions or as lemmas about them.

## Model

| member | source | states |
|---|---|---|
| Coordinates.DropTrailingEmpty | src/main/java/net/md_5/specialsource/mavenplugin/RemapMojo.java:146 | split with limit 0: the result is a prefix of the pieces, only empty pieces are dropped, and the last kept piece is not empty |
| Coordinates.JoinFields | src/main/java/net/md_5/specialsource/mavenplugin/RemapMojo.java:146 | the pieces between the colons are colon-free, and joining them with ':' gives the string back |
| Coordinates.JavaSplitShape | src/main/java/net/md_5/specialsource/mavenplugin/RemapMojo.java:146 | the fields `split(":")` keeps are colon-free, the last is not empty, and the string is their join followed only by colons |
| Coordinates.ParseCoordinate | src/main/java/net/md_5/specialsource/mavenplugin/RemapMojo.java:145-150 | accepted iff the split has 4 or 5 fields; otherwise the error carries the field count; fields fill group, artifact, version and type in order; a classifier is present iff there are 5 fields |
| Coordinates.ParseFormat | src/main/java/net/md_5/specialsource/mavenplugin/RemapMojo.java:145-150 | every coordinate expressible as `g:a:v:t[:c]` parses back to itself |
| Coordinates.ParseSound | src/main/java/net/md_5/specialsource/mavenplugin/RemapMojo.java:145-150 | an accepted string names an expressible coordinate and is its string form followed only by colons |
| Coordinates.TrailingColonDropsEmptyClassifier | src/main/java/net/md_5/specialsource/mavenplugin/RemapMojo.java:146-150 | `g:a:v:t:` parses as four fields with no classifier |
| Coordinates.ColonFreeSettingIsPath | src/main/java/net/md_5/specialsource/mavenplugin/RemapMojo.java:194 | a setting without ':' is used as a path |
| Coordinates.DriveLetterSettingIsPath | src/main/java/net/md_5/specialsource/mavenplugin/RemapMojo.java:194 | a setting whose second character is ':' (a drive letter) is used as a path |
| Coordinates.FormattedSettingIsCoordinate | src/main/java/net/md_5/specialsource/mavenplugin/RemapMojo.java:194 | the string form of a coordinate whose groupId has two or more characters is taken as a coordinate |
| Coordinates.OneCharGroupSettingIsPath | src/main/java/net/md_5/specialsource/mavenplugin/RemapMojo.java:194 | a coordinate with a one-character groupId is taken for a path |
| FileSystems.Renamed | src/main/java/net/md_5/specialsource/mavenplugin/RemapMojo.java:312 | succeeds iff the source exists and the platform permits it; a failure changes nothing |
| FileSystems.Copy | src/main/java/net/md_5/specialsource/mavenplugin/RemapMojo.java:321-338 | the target is opened (created or truncated) before the source is read: succeeds iff the platform lets the streams through, the target is not a directory and the source is a regular file once the target is open; a copy onto itself leaves an empty file; when the target cannot be opened nothing changes; otherwise a failure leaves the target empty or holding the bytes written |
| FileSystems.FileSystem.RenameTo | src/main/java/net/md_5/specialsource/mavenplugin/RemapMojo.java:312 | the rename on the filesystem object, equal to `Renamed` |
| FileSystems.FileSystem.CopyTo | src/main/java/net/md_5/specialsource/mavenplugin/RemapMojo.java:321-338 | the stream copy on the filesystem object, equal to `Copy` |
| FileReplacement.BackupPath | src/main/java/net/md_5/specialsource/mavenplugin/RemapMojo.java:281 | the backup is in the output directory and named `original-` + the old file's name |
| FileReplacement.BackupIsNotOldFile | src/main/java/net/md_5/specialsource/mavenplugin/RemapMojo.java:281 | the backup path is never the old file itself |
| FileReplacement.Backup | src/main/java/net/md_5/specialsource/mavenplugin/RemapMojo.java:281-311 | nothing happens when the old file is absent; a rename takes the old file away, otherwise it keeps its entry; when a rename or the copy succeeds, the backup holds the old file's entry; no other path changes; a failure is ignored |
| FileReplacement.Move | src/main/java/net/md_5/specialsource/mavenplugin/RemapMojo.java:312-340 | for distinct paths: succeeds iff a rename or the copy succeeds; then the old path holds the new file's entry; a move by either rename leaves the new path empty, and when neither rename is let through the new path keeps its entry; no other path changes |
| FileReplacement.Replaced | src/main/java/net/md_5/specialsource/mavenplugin/RemapMojo.java:276-341 | for separate paths: succeeds iff a rename succeeds or the copy succeeds where no directory the backup failed to move blocks it; on success the old path holds the new file's entry; a move by either rename leaves the new path empty, the copy leaves it as it was; a successful backup holds the old entry; nothing is backed up when the old file is absent; no other path changes |
| FileReplacement.ReplaceOntoItself | src/main/java/net/md_5/specialsource/mavenplugin/RemapMojo.java:281-338 | replacing a file by itself: once the backup moves it away the call succeeds iff the copy goes through, and leaves an empty file, the contents surviving only in the backup; otherwise only a rename onto itself keeps the contents, and the copy empties the file |
| FileReplacement.SaveOriginal | src/main/java/net/md_5/specialsource/mavenplugin/RemapMojo.java:281-311 | the backup step on the filesystem object, equal to `Backup` |
| FileReplacement.MoveIntoPlace | src/main/java/net/md_5/specialsource/mavenplugin/RemapMojo.java:312-340 | the move step on the filesystem object, equal to `Move` |
| FileReplacement.ReplaceFile | src/main/java/net/md_5/specialsource/mavenplugin/RemapMojo.java:276-341 | replaceFile on the filesystem object, equal to `Replaced` |
| Remap.RemappedArtifactFile | src/main/java/net/md_5/specialsource/mavenplugin/RemapMojo.java:269-274 | the remapped file lies in the output directory and is named remappedArtifactId-version-classifier.extension |
| Remap.FinalFile | src/main/java/net/md_5/specialsource/mavenplugin/RemapMojo.java:243-244 | the renamed file lies in the output directory and is named finalName.extension |
| Remap.RemappedFileIsFinalFileIff | src/main/java/net/md_5/specialsource/mavenplugin/RemapMojo.java:241-246 | the rename targets the output itself iff finalName spells the remapped file's base name |
| Remap.Decide | src/main/java/net/md_5/specialsource/mavenplugin/RemapMojo.java:236-258 | renamed iff finalName is set, not empty and not the build's final name; the rename target is `finalName.extension` in the output directory; attached iff remappedArtifactAttached; the original is replaced iff neither; a rename never also replaces the original |
| Remap.AttachedFileDiffersIff | src/main/java/net/md_5/specialsource/mavenplugin/RemapMojo.java:250-253 | the corrected disposition differs from the source's iff the output is both renamed and attached to a file other than itself |
| Remap.DispositionReplacesAtMostOnce | src/main/java/net/md_5/specialsource/mavenplugin/RemapMojo.java:236-258 | the disposition calls replaceFile at most once, and exactly once unless the output is only attached |
| Remap.ResolveCoordinate | src/main/java/net/md_5/specialsource/mavenplugin/RemapMojo.java:154-158 | one resolve call; it fails iff the resolver has no file, with a resolution error naming the coordinate, and otherwise yields exactly that file |
| Remap.ResolveSetting | src/main/java/net/md_5/specialsource/mavenplugin/RemapMojo.java:145-152 | succeeds iff the entry parses and its coordinate resolves, yielding exactly that file; a wrong field count fails with the count before any call; a parsed entry is exactly the resolution of its coordinate |
| Remap.JarDependencies | src/main/java/net/md_5/specialsource/mavenplugin/RemapMojo.java:209-210 | only project dependencies of type "jar" are kept |
| Remap.JarDependenciesMembers | src/main/java/net/md_5/specialsource/mavenplugin/RemapMojo.java:209-210 | a dependency is kept iff its type is "jar" |
| Remap.JarDependenciesAppend | src/main/java/net/md_5/specialsource/mavenplugin/RemapMojo.java:208-210 | the filter keeps the project's order: filtering a concatenation filters each part |
| Remap.SettingYield | src/main/java/net/md_5/specialsource/mavenplugin/RemapMojo.java:203-206 | an entry that resolves and opens yields one provider, the file the entry resolves to |
| Remap.SettingProvidersYield | src/main/java/net/md_5/specialsource/mavenplugin/RemapMojo.java:203-207 | without error, provider i is the file of the i-th `remappedDependencies` entry |
| Remap.ProjectProvidersYield | src/main/java/net/md_5/specialsource/mavenplugin/RemapMojo.java:208-216 | without error, provider j is the file of the j-th "jar" dependency |
| Remap.ProvidersInOrder | src/main/java/net/md_5/specialsource/mavenplugin/RemapMojo.java:202-218 | the providers are the configured entries in order, then the project's jar dependencies if enabled, then the input jar last |
| Remap.SettingProvidersStop | src/main/java/net/md_5/specialsource/mavenplugin/RemapMojo.java:203-207 | the first failing entry ends the loop; later entries add nothing |
| Remap.ProjectProvidersStop | src/main/java/net/md_5/specialsource/mavenplugin/RemapMojo.java:209-215 | the first failing dependency ends the loop; later dependencies add nothing |
| Remap.CollectSettingProviders | src/main/java/net/md_5/specialsource/mavenplugin/RemapMojo.java:203-207 | the loop computes exactly the inheritance providers of the entries |
| Remap.CollectProjectProviders | src/main/java/net/md_5/specialsource/mavenplugin/RemapMojo.java:208-216 | the loop computes exactly the providers of the project's jar dependencies |
| Remap.CollectProviders | src/main/java/net/md_5/specialsource/mavenplugin/RemapMojo.java:202-218 | the loops compute exactly the joint provider |
| Remap.ExclusionCalls | src/main/java/net/md_5/specialsource/mavenplugin/RemapMojo.java:189-193 | one exclusion per package, in order |
| Remap.MappingSource | src/main/java/net/md_5/specialsource/mavenplugin/RemapMojo.java:194-196 | the srgIn test makes only resolve calls, and on error keeps srgIn as it was |
| Remap.MappingSourceChoice | src/main/java/net/md_5/specialsource/mavenplugin/RemapMojo.java:194-197 | a path setting is used unchanged; a malformed coordinate stops the run after the exclusions with the field count; a resolved coordinate is replaced by its file's path |
| Remap.RunReplacesAtMostOnce | src/main/java/net/md_5/specialsource/mavenplugin/RemapMojo.java:160-258 | a whole run calls replaceFile at most once |
| Remap.RemapMojo.Call | src/main/java/net/md_5/specialsource/mavenplugin/RemapMojo.java:197-234 | logs exactly the call; it throws iff it is fallible and the host says so |
| Remap.ReplaceRemappedOutcome | src/main/java/net/md_5/specialsource/mavenplugin/RemapMojo.java:246-256 | replacing a separate destination with the written output succeeds iff a rename is let through, or the copy is and no directory at the destination stays in the way |
| Remap.RemapMojo.Replace | src/main/java/net/md_5/specialsource/mavenplugin/RemapMojo.java:246 | logs the call; outcome and files are those of `Replaced` |
| Remap.RemapMojo.ExcludePackages | src/main/java/net/md_5/specialsource/mavenplugin/RemapMojo.java:189-193 | the loop logs exactly the exclusions, in order |
| Remap.RemapMojo.ResolveMappingSource | src/main/java/net/md_5/specialsource/mavenplugin/RemapMojo.java:194-196 | matches the srgIn test: the calls, the error, and the new srgIn |
| Remap.RemapMojo.LoadInput | src/main/java/net/md_5/specialsource/mavenplugin/RemapMojo.java:197-199 | loadMappings, then Jar.init of the input, stopping at the first that throws |
| Remap.RemapMojo.ConfigureRemapper | src/main/java/net/md_5/specialsource/mavenplugin/RemapMojo.java:218-233 | providers, access transformer when set, API flag, log file when set; stops at the first that throws |
| Remap.RemapMojo.RunRemapper | src/main/java/net/md_5/specialsource/mavenplugin/RemapMojo.java:218-234 | the configuration then remapJar; only a successful remapJar writes the output file, and nothing else changes |
| Remap.RemapMojo.RunFromSource | src/main/java/net/md_5/specialsource/mavenplugin/RemapMojo.java:197-234 | loadMappings through remapJar, as the specification function computes them |
| Remap.RemapMojo.PrepareRun | src/main/java/net/md_5/specialsource/mavenplugin/RemapMojo.java:186-234 | everything before the disposition: calls, error, srgIn and the written output |
| Remap.RemapMojo.Dispose | src/main/java/net/md_5/specialsource/mavenplugin/RemapMojo.java:236-258 | rename, attach or replace as decided; without a destination it completes and changes no file; otherwise the files are those of one replaceFile onto the destination, and it completes iff that succeeds, failing with that file; for separate paths the destination and the attached file hold the remapped jar |
| Remap.RemapMojo.DisposeAsWritten | src/main/java/net/md_5/specialsource/mavenplugin/RemapMojo.java:241-258 | the source's disposition: the same outcome, calls and files as `Dispose` except that the attach names the output, a path that a successful rename (first attempt or retry) has emptied |
| Remap.RemapMojo.Execute | src/main/java/net/md_5/specialsource/mavenplugin/RemapMojo.java:160-266 | a missing main artifact skips the ForgeMod parent and fails elsewhere, changing nothing; inputFile defaults to the main artifact; the calls, error and files are those of the run up to remapJar, then the disposition on the files with the output written, completing iff its replaceFile succeeds |
| Install.GenerateModel | src/main/java/net/md_5/specialsource/mavenplugin/InstallRemappedFileMojo.java:333-347 | model version 4.0.0, the four configured coordinates, the fixed description |
| Install.MetadataFiles | src/main/java/net/md_5/specialsource/mavenplugin/InstallRemappedFileMojo.java:435-441 | one local-repository file per metadata entry, in list order |
| Install.LocalFiles | src/main/java/net/md_5/specialsource/mavenplugin/InstallRemappedFileMojo.java:190-193 | one downloaded file per input name, in order |
| Install.ChecksumFile | src/main/java/net/md_5/specialsource/mavenplugin/InstallRemappedFileMojo.java:504 | the checksum file sits beside the installed file, named with the algorithm's extension appended |
| Install.MainArtifactOf | src/main/java/net/md_5/specialsource/mavenplugin/InstallRemappedFileMojo.java:174-229 | the configured coordinates; the POM is attached only when not already present in the repository; release iff updateReleaseInfo |
| Install.Insert | src/main/java/net/md_5/specialsource/mavenplugin/InstallRemappedFileMojo.java:439 | LinkedHashSet.add: a new file goes at the end, a present one changes nothing, no duplicates arise |
| Install.AddAllKeepsOrder | src/main/java/net/md_5/specialsource/mavenplugin/InstallRemappedFileMojo.java:234 | files already in the set keep their place |
| Install.AddAllMembers | src/main/java/net/md_5/specialsource/mavenplugin/InstallRemappedFileMojo.java:234 | the set holds exactly the old and the added files |
| Install.AddAllDistinct | src/main/java/net/md_5/specialsource/mavenplugin/InstallRemappedFileMojo.java:234 | the set never holds a file twice |
| Install.AddAllPresent | src/main/java/net/md_5/specialsource/mavenplugin/InstallRemappedFileMojo.java:234 | adding present files changes nothing |
| Install.Step | src/main/java/net/md_5/specialsource/mavenplugin/InstallRemappedFileMojo.java:170-306 | a stopped run makes no call; otherwise exactly one, which stops the run iff it throws |
| Install.OneChecksum | src/main/java/net/md_5/specialsource/mavenplugin/InstallRemappedFileMojo.java:489-515 | only checksum calls; nothing after an earlier error |
| Install.FileChecksums | src/main/java/net/md_5/specialsource/mavenplugin/InstallRemappedFileMojo.java:467-476 | no call for a file that is not a regular file or ends in `.asc` |
| Install.ArtifactChecksums | src/main/java/net/md_5/specialsource/mavenplugin/InstallRemappedFileMojo.java:421-442 | nothing unless createChecksum; otherwise the calls and the error are exactly those of checksumming the artifact's local-repository file, and on success its metadata files are added to the set in order |
| Install.InstallArtifact | src/main/java/net/md_5/specialsource/mavenplugin/InstallRemappedFileMojo.java:236-240 | the install and its checksums only extend the log, and keep the set free of duplicates |
| Install.InstallArtifactMetadata | src/main/java/net/md_5/specialsource/mavenplugin/InstallRemappedFileMojo.java:238-239 | a successful install with checksums adds the installed artifact's metadata files |
| Install.FetchJars | src/main/java/net/md_5/specialsource/mavenplugin/InstallRemappedFileMojo.java:191-193 | only remapping calls |
| Install.RemapStage | src/main/java/net/md_5/specialsource/mavenplugin/InstallRemappedFileMojo.java:186-210 | only remapping calls; any failure is a remap error |
| Install.PomStage | src/main/java/net/md_5/specialsource/mavenplugin/InstallRemappedFileMojo.java:214 | a running stage appends exactly the write of the generated model to the temporary POM file |
| Install.MainStage | src/main/java/net/md_5/specialsource/mavenplugin/InstallRemappedFileMojo.java:236-252 | extends the log; nothing after an earlier error |
| Install.ExtraStage | src/main/java/net/md_5/specialsource/mavenplugin/InstallRemappedFileMojo.java:254-280 | nothing when the file is not configured or the run has stopped |
| Install.AfterInstalls | src/main/java/net/md_5/specialsource/mavenplugin/InstallRemappedFileMojo.java:236-280 | the three installs extend the log and keep the set duplicate-free |
| Install.Drain | src/main/java/net/md_5/specialsource/mavenplugin/InstallRemappedFileMojo.java:450-458 | the final pass adds only checksum calls |
| Install.InstallRun | src/main/java/net/md_5/specialsource/mavenplugin/InstallRemappedFileMojo.java:170-306 | the run only extends the log |
| Install.ValidationFirst | src/main/java/net/md_5/specialsource/mavenplugin/InstallRemappedFileMojo.java:170-172 | validation is the first call; an invalid model stops the run there with its messages; a valid one never gives that error |
| Install.InstallOrder | src/main/java/net/md_5/specialsource/mavenplugin/InstallRemappedFileMojo.java:236-280 | the installs made are a prefix of main, sources, javadoc (for the configured files), and all of them when the run succeeds |
| Install.NoChecksumsWithoutFlag | src/main/java/net/md_5/specialsource/mavenplugin/InstallRemappedFileMojo.java:424-427 | without createChecksum no checksum call is made and the set stays empty |
| Install.PomDeletedWhenWritten | src/main/java/net/md_5/specialsource/mavenplugin/InstallRemappedFileMojo.java:246-251 | a written POM is deleted after the main install call, whether or not that install succeeded |
| Install.NoPomDeletedUnlessWritten | src/main/java/net/md_5/specialsource/mavenplugin/InstallRemappedFileMojo.java:186-252 | when the POM was never written, no delete happens |
| Install.FileChecksumsCalls | src/main/java/net/md_5/specialsource/mavenplugin/InstallRemappedFileMojo.java:467-515 | an eligible file gets MD5 then SHA-1, each computed then written, stopping at the first failing call with that call in the error |
| Install.FileChecksumsDigestOnce | src/main/java/net/md_5/specialsource/mavenplugin/InstallRemappedFileMojo.java:467-476 | each digest of an eligible file is computed once, and none for other files |
| Install.DrainDigestsOnce | src/main/java/net/md_5/specialsource/mavenplugin/InstallRemappedFileMojo.java:450-458 | over a duplicate-free set each eligible member's digests are computed exactly once, and no others |
| Install.MetadataFilesDistinct | src/main/java/net/md_5/specialsource/mavenplugin/InstallRemappedFileMojo.java:234 | the collected set has no duplicates |
| Install.FinalPassChecksumsEachOnce | src/main/java/net/md_5/specialsource/mavenplugin/InstallRemappedFileMojo.java:282 | in a successful run the final pass computes each digest exactly once per eligible set member, and none for other files |
| Install.AfterInstallsMetadata | src/main/java/net/md_5/specialsource/mavenplugin/InstallRemappedFileMojo.java:236-280 | the set is the main, sources and javadoc metadata files added in install order |
| Install.InstallArtifactDigests | src/main/java/net/md_5/specialsource/mavenplugin/InstallRemappedFileMojo.java:236-240 | a successful install with createChecksum on computes the digest of the installed artifact's local-repository file, if eligible |
| Install.MainStageDigests | src/main/java/net/md_5/specialsource/mavenplugin/InstallRemappedFileMojo.java:236-252 | the main stage computes the digests of the main artifact's local-repository file |
| Install.InstalledFilesChecksummed | src/main/java/net/md_5/specialsource/mavenplugin/InstallRemappedFileMojo.java:236-280 | a successful run with createChecksum on computes the MD5 and SHA-1 digests of the local-repository file of the main artifact and of each configured sources and javadoc artifact, when that file is eligible |
| Install.MetadataFilesOfInstalls | src/main/java/net/md_5/specialsource/mavenplugin/InstallRemappedFileMojo.java:234-282 | a file is in the set iff it is a metadata file of one of the installs made |
| Install.FetchJarsStop | src/main/java/net/md_5/specialsource/mavenplugin/InstallRemappedFileMojo.java:191-193 | a failing download ends the loop |
| Install.DrainStop | src/main/java/net/md_5/specialsource/mavenplugin/InstallRemappedFileMojo.java:453-457 | a failing checksum ends the final pass |
| Install.FileSet.Add | src/main/java/net/md_5/specialsource/mavenplugin/InstallRemappedFileMojo.java:439 | adds as LinkedHashSet.add does |
| Install.InstallMojo.Call | src/main/java/net/md_5/specialsource/mavenplugin/InstallRemappedFileMojo.java:170-306 | one call, as Step computes it |
| Install.InstallMojo.ValidateArtifactInformation | src/main/java/net/md_5/specialsource/mavenplugin/InstallRemappedFileMojo.java:313-325 | validates the generated model; fails iff there is a message, carrying the messages |
| Install.InstallMojo.FetchInputs | src/main/java/net/md_5/specialsource/mavenplugin/InstallRemappedFileMojo.java:190-193 | the loop matches FetchJars and yields the downloaded files in order |
| Install.InstallMojo.RemapInputs | src/main/java/net/md_5/specialsource/mavenplugin/InstallRemappedFileMojo.java:186-210 | matches the remap block |
| Install.InstallMojo.InstallChecksum | src/main/java/net/md_5/specialsource/mavenplugin/InstallRemappedFileMojo.java:489-515 | matches one checksum |
| Install.InstallMojo.InstallFileChecksums | src/main/java/net/md_5/specialsource/mavenplugin/InstallRemappedFileMojo.java:467-476 | matches the checksums of one file |
| Install.InstallMojo.InstallArtifactChecksums | src/main/java/net/md_5/specialsource/mavenplugin/InstallRemappedFileMojo.java:421-442 | matches the artifact's checksums and the new set |
| Install.InstallMojo.AddMetadataFiles | src/main/java/net/md_5/specialsource/mavenplugin/InstallRemappedFileMojo.java:435-441 | the loop adds the metadata files in order |
| Install.InstallMojo.InstallOne | src/main/java/net/md_5/specialsource/mavenplugin/InstallRemappedFileMojo.java:236-240 | matches one install with its checksums |
| Install.InstallMojo.InstallArtifacts | src/main/java/net/md_5/specialsource/mavenplugin/InstallRemappedFileMojo.java:226-280 | matches the three installs, the POM delete and the set |
| Install.InstallMojo.InstallMetadataChecksums | src/main/java/net/md_5/specialsource/mavenplugin/InstallRemappedFileMojo.java:450-458 | the loop matches the final pass |
| Install.InstallMojo.PrepareInstall | src/main/java/net/md_5/specialsource/mavenplugin/InstallRemappedFileMojo.java:170-224 | validation, the remap block and the POM write; an error there is the whole run's outcome |
| Install.InstallMojo.InstallAndChecksum | src/main/java/net/md_5/specialsource/mavenplugin/InstallRemappedFileMojo.java:234-282 | the installs, then the final pass |
| Install.InstallMojo.Execute | src/main/java/net/md_5/specialsource/mavenplugin/InstallRemappedFileMojo.java:170-306 | the calls and the error are exactly those of the run function, whose properties are the lemmas above |

## Left out

- The SpecialSource library is not part of this model. That covers `JarMapping`, `Jar`, `JarRemapper`, `AccessMap`, the providers and `URLDownloader`. Each call into it is logged with its arguments, and whether it throws comes from the host. The jar written by `remapJar` has host-given contents.
- Maven's resolver, installer, validator, artifact factory and repository layout are host functions. The validator returns a message list. The installer's own additions to an artifact's metadata are a host function of the coordinate.
- Digest values are host-given strings. The MD5 and SHA-1 algorithms are not modelled.
- The XML writing of the POM, `File.createTempFile`, `mkdirs` and the UTF-8 file write are single calls that may fail. Temporary file names are host values.
- Logging, `System.out`, `System.gc()` and the exception messages are left out. `System.gc()` is modelled only as the second rename attempt that follows it. Errors are datatype values that carry their cause.
- The local repository of the install goal is not filesystem state. `exists()` and `isFile()` there are host predicates, and installs and checksum writes are logged calls. The `remap` goal's files are state.
- `generatedPomFile.delete()` is one logged call, and its result is ignored as in the source.
- `getAbsolutePath()` is the identity, since every path in the model is already absolute.
- Java `null` is left out. An unset `excludedPackages` array is the empty sequence, and unset strings and files are `None`.
- The artifact metadata of Maven (a map keyed by metadata type) is a sequence in insertion order. The POM is added to a fresh artifact, so no key collides.
- The commented-out blocks of the install goal are not code and are not modelled. Those are the "already in the local repository" check and the dynamic dependency.
- Concurrency is left out. Neither goal has any.
- Remap.RemapMojo.Execute: when `remapJar` throws, the model leaves the filesystem unchanged. The library may leave a partial output file, which is not modelled.
- FileReplacement.Replaced: the outcome and contents claims in terms of the files before the call assume the three paths are distinct (`Separate`). For a file replaced by itself, `ReplaceOntoItself` states the outcome and the contents, and `Backup` and `Move` state each step for any paths.
- Remap.RemapMojo.Execute: composes the corrected disposition, `Dispose`, which attaches the renamed file. The source's attach of the output is `DisposeAsWritten`, and `AttachedFileDiffersIff` says exactly when the two differ.
- Coordinates.IsCoordinateSetting: strings are sequences of Unicode scalar values, while Java's `length()` and `charAt(1)` count UTF-16 code units. A setting that starts with a character outside the Basic Multilingual Plane is therefore classified by its second character here and by the second half of a surrogate pair in Java.
- FileSystems.Moved: a rename moves the entry at one path of the flat map; the entries below a renamed directory are not moved with it. A directory at the old path matters to the model only through `MoveSucceeds`, where it blocks the copy.
- FileSystems.Copy: the bytes a broken copy leaves are a host value; that they are a prefix of the source's contents is not stated.
- Install.InstallMojo.Execute: states the calls and the error. What the installer writes into the local repository is host behaviour and is not stated.

## Findings

| source | as written | input that shows it | evidently intended | confidence | as-written member | corrected member |
|---|---|---|---|---|---|---|
| src/main/java/net/md_5/specialsource/mavenplugin/RemapMojo.java:250-253 | After `replaceFile(finalFile, outputFile)` has renamed the output, the attach step still attaches `outputFile`. | `finalName` set, not empty and not the build's final name, `remappedArtifactAttached` true, and either `renameTo` attempt succeeds: the attached path no longer exists. | Attach `finalFile`, the file that holds the remapped jar after the rename, as maven-shade-plugin does by reassigning its output jar. | medium, not executed | Remap.RemapMojo.DisposeAsWritten | Remap.RemapMojo.Dispose |
