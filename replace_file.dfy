/**
 * RemapMojo.replaceFile: put the remapped jar in place of an existing file. The old
 * file is first saved as `original-<name>` in the output directory (rename, a second
 * rename after an attempt to collect unclosed streams, then a copy; a failure here is
 * only logged), then the new file is moved over the old path (the same three
 * attempts; only when all three fail is an error raised).
 */
module FileReplacement {
  import opened Paths
  import opened Wrappers
  import opened FileSystems

  /** The platform's answer to each attempt replaceFile may make, in program order. */
  datatype ReplaceEnv = ReplaceEnv(
    backupRename: bool,
    backupRetry: bool,
    backupCopy: CopyOutcome,
    moveRename: bool,
    moveRetry: bool,
    moveCopy: CopyOutcome)

  /** `new File(outputDirectory, "original-" + oldFile.getName())`. */
  function BackupPath(outputDirectory: Path, oldFile: Path): (b: Path)
    ensures Parent(b) == outputDirectory && Name(b) == "original-" + Name(oldFile)
  {
    Child(outputDirectory, "original-" + Name(oldFile))
  }

  /** The backup never lands on the file it saves: its name is longer. */
  lemma BackupIsNotOldFile(outputDirectory: Path, oldFile: Path)
    ensures BackupPath(outputDirectory, oldFile) != oldFile
  {
    var b := BackupPath(outputDirectory, oldFile);
    assert |Name(b)| == 9 + |Name(oldFile)|;
  }

  /** The three paths replaceFile touches are distinct (the backup is never the old file). */
  predicate Separate(outputDirectory: Path, oldFile: Path, newFile: Path) {
    newFile != oldFile && newFile != BackupPath(outputDirectory, oldFile)
  }

  /**
   * Whether saving the old file succeeds: by one of the two renames, or by the copy,
   * which needs the backup's output stream to open.
   */
  predicate BackupSucceeds(files: map<Path, Entry>, backup: Path, oldFile: Path, env: ReplaceEnv) {
    || (oldFile in files && (env.backupRename || env.backupRetry))
    || (env.backupCopy.Copied? && TargetOpens(files, backup, env.backupCopy) && IsFileIn(files, oldFile))
  }

  /**
   * Whether moving `newFile` over `oldFile` succeeds, for distinct paths, judged on the
   * files before the backup: by one of the two renames, or by the copy, whose output
   * stream does not open on a directory the backup failed to move away.
   */
  predicate MoveSucceeds(files: map<Path, Entry>, oldFile: Path, newFile: Path, env: ReplaceEnv) {
    || (newFile in files && (env.moveRename || env.moveRetry))
    || (&& env.moveCopy.Copied?
        && IsFileIn(files, newFile)
        && !(oldFile in files && files[oldFile].Directory? && !env.backupRename && !env.backupRetry))
  }

  /** The files after the backup step, which is only attempted when the old file exists. */
  function Backup(files: map<Path, Entry>, backup: Path, oldFile: Path, env: ReplaceEnv): (r: map<Path, Entry>)
    requires backup != oldFile
    ensures oldFile !in files ==> r == files
    // a rename takes the old file away; otherwise it keeps its entry
    ensures Lookup(r, oldFile) ==
      if oldFile in files && (env.backupRename || env.backupRetry) then None else Lookup(files, oldFile)
    ensures BackupSucceeds(files, backup, oldFile, env) ==> backup in r && r[backup] == files[oldFile]
    ensures forall p :: p != oldFile && p != backup ==> Lookup(r, p) == Lookup(files, p)
  {
    if oldFile !in files then files
    else if env.backupRename || env.backupRetry then Moved(files, oldFile, backup)
    else Copy(files, oldFile, backup, env.backupCopy).files
  }

  /** The move step on the files: rename, rename again, then copy. */
  function Move(files: map<Path, Entry>, oldFile: Path, newFile: Path, env: ReplaceEnv): (t: Transfer)
    ensures t.ok ==> oldFile in t.files
    ensures newFile != oldFile ==>
      (t.ok <==> || (newFile in files && (env.moveRename || env.moveRetry))
                 || (env.moveCopy.Copied? && TargetOpens(files, oldFile, env.moveCopy) && IsFileIn(files, newFile)))
    // on success the old path holds what the new file held
    ensures newFile != oldFile && t.ok ==> t.files[oldFile] == files[newFile]
    // a move by either rename leaves nothing at the new file's path; the copy leaves it as it was
    ensures newFile in files && newFile != oldFile && (env.moveRename || env.moveRetry) ==> newFile !in t.files
    ensures newFile != oldFile && !env.moveRename && !env.moveRetry ==> Lookup(t.files, newFile) == Lookup(files, newFile)
    ensures forall p :: p != oldFile && p != newFile ==> Lookup(t.files, p) == Lookup(files, p)
  {
    var first := Renamed(files, newFile, oldFile, env.moveRename);
    if first.ok then first
    else
      var second := Renamed(first.files, newFile, oldFile, env.moveRetry);
      if second.ok then second else Copy(second.files, newFile, oldFile, env.moveCopy)
  }

  /**
   * replaceFile(oldFile, newFile) on the files: the backup, then the move. `ok` is false
   * where the source throws "Could not replace original artifact with remapped artifact!".
   */
  function Replaced(files: map<Path, Entry>, outputDirectory: Path, oldFile: Path, newFile: Path, env: ReplaceEnv)
    : (t: Transfer)
    ensures t.ok ==> oldFile in t.files
    // whether the call fails is decided by the move step; the backup only matters
    // through a directory it fails to move away
    ensures Separate(outputDirectory, oldFile, newFile) ==> t.ok == MoveSucceeds(files, oldFile, newFile, env)
    // on success the old path holds what the new file held
    ensures Separate(outputDirectory, oldFile, newFile) && t.ok ==> t.files[oldFile] == files[newFile]
    // when a rename moves it, the new file's path is left empty; the copy leaves it as it was
    ensures Separate(outputDirectory, oldFile, newFile) && newFile in files && (env.moveRename || env.moveRetry) ==>
      newFile !in t.files
    ensures Separate(outputDirectory, oldFile, newFile) && !env.moveRename && !env.moveRetry ==>
      Lookup(t.files, newFile) == Lookup(files, newFile)
    // no backup is attempted when the old file does not exist
    ensures var backup := BackupPath(outputDirectory, oldFile);
      oldFile !in files && backup != newFile ==> Lookup(t.files, backup) == Lookup(files, backup)
    // a successful backup holds the old file's former entry
    ensures var backup := BackupPath(outputDirectory, oldFile);
      Separate(outputDirectory, oldFile, newFile) && BackupSucceeds(files, backup, oldFile, env) ==>
        backup in t.files && t.files[backup] == files[oldFile]
    // no other path changes
    ensures forall p :: p != oldFile && p != newFile && p != BackupPath(outputDirectory, oldFile) ==>
      Lookup(t.files, p) == Lookup(files, p)
  {
    BackupIsNotOldFile(outputDirectory, oldFile);
    var backup := BackupPath(outputDirectory, oldFile);
    var saved := Backup(files, backup, oldFile, env);
    assert Separate(outputDirectory, oldFile, newFile) ==> Lookup(saved, newFile) == Lookup(files, newFile);
    Move(saved, oldFile, newFile, env)
  }

  /**
   * Replacing a file by itself (the final name equal to the remapped jar's name): the
   * old file is saved, then truncated by the copy's output stream before it is read,
   * so unless a rename of the file onto itself is let through, the call succeeds and
   * leaves an empty file.
   */
  lemma {:induction false} ReplaceOntoItself(files: map<Path, Entry>, outputDirectory: Path, file: Path, env: ReplaceEnv)
    requires IsFileIn(files, file)
    ensures var t := Replaced(files, outputDirectory, file, file, env);
      var backup := BackupPath(outputDirectory, file);
      && ((env.backupRename || env.backupRetry) ==>
            && backup in t.files && t.files[backup] == files[file]
            && (t.ok <==> env.moveCopy.Copied?)
            && (t.ok ==> t.files[file] == RegularFile([])))
      && (!(env.backupRename || env.backupRetry) ==>
            && (t.ok <==> env.moveRename || env.moveRetry || env.moveCopy.Copied?)
            && (t.ok ==> t.files[file] == if env.moveRename || env.moveRetry then files[file] else RegularFile([])))
  {
    BackupIsNotOldFile(outputDirectory, file);
    var backup := BackupPath(outputDirectory, file);
    var saved := Backup(files, backup, file, env);
    if env.backupRename || env.backupRetry {
      assert file !in saved;
    } else {
      assert saved[file] == files[file];
      if env.moveRename || env.moveRetry {
        assert Moved(saved, file, file) == saved;
      }
    }
  }

  /** The backup step: only attempted when the old file exists; its failure is ignored. */
  method SaveOriginal(fs: FileSystem, backup: Path, oldFile: Path, env: ReplaceEnv)
    requires backup != oldFile
    modifies fs
    ensures fs.files == Backup(old(fs.files), backup, oldFile, env)
  {
    if fs.Exists(oldFile) {
      var moved := fs.RenameTo(oldFile, backup, env.backupRename);
      if !moved {
        moved := fs.RenameTo(oldFile, backup, env.backupRetry);
        if !moved {
          var _ := fs.CopyTo(oldFile, backup, env.backupCopy);
        }
      }
    }
  }

  /** The move step: rename, rename again, then copy; false when all three fail. */
  method MoveIntoPlace(fs: FileSystem, oldFile: Path, newFile: Path, env: ReplaceEnv) returns (ok: bool)
    modifies fs
    ensures var t := Move(old(fs.files), oldFile, newFile, env); ok == t.ok && fs.files == t.files
  {
    ok := fs.RenameTo(newFile, oldFile, env.moveRename);
    if !ok {
      ok := fs.RenameTo(newFile, oldFile, env.moveRetry);
      if !ok {
        ok := fs.CopyTo(newFile, oldFile, env.moveCopy);
      }
    }
  }

  /** replaceFile(oldFile, newFile) on the filesystem object. */
  method ReplaceFile(fs: FileSystem, outputDirectory: Path, oldFile: Path, newFile: Path, env: ReplaceEnv)
    returns (ok: bool)
    modifies fs
    ensures var t := Replaced(old(fs.files), outputDirectory, oldFile, newFile, env); ok == t.ok && fs.files == t.files
  {
    var backup := BackupPath(outputDirectory, oldFile);
    BackupIsNotOldFile(outputDirectory, oldFile);
    SaveOriginal(fs, backup, oldFile, env);
    ok := MoveIntoPlace(fs, oldFile, newFile, env);
  }
}
