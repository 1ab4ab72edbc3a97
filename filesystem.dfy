/**
 * An abstract filesystem: a map from path to entry, with the two primitives the remap
 * goal's file replacement uses, `File.renameTo` and a stream copy, each as a function
 * on the map and as a method of the filesystem object. Whether the
 * platform lets a rename or a copy through (open handles, locks, permissions) is not
 * visible to the plugin, so each call takes that outcome as a parameter.
 */
module FileSystems {
  import opened Paths
  import opened Wrappers

  type Bytes = seq<bv8>

  datatype Entry = RegularFile(contents: Bytes) | Directory

  /** What the platform does with one attempt to copy a file through streams. */
  datatype CopyOutcome =
    | Copied
      /** The output stream cannot be opened (permissions, locks); nothing is touched. */
    | TargetRefused
      /** The copy threw after the target had been opened and `written` written to it. */
    | CopyBroken(written: Bytes)

  function Lookup(files: map<Path, Entry>, p: Path): Option<Entry> {
    if p in files then Some(files[p]) else None
  }

  predicate IsFileIn(files: map<Path, Entry>, p: Path) {
    p in files && files[p].RegularFile?
  }

  /** The files after `src` has been renamed to `dst`. */
  function Moved(files: map<Path, Entry>, src: Path, dst: Path): (r: map<Path, Entry>)
    requires src in files
    ensures dst in r && r[dst] == files[src]
    ensures src != dst ==> src !in r
    ensures forall p :: p != src && p != dst ==> Lookup(r, p) == Lookup(files, p)
  {
    (files - {src})[dst := files[src]]
  }

  /** The outcome of a rename or a copy: whether it succeeded, and the files afterwards. */
  datatype Transfer = Transfer(ok: bool, files: map<Path, Entry>)

  /** `src.renameTo(dst)`: succeeds when `src` exists and the platform permits it. */
  function Renamed(files: map<Path, Entry>, src: Path, dst: Path, permitted: bool): (t: Transfer)
    ensures t.ok <==> permitted && src in files
    ensures !t.ok ==> t.files == files
  {
    if permitted && src in files then Transfer(true, Moved(files, src, dst)) else Transfer(false, files)
  }

  /** Whether `new FileOutputStream(dst)` opens: the platform allows it and `dst` is not a directory. */
  predicate TargetOpens(files: map<Path, Entry>, dst: Path, outcome: CopyOutcome) {
    !outcome.TargetRefused? && !(dst in files && files[dst].Directory?)
  }

  /**
   * A stream copy of `src` over `dst`, in the order the streams are opened: the output
   * stream first, which creates or truncates `dst`, then the input stream on `src`,
   * which must then be a regular file. A copy of a file onto itself therefore yields
   * an empty file.
   */
  function Copy(files: map<Path, Entry>, src: Path, dst: Path, outcome: CopyOutcome): (t: Transfer)
    ensures t.ok <==> outcome.Copied? && TargetOpens(files, dst, outcome) && (src == dst || IsFileIn(files, src))
    ensures !TargetOpens(files, dst, outcome) ==> t.files == files
    ensures t.ok ==> t.files == files[dst := if src == dst then RegularFile([]) else files[src]]
    ensures TargetOpens(files, dst, outcome) && !t.ok ==>
      t.files == files[dst := RegularFile(if outcome.CopyBroken? && (src == dst || IsFileIn(files, src)) then outcome.written else [])]
  {
    if !TargetOpens(files, dst, outcome) then Transfer(false, files)
    else
      var truncated := files[dst := RegularFile([])];
      if !IsFileIn(truncated, src) then Transfer(false, truncated)
      else if outcome.Copied? then Transfer(true, truncated[dst := truncated[src]])
      else if outcome.CopyBroken? then Transfer(false, truncated[dst := RegularFile(outcome.written)])
      else Transfer(false, truncated)
  }

  class FileSystem {
    var files: map<Path, Entry>

    constructor (initial: map<Path, Entry>)
      ensures files == initial
    {
      files := initial;
    }

    /** `File.exists()`. */
    predicate Exists(p: Path)
      reads this
    {
      p in files
    }

    /** `File.isFile()`: the path exists and is a regular file. */
    predicate IsFile(p: Path)
      reads this
    {
      IsFileIn(files, p)
    }

    /** `src.renameTo(dst)`. */
    method RenameTo(src: Path, dst: Path, permitted: bool) returns (ok: bool)
      modifies this
      ensures var t := Renamed(old(files), src, dst, permitted); ok == t.ok && files == t.files
    {
      ok := permitted && src in files;
      if ok {
        files := Moved(files, src, dst);
      }
    }

    /** The stream copy of `src` over `dst`. */
    method CopyTo(src: Path, dst: Path, outcome: CopyOutcome) returns (ok: bool)
      modifies this
      ensures var t := Copy(old(files), src, dst, outcome); ok == t.ok && files == t.files
    {
      ok := false;
      if outcome.TargetRefused? || (dst in files && files[dst].Directory?) {
        return;
      }
      files := files[dst := RegularFile([])];
      if !IsFile(src) {
        return;
      }
      if outcome.Copied? {
        files := files[dst := files[src]];
        ok := true;
      } else if outcome.CopyBroken? {
        files := files[dst := RegularFile(outcome.written)];
      }
    }
  }
}
