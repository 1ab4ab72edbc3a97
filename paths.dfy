/**
 * File paths as java.io.File composes them: a path is the sequence of its name
 * segments, `new File(dir, name)` appends one segment and `getName()` is the last one.
 */
module Paths {

  type Path = seq<string>

  /** `new File(dir, name)` for a name without separators. */
  function Child(dir: Path, name: string): (p: Path)
    ensures Name(p) == name && Parent(p) == dir
  {
    dir + [name]
  }

  /** `new File(base, rel)` for a relative path of several segments. */
  function Resolve(base: Path, rel: Path): (p: Path)
    ensures |p| == |base| + |rel| && p[..|base|] == base && p[|base|..] == rel
  {
    base + rel
  }

  /** `File.getName()`: the last segment, the empty name for the empty path. */
  function Name(p: Path): string {
    if p == [] then "" else p[|p| - 1]
  }

  /** The enclosing directory (`File.getParentFile()`, the empty path at the top). */
  function Parent(p: Path): Path {
    if p == [] then [] else p[..|p| - 1]
  }

  /** `new File(f.getAbsolutePath() + suffix)`: the same directory, the name extended. */
  function WithSuffix(p: Path, suffix: string): (q: Path)
    ensures Parent(q) == Parent(p) && Name(q) == Name(p) + suffix
  {
    Child(Parent(p), Name(p) + suffix)
  }

  /** `File.getPath()` of an absolute path: the segments joined by '/'. */
  function PathString(p: Path): string {
    if p == [] then "" else PathString(p[..|p| - 1]) + "/" + p[|p| - 1]
  }

  /** Whether `s` ends with `suffix` (`String.endsWith`). */
  predicate EndsWith(s: string, suffix: string) {
    |suffix| <= |s| && s[|s| - |suffix|..] == suffix
  }
}
