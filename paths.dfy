/**
 * File-system paths as Python's `pathlib.Path` sees them: a sequence of parts.
 * pathlib's first part of an absolute path is "/"; here the root is written
 * as an empty first part instead, so ["", "home", "a.webm"] renders as
 * "/home/a.webm" and the root itself, [""], renders as "/". The empty path
 * [] is `Path('')`, which pathlib renders as ".".
 */
module Paths {

  type Path = seq<string>

  /** `directory / name`. */
  function Join(directory: Path, name: string): Path {
    directory + [name]
  }

  /** The parts separated by '/'. */
  function PartsText(p: Path): string {
    if p == [] then "" else if |p| == 1 then p[0] else PartsText(p[..|p| - 1]) + "/" + p[|p| - 1]
  }

  /** `str(path)` on a POSIX host. */
  function PathText(p: Path): string {
    if p == [] then "." else if p == [""] then "/" else PartsText(p)
  }
}
