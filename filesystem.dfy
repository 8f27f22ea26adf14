/** The file system the scanner and the whitelist look at, as a value.

    A directory tree is a `Node`; a path is the sequence of its components, so
    `path.join(dir, name)` is `dir + [name]` and `path.basename(p)` is the last
    component. What the operating system would report for a path (exists,
    stat, readFile, readdir) is read off the node the path names. */
module FileSystem {

  import opened Wrappers

  type Byte = bv8
  type Bytes = seq<Byte>

  /** A path as its components; `[]` is the empty path. */
  type Path = seq<string>

  /** One entry of the tree.
      - `File`: a regular file; `readError` is the failure `fs.readFile` reports
        for it, if any (its size is the length of `data`).
      - `Dir`: a directory; `listError` is the failure `fs.readdir` reports, if any.
      - `Special`: anything that is neither (a socket, a FIFO, a device). */
  datatype Node =
    | File(name: string, data: Bytes, readError: Option<string>)
    | Dir(name: string, entries: seq<Node>, listError: Option<string>)
    | Special(name: string)

  /** `path.basename`: the last component. */
  function Basename(p: Path): string
  {
    if p == [] then "" else p[|p| - 1]
  }

  /** A path as the text the source passes around: its components joined by "/". */
  function Show(p: Path): string
  {
    if p == [] then ""
    else if |p| == 1 then p[0]
    else Show(p[..|p| - 1]) + "/" + p[|p| - 1]
  }

  function LowerChar(c: char): char
  {
    if IsUpper(c) then (c as int + 32) as char else c
  }

  predicate IsUpper(c: char)
  {
    'A' <= c <= 'Z'
  }

  /** `String.prototype.toLowerCase`, on the ASCII letters: no capital is
      left, each capital becomes the letter 32 code points above it, and
      every other character is kept. */
  function Lower(s: string): (r: string)
    ensures |r| == |s|
    ensures forall i :: 0 <= i < |r| ==> !IsUpper(r[i])
    ensures forall i :: 0 <= i < |s| && IsUpper(s[i]) ==> r[i] as int == s[i] as int + 32
    ensures forall i :: 0 <= i < |s| && !IsUpper(s[i]) ==> r[i] == s[i]
  {
    seq(|s|, i requires 0 <= i < |s| => LowerChar(s[i]))
  }

  /** Lower-casing a lower-cased name changes nothing. */
  lemma LowerIdempotent(s: string)
    ensures Lower(Lower(s)) == Lower(s)
  {
  }

  /** The message of the error `fs.stat` reports for a path that does not exist. */
  function NoSuchEntry(p: Path): string
  {
    "ENOENT: no such file or directory, stat '" + Show(p) + "'"
  }

  /** The message of the error `fs.readdir` reports for a path that is not a directory. */
  function NotADirectory(p: Path): string
  {
    "ENOTDIR: not a directory, scandir '" + Show(p) + "'"
  }

  /** `f` is a regular file that a walk from directory `n` reaches: it is an
      entry of `n` or lies within a sub-directory of `n`, and every directory
      on the way can be listed. */
  ghost predicate Within(f: Node, n: Node)
    decreases n
  {
    && n.Dir? && n.listError.None?
    && exists i :: 0 <= i < |n.entries| && ((n.entries[i] == f && f.File?) || Within(f, n.entries[i]))
  }

  /** The number of regular files a walk from `n` reaches, counted the way
      `Within` reaches them (a file listed twice counts twice). */
  function FileCount(n: Node): nat
    decreases n, 1, 0
  {
    if n.Dir? && n.listError.None? then EntryFileCount(n, |n.entries|) else 0
  }

  /** The files reached through the first `i` entries of directory `n`. */
  function EntryFileCount(n: Node, i: nat): nat
    requires n.Dir? && i <= |n.entries|
    decreases n, 0, i
  {
    if i == 0 then 0
    else
      var e := n.entries[i - 1];
      EntryFileCount(n, i - 1) + (if e.File? then 1 else if e.Dir? then FileCount(e) else 0)
  }
}
