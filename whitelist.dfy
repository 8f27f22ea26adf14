/** The whitelist: a table of known-good files keyed by the SHA-1 checksum of
    their content, `Whitelist(checksum text, filename text, product text)`.

    The table is a sequence of rows in insertion order. SHA-1 itself is not
    modelled: the store is given a `hash` function from bytes to a 40-digit
    lower-case hexadecimal digest, and everything here holds for any such
    function. */
module WhitelistStore {

  import opened Wrappers
  import opened FileSystem

  predicate IsHexDigit(c: char)
  {
    '0' <= c <= '9' || 'a' <= c <= 'f'
  }

  /** The `hex` form of a SHA-1 digest: 40 lower-case hexadecimal digits. */
  type Digest = s: string | |s| == 40 && forall i :: 0 <= i < |s| ==> IsHexDigit(s[i])
    witness "0000000000000000000000000000000000000000"

  datatype Row = Row(checksum: Digest, filename: string, product: string)

  /** What `checksum` hands its callback: `(null, sha1)` or `(message, null)`. */
  datatype ChecksumResult = Hashed(sha1: Digest) | NotFound(err: string)

  /** What `isInWhitelist` and `isFileInWhitelist` hand their callback:
      `(true, filename, product)`, `(false, null, null)` or `(err, null, null)`. */
  datatype Answer = Listed(filename: string, product: string) | Unlisted | LookupFailed(err: string)

  /** One call of the callback of `updateFile` / `update`: `(null, filename, sha1)`,
      `(err, null, null)`, or an exception the source throws instead of calling it. */
  datatype Report = Recorded(filename: string, sha1: Digest) | Failed(err: string) | Thrown(message: string)

  /** The rows an operation appends and the reports it makes, both in order. */
  datatype Batch = Batch(rows: seq<Row>, reports: seq<Report>)

  /** The table's rows together with the digest function of its store. */
  datatype Snapshot = Snapshot(rows: seq<Row>, hash: Bytes -> Digest)

  const NoCallback := "Callback has not been provided"

  function Then(a: Batch, b: Batch): Batch
  {
    Batch(a.rows + b.rows, a.reports + b.reports)
  }

  /** `checksum(file)`: the digest of the file's whole content, or the message
      "<file> is not found" when nothing exists at the path. Only regular
      files are hashed (on anything else the source's read stream fails with
      no error handler). */
  function Checksum(hash: Bytes -> Digest, path: Path, target: Option<Node>): (r: ChecksumResult)
    requires target.None? || target.value.File?
    ensures r.NotFound? <==> target.None?
    ensures r.NotFound? ==> r.err == Show(path) + " is not found"
    ensures r.Hashed? ==> r.sha1 == hash(target.value.data)
  {
    match target
    case None => NotFound(Show(path) + " is not found")
    case Some(f) => Hashed(hash(f.data))
  }

  /** `isInWhitelist(checksum)`: the filename and product of the first row, in
      insertion order, whose checksum is `c`; `Unlisted` when no row has it. */
  function Find(rows: seq<Row>, c: string): (a: Answer)
    ensures !a.LookupFailed?
    ensures a.Unlisted? <==> forall i :: 0 <= i < |rows| ==> rows[i].checksum != c
    ensures a.Listed? ==>
      exists i :: 0 <= i < |rows| && rows[i].checksum == c
        && a == Listed(rows[i].filename, rows[i].product)
        && forall j :: 0 <= j < i ==> rows[j].checksum != c
  {
    if rows == [] then Unlisted
    else if rows[0].checksum == c then Listed(rows[0].filename, rows[0].product)
    else
      var a := Find(rows[1..], c);
      if a.Listed? then
        ghost var k :| 0 <= k < |rows| - 1 && rows[1..][k].checksum == c
          && a == Listed(rows[1..][k].filename, rows[1..][k].product)
          && forall j :: 0 <= j < k ==> rows[1..][j].checksum != c;
        assert rows[k + 1] == rows[1..][k];
        assert forall j :: 1 <= j < k + 1 ==> rows[j] == rows[1..][j - 1];
        a
      else
        assert forall i :: 1 <= i < |rows| ==> rows[i] == rows[1..][i - 1];
        a
  }

  /** `isFileInWhitelist(file)`: `checksum` followed by `isInWhitelist`; a
      checksum failure is passed on in place of the boolean. */
  function Lookup(s: Snapshot, path: Path, target: Option<Node>): (a: Answer)
    requires target.None? || target.value.File?
    ensures target.None? <==> a.LookupFailed?
    ensures target.None? ==> a.err == Show(path) + " is not found"
    ensures target.Some? ==> a == Find(s.rows, s.hash(target.value.data))
  {
    match Checksum(s.hash, path, target)
    case NotFound(e) => LookupFailed(e)
    case Hashed(d) => Find(s.rows, d)
  }

  /** `updateFile(filename, product)`: on a file, one new row
      `(sha1, filename, product)` and the report `(null, filename, sha1)`; on a
      missing path, no row and the checksum's error. */
  function RecordFile(hash: Bytes -> Digest, path: Path, product: string, target: Option<Node>): Batch
    requires target.None? || target.value.File?
  {
    match Checksum(hash, path, target)
    case NotFound(e) => Batch([], [Failed(e)])
    case Hashed(d) => Batch([Row(d, Show(path), product)], [Recorded(Show(path), d)])
  }

  /** `update(folder, product)`: what it appends and reports for the node at `path`. */
  function Record(hash: Bytes -> Digest, path: Path, product: string, target: Option<Node>): Batch
  {
    match target
    case None => Batch([], [Failed(NoSuchEntry(path))])
    case Some(n) =>
      if n.File? then
        // `update` passes its callback where `updateFile` expects the product
        // and no callback at all, so `updateFile` throws before touching the table.
        Batch([], [Thrown(NoCallback)])
      else if n.Special? then Batch([], [Failed(NotADirectory(path))])
      else RecordDir(hash, path, product, n)
  }

  /** `update` on a directory: every entry, sub-directories unconditionally. */
  function RecordDir(hash: Bytes -> Digest, path: Path, product: string, dir: Node): Batch
    requires dir.Dir?
    decreases dir, 1
  {
    if dir.listError.Some? then Batch([], [Failed(dir.listError.value)])
    else RecordEntries(hash, path, product, dir, |dir.entries|)
  }

  /** The first `i` entries of `dir`, in listing order. */
  function RecordEntries(hash: Bytes -> Digest, path: Path, product: string, dir: Node, i: nat): Batch
    requires dir.Dir? && i <= |dir.entries|
    decreases dir, 0, i
  {
    if i == 0 then Batch([], [])
    else Then(RecordEntries(hash, path, product, dir, i - 1),
              RecordEntry(hash, path + [dir.entries[i - 1].name], product, dir.entries[i - 1]))
  }

  /** One entry at `path`: a directory is walked, a regular file recorded,
      anything else skipped. */
  function RecordEntry(hash: Bytes -> Digest, path: Path, product: string, e: Node): Batch
    decreases e, 2
  {
    if e.Dir? then RecordDir(hash, path, product, e)
    else if e.File? then RecordFile(hash, path, product, Some(e))
    else Batch([], [])
  }

  /** Rows already in the table keep answering lookups after more are
      appended; a checksum absent before is answered by the appended rows. */
  lemma {:induction false} FindAfterAppend(rows: seq<Row>, added: seq<Row>, c: string)
    ensures Find(rows, c).Listed? ==> Find(rows + added, c) == Find(rows, c)
    ensures Find(rows, c).Unlisted? ==> Find(rows + added, c) == Find(added, c)
  {
    if rows != [] {
      assert (rows + added)[0] == rows[0];
      assert (rows + added)[1..] == rows[1..] + added;
      FindAfterAppend(rows[1..], added, c);
      if rows[0].checksum != c {
        assert Find(rows, c) == Find(rows[1..], c);
        assert Find(rows + added, c) == Find(rows[1..] + added, c);
      }
    } else {
      assert rows + added == added;
    }
  }

  /** `update` on a listable directory appends exactly one row per regular
      file it reaches, each carrying the given product. */
  lemma {:induction false} RecordDirCount(hash: Bytes -> Digest, path: Path, product: string, dir: Node)
    requires dir.Dir?
    ensures |RecordDir(hash, path, product, dir).rows| == FileCount(dir)
    ensures forall r :: r in RecordDir(hash, path, product, dir).rows ==> r.product == product
    decreases dir, 1
  {
    if dir.listError.None? {
      RecordEntriesCount(hash, path, product, dir, |dir.entries|);
    }
  }

  lemma {:induction false} RecordEntriesCount(hash: Bytes -> Digest, path: Path, product: string, dir: Node, i: nat)
    requires dir.Dir? && i <= |dir.entries|
    ensures |RecordEntries(hash, path, product, dir, i).rows| == EntryFileCount(dir, i)
    ensures forall r :: r in RecordEntries(hash, path, product, dir, i).rows ==> r.product == product
    decreases dir, 0, i
  {
    if i > 0 {
      RecordEntriesCount(hash, path, product, dir, i - 1);
      var e := dir.entries[i - 1];
      if e.Dir? {
        RecordDirCount(hash, path + [e.name], product, e);
      }
    }
  }

  /** The rows of the first `n` entries include those of entry `k < n`. */
  lemma {:induction false} RecordEntriesInclude(hash: Bytes -> Digest, path: Path, product: string, dir: Node, k: nat, n: nat)
    requires dir.Dir? && k < n <= |dir.entries|
    ensures forall r :: r in RecordEntry(hash, path + [dir.entries[k].name], product, dir.entries[k]).rows
                     ==> r in RecordEntries(hash, path, product, dir, n).rows
    decreases n
  {
    if k < n - 1 {
      RecordEntriesInclude(hash, path, product, dir, k, n - 1);
    }
  }

  /** Every regular file a walk from `dir` reaches gets a row with its
      content's digest and the given product. */
  lemma {:induction false} RecordDirReaches(hash: Bytes -> Digest, path: Path, product: string, dir: Node, f: Node)
    requires dir.Dir? && f.File? && Within(f, dir)
    ensures exists r :: r in RecordDir(hash, path, product, dir).rows && r.checksum == hash(f.data) && r.product == product
    decreases dir
  {
    var i :| 0 <= i < |dir.entries| && ((dir.entries[i] == f && f.File?) || Within(f, dir.entries[i]));
    var e := dir.entries[i];
    var p := path + [e.name];
    RecordEntriesInclude(hash, path, product, dir, i, |dir.entries|);
    if e == f && f.File? {
      assert Row(hash(f.data), Show(p), product) in RecordEntry(hash, p, product, e).rows;
    } else {
      RecordDirReaches(hash, p, product, e, f);
    }
  }

  /** After `update(dir, product)`, looking up the digest of any file it
      reached answers `Listed`, whatever the table held before. */
  lemma RecordedFileIsListed(rows: seq<Row>, hash: Bytes -> Digest, path: Path, product: string, dir: Node, f: Node)
    requires dir.Dir? && f.File? && Within(f, dir)
    ensures Find(rows + RecordDir(hash, path, product, dir).rows, hash(f.data)).Listed?
  {
    RecordDirReaches(hash, path, product, dir, f);
    var r :| r in RecordDir(hash, path, product, dir).rows && r.checksum == hash(f.data) && r.product == product;
    var all := rows + RecordDir(hash, path, product, dir).rows;
    var k :| 0 <= k < |RecordDir(hash, path, product, dir).rows| && RecordDir(hash, path, product, dir).rows[k] == r;
    assert all[|rows| + k] == r;
  }

  /** The persistent store. `rows` is the `Whitelist` table; `hash` is SHA-1. */
  class Whitelist {
    var rows: seq<Row>
    const hash: Bytes -> Digest

    /** `new Whitelist(dbFilename)`: a non-empty file name opens the table
        stored in that database file (`stored`); no name opens an in-memory
        database, and the empty name an anonymous temporary one, both empty. */
    constructor (dbFilename: Option<string>, stored: seq<Row>, hash: Bytes -> Digest)
      ensures rows == (if dbFilename.Some? && dbFilename.value != "" then stored else [])
      ensures this.hash == hash
    {
      this.hash := hash;
      if dbFilename.Some? && dbFilename.value != "" {
        rows := stored;
      } else {
        rows := [];
      }
    }

    function Current(): Snapshot
      reads this
    {
      Snapshot(rows, hash)
    }

    /** `isInWhitelist(checksum)`: the table's first row with that checksum. */
    method IsInWhitelist(c: string) returns (a: Answer)
      ensures a == Find(rows, c)
    {
      var i := 0;
      while i < |rows|
        invariant 0 <= i <= |rows|
        invariant forall j :: 0 <= j < i ==> rows[j].checksum != c
      {
        if rows[i].checksum == c {
          a := Listed(rows[i].filename, rows[i].product);
          var k :| 0 <= k < |rows| && rows[k].checksum == c
            && Find(rows, c) == Listed(rows[k].filename, rows[k].product)
            && forall j :: 0 <= j < k ==> rows[j].checksum != c;
          assert !(k < i) && !(i < k);
          return;
        }
        i := i + 1;
      }
      a := Unlisted;
    }

    /** `isFileInWhitelist(file)`. */
    method IsFileInWhitelist(path: Path, target: Option<Node>) returns (a: Answer)
      requires target.None? || target.value.File?
      ensures a == Lookup(Current(), path, target)
    {
      var sum := Checksum(hash, path, target);
      match sum
      case NotFound(e) =>
        a := LookupFailed(e);
      case Hashed(d) =>
        a := IsInWhitelist(d);
    }

    /** `updateFile(filename, product)`. */
    method UpdateFile(path: Path, product: string, target: Option<Node>) returns (report: Report)
      requires target.None? || target.value.File?
      modifies this
      ensures target.None? ==> rows == old(rows) && report == Failed(Show(path) + " is not found")
      ensures target.Some? ==>
        && rows == old(rows) + [Row(hash(target.value.data), Show(path), product)]
        && report == Recorded(Show(path), hash(target.value.data))
    {
      var sum := Checksum(hash, path, target);
      match sum
      case NotFound(e) =>
        report := Failed(e);
      case Hashed(d) =>
        rows := rows + [Row(d, Show(path), product)];
        report := Recorded(Show(path), d);
    }

    /** `update(folder, product)`. */
    method Update(path: Path, product: string, target: Option<Node>) returns (reports: seq<Report>)
      modifies this
      ensures rows == old(rows) + Record(hash, path, product, target).rows
      ensures reports == Record(hash, path, product, target).reports
    {
      match target
      case None =>
        reports := [Failed(NoSuchEntry(path))];
      case Some(n) =>
        if n.File? {
          reports := [Thrown(NoCallback)];
        } else if n.Special? {
          reports := [Failed(NotADirectory(path))];
        } else {
          reports := UpdateDir(path, product, n);
        }
    }

    /** The `readdir` loop of `update`. */
    method UpdateDir(path: Path, product: string, dir: Node) returns (reports: seq<Report>)
      requires dir.Dir?
      modifies this
      ensures rows == old(rows) + RecordDir(hash, path, product, dir).rows
      ensures reports == RecordDir(hash, path, product, dir).reports
      decreases dir
    {
      if dir.listError.Some? {
        return [Failed(dir.listError.value)];
      }
      reports := [];
      var i := 0;
      while i < |dir.entries|
        invariant 0 <= i <= |dir.entries|
        invariant rows == old(rows) + RecordEntries(hash, path, product, dir, i).rows
        invariant reports == RecordEntries(hash, path, product, dir, i).reports
      {
        var e := dir.entries[i];
        var target := path + [e.name];
        ghost var before := rows;
        ghost var done := RecordEntries(hash, path, product, dir, i);
        if e.Dir? {
          var more := UpdateDir(target, product, e);
          reports := reports + more;
        } else if e.File? {
          var r := UpdateFile(target, product, Some(e));
          reports := reports + [r];
        }
        assert rows == before + RecordEntry(hash, target, product, e).rows;
        assert RecordEntries(hash, path, product, dir, i + 1) == Then(done, RecordEntry(hash, target, product, e));
        i := i + 1;
      }
    }
  }
}
