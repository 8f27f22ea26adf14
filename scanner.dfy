/** The scan engine: the per-file decision chain, the signature loop and the
    folder walk.

    The source reports results through a callback `(file, infected, data)`
    that may be called more than once per file and in any order; the model
    gives, for each operation, the multiset of `Emission`s it makes. */
module ScanEngine {

  import opened Wrappers
  import opened FileSystem
  import opened Signatures
  import opened WhitelistStore

  /** The scanner's settings. An option the caller leaves out is `None`
      (or `false` for `recursive`). */
  datatype Options = Options(
    maxSize: Option<int>,
    includeFiles: Option<Regex>,
    excludeFiles: Option<Regex>,
    recursive: bool,
    includeFolders: Option<Regex>,
    excludeFolders: Option<Regex>,
    whitelist: Option<string>)

  /** The settings used when the constructor is given no options at all. */
  function Defaults(): Options
  {
    Options(Some(104857600), None, None, false, None, None, None)
  }

  /** What the model takes from the JavaScript platform: `RegExp.prototype.test`,
      `fs.readFile(file, "utf8")`'s decoding of the bytes, and `fs.realpathSync`. */
  datatype Platform = Platform(
    test: (Regex, string) -> bool,
    decode: Bytes -> string,
    realpath: Path -> Path)

  datatype Config = Config(options: Options, db: Database, platform: Platform)

  /** `TEST.RE` (0) and `TEST.PATH` (1): which check found the malware. */
  datatype Check = RE | PATH

  /** The detail reported with an infection: a name match is always a
      high-impact web shell; a content match carries its rule. */
  datatype Detail = NameMatch | ContentMatch(signature: Signature)
  {
    function Check(): Check
    {
      if NameMatch? then PATH else RE
    }

    function Malware(): MalwareType
    {
      if NameMatch? then WebShell else signature.malware
    }

    function Impact(): ImpactLevel
    {
      if NameMatch? then High else signature.impact
    }
  }

  datatype Outcome =
    | Excluded
    | FileNotFound
    | StatError(err: string)
    | NotAFile
    | TooBig
    | ReadError(err: string)
    | Infected(detail: Detail)
    | Whitelisted
    | WhitelistError(err: string)
    | Clean
    | FolderNotFound
    | ExcludedFolder
    | ListError(err: string)

  /** One call of the result callback, for the file or folder at `path`. */
  datatype Emission = Emission(path: Path, outcome: Outcome)

  /** The second and third callback arguments, `infected` and `data`. */
  datatype Flag = True | False | Null | WhitelistMark
  datatype Data = NoData | Text(text: string) | Match(detail: Detail)
  datatype Args = Args(infected: Flag, data: Data)

  /** The arguments the source passes for each outcome, with its literal messages. */
  function CallbackArgs(o: Outcome): (r: Args)
    ensures r.infected == True <==> o.Infected?
    ensures r.infected == False <==> o.Clean?
    ensures r.infected == WhitelistMark <==> o.Whitelisted?
    ensures r.data.NoData? <==> o.Clean? || o.Whitelisted?
  {
    match o
    case Excluded => Args(Null, Text("Excluded"))
    case FileNotFound => Args(Null, Text("File is not found"))
    case StatError(e) => Args(Null, Text(e))
    case NotAFile => Args(Null, Text("File should be provided"))
    case TooBig => Args(Null, Text("File is too big"))
    case ReadError(e) => Args(Null, Text(e))
    case Infected(d) => Args(True, Match(d))
    case Whitelisted => Args(WhitelistMark, NoData)
    case WhitelistError(e) => Args(Null, Text(e))
    case Clean => Args(False, NoData)
    case FolderNotFound => Args(Null, Text("Folder is not found"))
    case ExcludedFolder => Args(Null, Text("Excluded folder"))
    case ListError(e) => Args(Null, Text(e))
  }

  /** What the file system reports for the path `scan` is given. */
  datatype Facts = Missing | StatFailed(err: string) | Present(node: Node)

  /** Which per-file behaviour a walk uses: the source's as written, or the
      single outcome it evidently intends (`Decide`). */
  datatype Mode = AsWritten | Intended

  function At(path: Path, o: Outcome): multiset<Emission>
  {
    multiset{Emission(path, o)}
  }

  /** `n` reports of the same emission. */
  function Copies(e: Emission, n: nat): (m: multiset<Emission>)
    ensures |m| == n
    ensures forall x :: x in m ==> x == e
    ensures n > 0 ==> e in m
  {
    multiset{}[e := n]
  }

  /** The file-name filter of `scan`: `exclude` is tested first, then a set
      `include` must match. */
  predicate NameDenied(cfg: Config, name: string)
  {
    || (cfg.options.excludeFiles.Some? && cfg.platform.test(cfg.options.excludeFiles.value, name))
    || (cfg.options.includeFiles.Some? && !cfg.platform.test(cfg.options.includeFiles.value, name))
  }

  /** The folder-name filter of `scanFolder`, on the name as it is (not lower-cased). */
  predicate FolderDenied(cfg: Config, name: string)
  {
    || (cfg.options.excludeFolders.Some? && cfg.platform.test(cfg.options.excludeFolders.value, name))
    || (cfg.options.includeFolders.Some? && !cfg.platform.test(cfg.options.includeFolders.value, name))
  }

  /** The size limit: only a numeric `maxSize` limits, and only sizes above it. */
  predicate OverLimit(o: Options, size: nat)
  {
    o.maxSize.Some? && size > o.maxSize.value
  }

  /** The guards of `scan` before any signature is consulted: the first one
      that stops the scan, or `None` for a regular file within the limit. */
  function Precheck(cfg: Config, path: Path, facts: Facts): (r: Option<Outcome>)
    ensures r.None? ==> facts.Present? && facts.node.File?
  {
    if NameDenied(cfg, Lower(Basename(path))) then Some(Excluded)
    else
      match facts
      case Missing => Some(FileNotFound)
      case StatFailed(e) => Some(StatError(e))
      case Present(n) =>
        if !n.File? then Some(NotAFile)
        else if OverLimit(cfg.options, |n.data|) then Some(TooBig)
        else None
  }

  /** How the answer of `isFileInWhitelist` turns a hit into an outcome: `true`
      whitelists it, `false` keeps the infection, anything else is an error. */
  function Answered(a: Answer, d: Detail): Outcome
  {
    match a
    case Listed(_, _) => Whitelisted
    case Unlisted => Infected(d)
    case LookupFailed(e) => WhitelistError(e)
  }

  /** A hit on file `f`: an infection without a whitelist, else the whitelist's verdict. */
  function Verdict(wl: Option<Snapshot>, path: Path, f: Node, d: Detail): Outcome
    requires f.File?
  {
    if wl.None? then Infected(d) else Answered(Lookup(wl.value, path, Some(f)), d)
  }

  /** `scan(file)` as written: everything its callback receives. */
  function ScanEmissions(cfg: Config, wl: Option<Snapshot>, path: Path, facts: Facts): multiset<Emission>
  {
    match Precheck(cfg, path, facts)
    case Some(o) => At(path, o)
    case None =>
      var f := facts.node;
      var name := Lower(Basename(path));
      if name in cfg.db.paths && wl.None? then At(path, Infected(NameMatch))
      else
        // With a whitelist attached the name hit does not return: the
        // content is read and matched as well.
        (if name in cfg.db.paths then At(path, Verdict(wl, path, f, NameMatch)) else multiset{})
        + ContentEmissions(cfg, wl, path, f)
  }

  /** `processFile`: the read, the signature loop and the final clean report. */
  function ContentEmissions(cfg: Config, wl: Option<Snapshot>, path: Path, f: Node): multiset<Emission>
    requires f.File?
  {
    if f.readError.Some? then At(path, ReadError(f.readError.value))
    else
      var test, re, text := cfg.platform.test, cfg.db.re, cfg.platform.decode(f.data);
      if wl.None? then
        match FirstMatch(test, re, text)
        case Some(i) => At(path, Infected(ContentMatch(re[i])))
        case None => At(path, Clean)
      else
        // Every match defers a whitelist lookup; by the time the lookups
        // answer, the loop's `signature` variable holds the last rule.
        var n := MatchCount(test, re, text);
        (if n == 0 then multiset{}
         else Copies(Emission(path, Verdict(wl, path, f, ContentMatch(re[|re| - 1]))), n))
        + At(path, Clean)
  }

  /** `scan(file)` as evidently intended: one outcome, the first hit decides,
      and a hit's whitelist verdict is final. */
  function Decide(cfg: Config, wl: Option<Snapshot>, path: Path, facts: Facts): Outcome
  {
    match Precheck(cfg, path, facts)
    case Some(o) => o
    case None =>
      var f := facts.node;
      if Lower(Basename(path)) in cfg.db.paths then Verdict(wl, path, f, NameMatch)
      else if f.readError.Some? then ReadError(f.readError.value)
      else
        match FirstMatch(cfg.platform.test, cfg.db.re, cfg.platform.decode(f.data))
        case Some(i) => Verdict(wl, path, f, ContentMatch(cfg.db.re[i]))
        case None => Clean
  }

  function FileEmissions(mode: Mode, cfg: Config, wl: Option<Snapshot>, path: Path, facts: Facts): multiset<Emission>
  {
    match mode
    case AsWritten => ScanEmissions(cfg, wl, path, facts)
    case Intended => At(path, Decide(cfg, wl, path, facts))
  }

  /** `scanFolder(folder)`: everything its callback receives. */
  function FolderEmissions(cfg: Config, wl: Option<Snapshot>, mode: Mode, folder: Path, target: Option<Node>): multiset<Emission>
  {
    match target
    case None => At(folder, FolderNotFound)
    case Some(n) =>
      if n.Dir? then DirEmissions(cfg, wl, mode, folder, n)
      else FileEmissions(mode, cfg, wl, folder, Present(n))
  }

  /** A directory: resolved, filtered on its own name, then listed. */
  function DirEmissions(cfg: Config, wl: Option<Snapshot>, mode: Mode, folder: Path, dir: Node): multiset<Emission>
    requires dir.Dir?
    decreases dir, 1
  {
    var resolved := cfg.platform.realpath(folder);
    if FolderDenied(cfg, Basename(resolved)) then At(resolved, ExcludedFolder)
    else if dir.listError.Some? then At(resolved, ListError(dir.listError.value))
    else EntriesEmissions(cfg, wl, mode, resolved, dir, |dir.entries|)
  }

  /** The first `i` entries of `dir`, listed under `resolved`. */
  function EntriesEmissions(cfg: Config, wl: Option<Snapshot>, mode: Mode, resolved: Path, dir: Node, i: nat): multiset<Emission>
    requires dir.Dir? && i <= |dir.entries|
    decreases dir, 0, i
  {
    if i == 0 then multiset{}
    else EntriesEmissions(cfg, wl, mode, resolved, dir, i - 1)
         + EntryEmissions(cfg, wl, mode, resolved + [dir.entries[i - 1].name], dir.entries[i - 1])
  }

  /** One entry at `path`: a sub-directory only when `recursive` is set, a
      regular file always, anything else never. */
  function EntryEmissions(cfg: Config, wl: Option<Snapshot>, mode: Mode, path: Path, e: Node): multiset<Emission>
    decreases e, 2
  {
    if e.Dir? then (if cfg.options.recursive then DirEmissions(cfg, wl, mode, path, e) else multiset{})
    else if e.File? then FileEmissions(mode, cfg, wl, path, Present(e))
    else multiset{}
  }

  class Scanner {
    const options: Options
    const db: Database
    const platform: Platform
    const whitelist: Whitelist?

    /** `new Scanner(options)`: the defaults apply only when no options object
        is given; a non-empty `whitelist` name attaches a store opened on that
        database file, whose table holds `stored`. */
    constructor (options: Option<Options>, db: Database, platform: Platform, stored: seq<Row>, hash: Bytes -> Digest)
      ensures this.options == (if options.Some? then options.value else Defaults())
      ensures this.db == db && this.platform == platform
      ensures whitelist != null <==> this.options.whitelist.Some? && |this.options.whitelist.value| > 0
      ensures whitelist != null ==> fresh(whitelist) && whitelist.rows == stored && whitelist.hash == hash
    {
      var o := if options.Some? then options.value else Defaults();
      this.options := o;
      this.db := db;
      this.platform := platform;
      if o.whitelist.Some? && |o.whitelist.value| > 0 {
        this.whitelist := new Whitelist(o.whitelist, stored, hash);
      } else {
        this.whitelist := null;
      }
    }

    function Setup(): Config
    {
      Config(options, db, platform)
    }

    function Attached(): Option<Snapshot>
      reads whitelist
    {
      if whitelist == null then None else Some(whitelist.Current())
    }

    /** `scan(file)`. */
    method Scan(path: Path, facts: Facts) returns (emitted: multiset<Emission>)
      ensures emitted == ScanEmissions(Setup(), Attached(), path, facts)
    {
      var name := Lower(Basename(path));
      if options.excludeFiles.Some? && platform.test(options.excludeFiles.value, name) {
        return At(path, Excluded);
      }
      if options.includeFiles.Some? && !platform.test(options.includeFiles.value, name) {
        return At(path, Excluded);
      }
      if facts.Missing? {
        return At(path, FileNotFound);
      }
      if facts.StatFailed? {
        return At(path, StatError(facts.err));
      }
      var f := facts.node;
      if !f.File? {
        return At(path, NotAFile);
      }
      if options.maxSize.Some? && |f.data| > options.maxSize.value {
        return At(path, TooBig);
      }
      assert Precheck(Setup(), path, facts) == None;
      emitted := multiset{};
      if name in db.paths {
        if whitelist == null {
          return At(path, Infected(NameMatch));
        }
        var answer := whitelist.IsFileInWhitelist(path, Some(f));
        emitted := At(path, Answered(answer, NameMatch));
      }
      var more := ProcessFile(path, f);
      emitted := emitted + more;
    }

    /** `processFile`: the read, the signature loop and the final clean report. */
    method ProcessFile(path: Path, f: Node) returns (emitted: multiset<Emission>)
      requires f.File?
      ensures emitted == ContentEmissions(Setup(), Attached(), path, f)
    {
      if f.readError.Some? {
        return At(path, ReadError(f.readError.value));
      }
      var text := platform.decode(f.data);
      var signature: Option<Signature> := None;
      var pending := 0;
      var i := 0;
      while i < |db.re|
        invariant 0 <= i <= |db.re|
        invariant pending == MatchCount(platform.test, db.re[..i], text)
        invariant whitelist == null ==> forall j :: 0 <= j < i ==> !platform.test(db.re[j].expr, text)
        invariant i > 0 ==> signature == Some(db.re[i - 1])
      {
        signature := Some(db.re[i]);
        if platform.test(db.re[i].expr, text) {
          if whitelist == null {
            ghost var first := FirstMatch(platform.test, db.re, text);
            assert first == Some(i);
            return At(path, Infected(ContentMatch(db.re[i])));
          }
          pending := pending + 1;
        }
        assert db.re[..i + 1][..i] == db.re[..i];
        i := i + 1;
      }
      assert db.re[..i] == db.re;
      emitted := multiset{};
      if pending > 0 {
        // The deferred lookups answer now, each for the last rule the loop saw.
        var answer := whitelist.IsFileInWhitelist(path, Some(f));
        emitted := Copies(Emission(path, Answered(answer, ContentMatch(signature.value))), pending);
      }
      emitted := emitted + At(path, Clean);
    }

    /** `scanFolder(folder)`. */
    method ScanFolder(folder: Path, target: Option<Node>) returns (emitted: multiset<Emission>)
      ensures emitted == FolderEmissions(Setup(), Attached(), AsWritten, folder, target)
    {
      if target.None? {
        return At(folder, FolderNotFound);
      }
      var n := target.value;
      if !n.Dir? {
        emitted := Scan(folder, Present(n));
        return;
      }
      emitted := ScanDirectory(folder, n);
    }

    /** The part of `scanFolder` after the directory check: resolve, filter, list. */
    method ScanDirectory(folder: Path, dir: Node) returns (emitted: multiset<Emission>)
      requires dir.Dir?
      ensures emitted == DirEmissions(Setup(), Attached(), AsWritten, folder, dir)
      decreases dir, 1
    {
      var resolved := platform.realpath(folder);
      var name := Basename(resolved);
      if options.excludeFolders.Some? && platform.test(options.excludeFolders.value, name) {
        return At(resolved, ExcludedFolder);
      }
      if options.includeFolders.Some? && !platform.test(options.includeFolders.value, name) {
        return At(resolved, ExcludedFolder);
      }
      if dir.listError.Some? {
        return At(resolved, ListError(dir.listError.value));
      }
      emitted := multiset{};
      var i := 0;
      while i < |dir.entries|
        invariant 0 <= i <= |dir.entries|
        invariant emitted == EntriesEmissions(Setup(), Attached(), AsWritten, resolved, dir, i)
      {
        var more := ScanEntry(resolved + [dir.entries[i].name], dir.entries[i]);
        emitted := emitted + more;
        i := i + 1;
      }
    }

    /** One listed entry: a sub-directory only when `recursive` is set, a
        regular file always, anything else skipped. */
    method ScanEntry(target: Path, e: Node) returns (emitted: multiset<Emission>)
      ensures emitted == EntryEmissions(Setup(), Attached(), AsWritten, target, e)
      decreases e, 2
    {
      if e.Dir? && options.recursive {
        emitted := ScanDirectory(target, e);
      } else if e.File? {
        emitted := Scan(target, Present(e));
      } else {
        emitted := multiset{};
      }
    }
  }
}
