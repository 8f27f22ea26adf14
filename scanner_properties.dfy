/** What the scan engine promises, stated over its specification functions.
    `ScanEmissions` and the walk in `AsWritten` mode are what the source does;
    `Decide` and the walk in `Intended` mode are what it evidently means to do. */
module ScanProperties {

  import opened Wrappers
  import opened FileSystem
  import opened Signatures
  import opened WhitelistStore
  import opened ScanEngine

  /** The guards of `scan` all let a regular file through. */
  predicate Admitted(cfg: Config, path: Path, f: Node)
  {
    f.File? && !NameDenied(cfg, Lower(Basename(path))) && !OverLimit(cfg.options, |f.data|)
  }

  /** Scanning a file always reports at least once, and only about that file. */
  lemma {:induction false} ScanEmitsAtPath(mode: Mode, cfg: Config, wl: Option<Snapshot>, path: Path, facts: Facts)
    ensures |FileEmissions(mode, cfg, wl, path, facts)| >= 1
    ensures forall e :: e in FileEmissions(mode, cfg, wl, path, facts) ==> e.path == path
  {
    if mode.AsWritten? && Precheck(cfg, path, facts).None? {
      ContentEmissionsShape(cfg, wl, path, facts.node);
    }
  }

  /** The file filters, on the lower-cased base name: a name that `exclude`
      matches, or that a set `include` does not match, is reported "Excluded"
      whatever the path holds (nothing is stat'ed or read), and no other
      name ever is. */
  lemma {:induction false} NameFilter(cfg: Config, wl: Option<Snapshot>, path: Path, facts: Facts)
    ensures var o, test, name := cfg.options, cfg.platform.test, Lower(Basename(path));
      var denied := (o.excludeFiles.Some? && test(o.excludeFiles.value, name))
                    || (o.includeFiles.Some? && !test(o.includeFiles.value, name));
      && (Emission(path, Excluded) in ScanEmissions(cfg, wl, path, facts) <==> denied)
      && (Decide(cfg, wl, path, facts) == Excluded <==> denied)
      && (denied ==> ScanEmissions(cfg, wl, path, facts) == At(path, Excluded))
  {
    var m := ScanEmissions(cfg, wl, path, facts);
    var pre := Precheck(cfg, path, facts);
    if pre.None? {
      var f := facts.node;
      ContentEmissionsShape(cfg, wl, path, f);
      assert !ContentOutcome(Excluded);
      assert Emission(path, Excluded) !in ContentEmissions(cfg, wl, path, f);
      if Lower(Basename(path)) in cfg.db.paths {
        assert Verdict(wl, path, f, NameMatch) != Excluded;
      }
      assert Emission(path, Excluded) !in m;
    } else if !NameDenied(cfg, Lower(Basename(path))) {
      assert pre.value != Excluded;
      assert m == At(path, pre.value);
    }
  }

  /** Past the filters, a missing path is "File is not found", a failed stat
      reports its error, and anything but a regular file is "File should be provided". */
  lemma ExistenceAndKind(cfg: Config, wl: Option<Snapshot>, path: Path, facts: Facts)
    requires !NameDenied(cfg, Lower(Basename(path)))
    ensures facts.Missing? ==> ScanEmissions(cfg, wl, path, facts) == At(path, FileNotFound)
    ensures facts.StatFailed? ==> ScanEmissions(cfg, wl, path, facts) == At(path, StatError(facts.err))
    ensures facts.Present? && !facts.node.File? ==> ScanEmissions(cfg, wl, path, facts) == At(path, NotAFile)
  {
  }

  /** What reading and matching a file can report: never one of the guards' outcomes. */
  predicate ContentOutcome(o: Outcome)
  {
    o.Clean? || o.ReadError? || o.Infected? || o.Whitelisted? || o.WhitelistError?
  }

  lemma {:induction false} ContentEmissionsShape(cfg: Config, wl: Option<Snapshot>, path: Path, f: Node)
    requires f.File?
    ensures |ContentEmissions(cfg, wl, path, f)| >= 1
    ensures forall e :: e in ContentEmissions(cfg, wl, path, f) ==> e.path == path && ContentOutcome(e.outcome)
  {
  }

  /** "File is too big" is reported exactly when `maxSize` is set and the
      file is strictly larger, and is then the only report; a file of exactly
      `maxSize` bytes is scanned, and options without `maxSize` never limit. */
  lemma {:induction false} SizeLimit(cfg: Config, wl: Option<Snapshot>, path: Path, f: Node)
    requires f.File? && !NameDenied(cfg, Lower(Basename(path)))
    ensures Emission(path, TooBig) in ScanEmissions(cfg, wl, path, Present(f))
            <==> cfg.options.maxSize.Some? && |f.data| > cfg.options.maxSize.value
    ensures Decide(cfg, wl, path, Present(f)) == TooBig
            <==> cfg.options.maxSize.Some? && |f.data| > cfg.options.maxSize.value
    ensures OverLimit(cfg.options, |f.data|) ==> ScanEmissions(cfg, wl, path, Present(f)) == At(path, TooBig)
  {
    if !OverLimit(cfg.options, |f.data|) {
      ContentEmissionsShape(cfg, wl, path, f);
      assert !ContentOutcome(TooBig);
    }
  }

  /** Without a whitelist, a base name on the name list is a high-impact web
      shell found by the PATH check, and the content is never consulted. */
  lemma NameHitWithoutWhitelist(cfg: Config, path: Path, f: Node)
    requires Admitted(cfg, path, f) && Lower(Basename(path)) in cfg.db.paths
    ensures ScanEmissions(cfg, None, path, Present(f)) == At(path, Infected(NameMatch))
    ensures NameMatch.Check() == PATH && NameMatch.Malware() == WebShell && NameMatch.Impact() == High
  {
  }

  /** Without a whitelist and without a name hit, the rule of lowest index
      that matches the content is reported with its id, type, impact and
      expression; when none matches the file is clean. */
  lemma ContentWithoutWhitelist(cfg: Config, path: Path, f: Node, i: nat)
    requires Admitted(cfg, path, f) && Lower(Basename(path)) !in cfg.db.paths && f.readError.None?
    ensures var re, test, text := cfg.db.re, cfg.platform.test, cfg.platform.decode(f.data);
      (i < |re| && test(re[i].expr, text) && forall j :: 0 <= j < i ==> !test(re[j].expr, text))
      ==> ScanEmissions(cfg, None, path, Present(f)) == At(path, Infected(ContentMatch(re[i])))
    ensures var re, test, text := cfg.db.re, cfg.platform.test, cfg.platform.decode(f.data);
      (forall j :: 0 <= j < |re| ==> !test(re[j].expr, text))
      ==> ScanEmissions(cfg, None, path, Present(f)) == At(path, Clean)
  {
    var re, test, text := cfg.db.re, cfg.platform.test, cfg.platform.decode(f.data);
    var first := FirstMatch(test, re, text);
    if i < |re| && test(re[i].expr, text) && forall j :: 0 <= j < i ==> !test(re[j].expr, text) {
      assert first.Some?;
      assert !(first.value < i) && !(i < first.value);
    }
  }

  /** Without a whitelist, `scan` reports each file exactly once, with the
      outcome `Decide` gives. */
  lemma WithoutWhitelistOneOutcome(cfg: Config, path: Path, facts: Facts)
    ensures ScanEmissions(cfg, None, path, facts) == At(path, Decide(cfg, None, path, facts))
  {
  }

  /** With a whitelist, a name hit is reported "Whitelist" exactly when the
      file's digest is in the table, and as an infection exactly when not. */
  lemma {:induction false} NameHitWithWhitelist(cfg: Config, s: Snapshot, path: Path, f: Node)
    requires Admitted(cfg, path, f) && Lower(Basename(path)) in cfg.db.paths
    ensures Emission(path, Whitelisted) in ScanEmissions(cfg, Some(s), path, Present(f))
            <==> Find(s.rows, s.hash(f.data)).Listed?
    ensures Emission(path, Infected(NameMatch)) in ScanEmissions(cfg, Some(s), path, Present(f))
            <==> Find(s.rows, s.hash(f.data)).Unlisted?
    ensures Decide(cfg, Some(s), path, Present(f))
            == if Find(s.rows, s.hash(f.data)).Listed? then Whitelisted else Infected(NameMatch)
  {
    ContentEmissionsShape(cfg, Some(s), path, f);
  }

  /** As written: with a whitelist attached no hit ends the scan, so every
      readable file is reported clean, even one that is also reported
      infected (a hit the whitelist does not list) or whitelisted. */
  lemma {:induction false} CleanReportedWithWhitelist(cfg: Config, s: Snapshot, path: Path, f: Node)
    requires Admitted(cfg, path, f) && f.readError.None?
    ensures Emission(path, Clean) in ScanEmissions(cfg, Some(s), path, Present(f))
    ensures var re, test, text := cfg.db.re, cfg.platform.test, cfg.platform.decode(f.data);
      (Find(s.rows, s.hash(f.data)).Unlisted?
        && (Lower(Basename(path)) in cfg.db.paths || exists j :: 0 <= j < |re| && test(re[j].expr, text)))
      ==> exists e :: e in ScanEmissions(cfg, Some(s), path, Present(f)) && e.outcome.Infected?
    ensures Find(s.rows, s.hash(f.data)).Listed? && Lower(Basename(path)) in cfg.db.paths
      ==> Emission(path, Whitelisted) in ScanEmissions(cfg, Some(s), path, Present(f))
  {
    var wl := Some(s);
    var re, test, text := cfg.db.re, cfg.platform.test, cfg.platform.decode(f.data);
    var m := ScanEmissions(cfg, wl, path, Present(f));
    var n := MatchCount(test, re, text);
    if Find(s.rows, s.hash(f.data)).Unlisted? {
      if Lower(Basename(path)) in cfg.db.paths {
        assert Emission(path, Infected(NameMatch)) in m;
      } else if exists j :: 0 <= j < |re| && test(re[j].expr, text) {
        var e := Emission(path, Infected(ContentMatch(re[|re| - 1])));
        assert n > 0;
        assert e in Copies(e, n);
        assert e in m;
      }
    }
  }

  /** As written, with a whitelist and no name hit: one lookup per matching
      rule, each answered "Whitelist" when the digest is listed and otherwise
      an infection by the last rule of the database, then one clean report. */
  lemma {:induction false} ContentHitsWithWhitelist(cfg: Config, s: Snapshot, path: Path, f: Node)
    requires Admitted(cfg, path, f) && f.readError.None? && Lower(Basename(path)) !in cfg.db.paths
    ensures var re, test, text := cfg.db.re, cfg.platform.test, cfg.platform.decode(f.data);
      var m, hits := ScanEmissions(cfg, Some(s), path, Present(f)), |Matching(test, re, text)|;
      && (Find(s.rows, s.hash(f.data)).Listed? ==> m[Emission(path, Whitelisted)] == hits)
      && (Find(s.rows, s.hash(f.data)).Unlisted? && |re| > 0 ==>
            m[Emission(path, Infected(ContentMatch(re[|re| - 1])))] == hits)
      && m[Emission(path, Clean)] == 1
  {
  }

  /** As intended: a whitelist lookup settles a name hit, and a content hit
      is judged and reported with the first rule that matched. */
  lemma {:induction false} DecideWithWhitelist(cfg: Config, s: Snapshot, path: Path, f: Node, i: nat)
    requires Admitted(cfg, path, f)
    ensures Lower(Basename(path)) in cfg.db.paths ==>
      Decide(cfg, Some(s), path, Present(f)) in {Whitelisted, Infected(NameMatch)}
    ensures var re, test, text := cfg.db.re, cfg.platform.test, cfg.platform.decode(f.data);
      (Lower(Basename(path)) !in cfg.db.paths && f.readError.None?
        && i < |re| && test(re[i].expr, text) && forall j :: 0 <= j < i ==> !test(re[j].expr, text))
      ==> Decide(cfg, Some(s), path, Present(f))
          == if Find(s.rows, s.hash(f.data)).Listed? then Whitelisted else Infected(ContentMatch(re[i]))
  {
    var re, test, text := cfg.db.re, cfg.platform.test, cfg.platform.decode(f.data);
    var first := FirstMatch(test, re, text);
    if i < |re| && test(re[i].expr, text) && forall j :: 0 <= j < i ==> !test(re[j].expr, text) {
      assert first.Some?;
      assert !(first.value < i) && !(i < first.value);
    }
  }

  const Zeros: Digest := "0000000000000000000000000000000000000000"

  /** As written: a file that matches only rule 10 of the rules [10, 13], with
      a whitelist attached that does not list it, is reported as infected by
      rule 13, because every deferred lookup reads the loop variable after
      the loop has ended. */
  lemma StaleSignatureReported()
    ensures
      var rule10, rule13 := Signature(10, WebShell, High, Regex("a")), Signature(13, Virus, Low, Regex("b"));
      var cfg := Config(Options(None, None, None, false, None, None, None),
                        Database([], [rule10, rule13]),
                        Platform((r: Regex, t: string) => r == Regex("a"), (b: Bytes) => "", (p: Path) => p));
      var s := Snapshot([], (b: Bytes) => Zeros);
      var path, f := ["x.php"], File("x.php", [], None);
      && Emission(path, Infected(ContentMatch(rule13))) in ScanEmissions(cfg, Some(s), path, Present(f))
      && Emission(path, Infected(ContentMatch(rule10))) !in ScanEmissions(cfg, Some(s), path, Present(f))
      && Decide(cfg, Some(s), path, Present(f)) == Infected(ContentMatch(rule10))
  {
    var rule10, rule13 := Signature(10, WebShell, High, Regex("a")), Signature(13, Virus, Low, Regex("b"));
    var test := (r: Regex, t: string) => r == Regex("a");
    var cfg := Config(Options(None, None, None, false, None, None, None),
                      Database([], [rule10, rule13]),
                      Platform(test, (b: Bytes) => "", (p: Path) => p));
    var s := Snapshot([], (b: Bytes) => Zeros);
    var path, f := ["x.php"], File("x.php", [], None);
    var re := [rule10, rule13];
    assert [rule10, rule13][..1] == [rule10];
    assert MatchCount(test, [rule10], "") == 1;
    assert MatchCount(test, re, "") == 1;
    assert FirstMatch(test, re, "") == Some(0);
    var d := Emission(path, Infected(ContentMatch(rule13)));
    assert ContentEmissions(cfg, Some(s), path, f) == Copies(d, 1) + At(path, Clean);
  }

  /** With a whitelist that lists a file's digest, every hit on that file is
      whitelisted: it is never reported infected, as written or as intended. */
  lemma {:induction false} ListedNeverInfected(cfg: Config, s: Snapshot, path: Path, f: Node)
    requires f.File? && Find(s.rows, s.hash(f.data)).Listed?
    ensures !Decide(cfg, Some(s), path, Present(f)).Infected?
    ensures forall e :: e in ScanEmissions(cfg, Some(s), path, Present(f)) ==> !e.outcome.Infected?
  {
    if Precheck(cfg, path, Present(f)).None? {
      var named := Lower(Basename(path)) in cfg.db.paths;
      var hit := if named then At(path, Verdict(Some(s), path, f, NameMatch)) else multiset{};
      assert ScanEmissions(cfg, Some(s), path, Present(f)) == hit + ContentEmissions(cfg, Some(s), path, f);
      assert named ==> Verdict(Some(s), path, f, NameMatch) == Whitelisted;
      ListedContentNeverInfected(cfg, s, path, f);
    }
  }

  lemma {:induction false} ListedContentNeverInfected(cfg: Config, s: Snapshot, path: Path, f: Node)
    requires f.File? && Find(s.rows, s.hash(f.data)).Listed?
    ensures forall e :: e in ContentEmissions(cfg, Some(s), path, f) ==> !e.outcome.Infected?
  {
    var test, re, text := cfg.platform.test, cfg.db.re, cfg.platform.decode(f.data);
    if f.readError.None? {
      var n := MatchCount(test, re, text);
      if n > 0 {
        assert Verdict(Some(s), path, f, ContentMatch(re[|re| - 1])) == Whitelisted;
      }
    }
  }

  /** After `update(dir, product)`, no file the walk reached is reported as
      infected by a scanner using that table: every hit is whitelisted. */
  lemma RecordedFileNeverInfected(cfg: Config, rows: seq<Row>, hash: Bytes -> Digest,
                                  dirPath: Path, product: string, dir: Node, path: Path, f: Node)
    requires dir.Dir? && f.File? && Within(f, dir)
    ensures var s := Snapshot(rows + RecordDir(hash, dirPath, product, dir).rows, hash);
      && !Decide(cfg, Some(s), path, Present(f)).Infected?
      && forall e :: e in ScanEmissions(cfg, Some(s), path, Present(f)) ==> !e.outcome.Infected?
  {
    RecordedFileIsListed(rows, hash, dirPath, product, dir, f);
    ListedNeverInfected(cfg, Snapshot(rows + RecordDir(hash, dirPath, product, dir).rows, hash), path, f);
  }

  /** `scanFolder` on a missing path reports "Folder is not found" once; on
      anything but a directory it reports exactly what `scan` reports. */
  lemma FolderEntryPoints(cfg: Config, wl: Option<Snapshot>, mode: Mode, folder: Path, target: Option<Node>)
    ensures target.None? ==> FolderEmissions(cfg, wl, mode, folder, target) == At(folder, FolderNotFound)
    ensures target.Some? && !target.value.Dir? ==>
      FolderEmissions(cfg, wl, mode, folder, target) == FileEmissions(mode, cfg, wl, folder, Present(target.value))
  {
  }

  /** A directory whose resolved name the folder filters deny is reported
      "Excluded folder" once, and nothing beneath it is reported. */
  lemma DeniedFolderPruned(cfg: Config, wl: Option<Snapshot>, mode: Mode, folder: Path, dir: Node)
    requires dir.Dir? && FolderDenied(cfg, Basename(cfg.platform.realpath(folder)))
    ensures DirEmissions(cfg, wl, mode, folder, dir) == At(cfg.platform.realpath(folder), ExcludedFolder)
  {
  }

  /** Without `recursive`, a walk reports only the directory itself and its
      regular-file entries: nothing from a sub-directory, nothing for
      entries that are neither file nor directory. */
  lemma {:induction false} ShallowWithoutRecursion(cfg: Config, wl: Option<Snapshot>, mode: Mode, folder: Path, dir: Node)
    requires dir.Dir? && !cfg.options.recursive
    ensures var r := cfg.platform.realpath(folder);
      forall e :: e in DirEmissions(cfg, wl, mode, folder, dir) ==>
        e.path == r || exists k :: 0 <= k < |dir.entries| && dir.entries[k].File? && e.path == r + [dir.entries[k].name]
  {
    var r := cfg.platform.realpath(folder);
    if !FolderDenied(cfg, Basename(r)) && dir.listError.None? {
      ShallowEntries(cfg, wl, mode, r, dir, |dir.entries|);
    }
  }

  lemma {:induction false} ShallowEntries(cfg: Config, wl: Option<Snapshot>, mode: Mode, r: Path, dir: Node, i: nat)
    requires dir.Dir? && i <= |dir.entries| && !cfg.options.recursive
    ensures forall e :: e in EntriesEmissions(cfg, wl, mode, r, dir, i) ==>
      exists k :: 0 <= k < i && dir.entries[k].File? && e.path == r + [dir.entries[k].name]
  {
    if i > 0 {
      ShallowEntries(cfg, wl, mode, r, dir, i - 1);
      var x := dir.entries[i - 1];
      var p := r + [x.name];
      if x.File? {
        ScanEmitsAtPath(mode, cfg, wl, p, Present(x));
      }
      forall e | e in EntriesEmissions(cfg, wl, mode, r, dir, i)
        ensures exists k :: 0 <= k < i && dir.entries[k].File? && e.path == r + [dir.entries[k].name]
      {
        if e in EntriesEmissions(cfg, wl, mode, r, dir, i - 1) {
          var k :| 0 <= k < i - 1 && dir.entries[k].File? && e.path == r + [dir.entries[k].name];
        } else {
          assert e in EntryEmissions(cfg, wl, mode, p, x);
          assert x.File? && e.path == p;
        }
      }
    }
  }

  /** The emissions of the first `n` entries include those of entry `k < n`. */
  lemma {:induction false} EntriesInclude(cfg: Config, wl: Option<Snapshot>, mode: Mode, r: Path, dir: Node, k: nat, n: nat)
    requires dir.Dir? && k < n <= |dir.entries|
    ensures EntryEmissions(cfg, wl, mode, r + [dir.entries[k].name], dir.entries[k])
            <= EntriesEmissions(cfg, wl, mode, r, dir, n)
    decreases n
  {
    var before := EntriesEmissions(cfg, wl, mode, r, dir, n - 1);
    var last := EntryEmissions(cfg, wl, mode, r + [dir.entries[n - 1].name], dir.entries[n - 1]);
    assert EntriesEmissions(cfg, wl, mode, r, dir, n) == before + last;
    if k < n - 1 {
      var entry := EntryEmissions(cfg, wl, mode, r + [dir.entries[k].name], dir.entries[k]);
      EntriesInclude(cfg, wl, mode, r, dir, k, n - 1);
      assert entry <= before + last by {
        assert forall x :: entry[x] <= before[x] <= (before + last)[x];
      }
    }
  }

  /** A recursive walk of `dir`, started at `folder`, reaches the regular file
      `f` under the path `p`: each directory on the way is resolved with
      `realpath`, admitted by the folder filters, listed, and extended by the
      name of the entry taken. */
  ghost predicate WalkReaches(cfg: Config, folder: Path, dir: Node, f: Node, p: Path)
    decreases dir
  {
    var r := cfg.platform.realpath(folder);
    && dir.Dir? && dir.listError.None? && !FolderDenied(cfg, Basename(r))
    && exists i :: 0 <= i < |dir.entries| && (
         var e, q := dir.entries[i], r + [dir.entries[i].name];
         (e == f && f.File? && p == q) || WalkReaches(cfg, q, e, f, p))
  }

  /** When the folder filters deny no name, every file within a directory is
      reached by the walk, under a path that ends with the file's own name. */
  lemma {:induction false} WithinIsReached(cfg: Config, folder: Path, dir: Node, f: Node)
    requires f.File? && Within(f, dir)
    requires forall name :: !FolderDenied(cfg, name)
    ensures exists p :: WalkReaches(cfg, folder, dir, f, p) && Basename(p) == f.name
    decreases dir
  {
    var r := cfg.platform.realpath(folder);
    var i :| 0 <= i < |dir.entries| && ((dir.entries[i] == f && f.File?) || Within(f, dir.entries[i]));
    var e, q := dir.entries[i], r + [dir.entries[i].name];
    assert !FolderDenied(cfg, Basename(r));
    if e == f {
      assert WalkReaches(cfg, folder, dir, f, q) && Basename(q) == f.name;
    } else {
      WithinIsReached(cfg, q, e, f);
      var p :| WalkReaches(cfg, q, e, f, p) && Basename(p) == f.name;
      assert WalkReaches(cfg, folder, dir, f, p);
    }
  }

  /** With `recursive` set, a file the walk reaches under path `p` through
      folders the filters admit is scanned under that path: all that `scan`
      reports for `f` at `p` is among what `scanFolder` reports, whatever
      sibling folders the filters deny. */
  lemma {:induction false} RecursiveScansEveryFile(cfg: Config, wl: Option<Snapshot>, mode: Mode, folder: Path, dir: Node, f: Node, p: Path)
    requires WalkReaches(cfg, folder, dir, f, p) && cfg.options.recursive
    ensures FileEmissions(mode, cfg, wl, p, Present(f)) <= DirEmissions(cfg, wl, mode, folder, dir)
    decreases dir
  {
    var r := cfg.platform.realpath(folder);
    var i :| 0 <= i < |dir.entries| && (
      var e, q := dir.entries[i], r + [dir.entries[i].name];
      (e == f && f.File? && p == q) || WalkReaches(cfg, q, e, f, p));
    var e, q := dir.entries[i], r + [dir.entries[i].name];
    EntriesInclude(cfg, wl, mode, r, dir, i, |dir.entries|);
    if e == f && f.File? && p == q {
      assert FileEmissions(mode, cfg, wl, p, Present(f)) <= DirEmissions(cfg, wl, mode, folder, dir);
    } else {
      RecursiveScansEveryFile(cfg, wl, mode, q, e, f, p);
      assert FileEmissions(mode, cfg, wl, p, Present(f)) <= DirEmissions(cfg, wl, mode, folder, dir);
    }
  }
}
