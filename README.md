# rokki scan engine and whitelist, in Dafny

rokki is a malware scanner for web servers. This project models its core.

**`Scanner`** (`scanner.js`):
- `scan(file)` applies a fixed chain of guards to one file:
  - the lower-cased base name against the `exclude`/`include` filters;
  - existence;
  - regular file;
  - `maxSize`.
- It then matches the base name against the database's list of known web-shell names.
- It then matches the content against the database's content rules, in order.
- It reports each result through a callback.
- `scanFolder(folder)` walks a directory, filtered on the resolved directory's name. It descends into sub-directories only when `recursive` is set.

**`Whitelist`** (`whitelist.js`):
- It is a table of rows `(checksum, filename, product)`, keyed by the SHA-1 of a file's content.
- `updateFile` and `update` append rows.
- `isInWhitelist` and `isFileInWhitelist` answer whether a digest or a file is known.
- When a whitelist is attached, the scanner asks it about every hit. A listed file is reported as `"Whitelist"` instead of infected.

The model works over a file system given as a value:
- A directory tree is a `FileSystem.Node`.
- A path is a sequence of components.

Some operations are parameters of the model, and everything proved holds for any choice of them:
- The JavaScript `RegExp.test`, the UTF-8 decoding of `fs.readFile`, and `fs.realpathSync` are fields of `ScanEngine.Platform`.
- SHA-1 is the `hash` function a store is given.

The source reports through callbacks that may fire several times per file, in any order. Each scanning operation therefore has a specification function that gives the *multiset* of `(path, outcome)` emissions it makes:
- `ScanEmissions` for `scan`.
- `DirEmissions` and `FolderEmissions` for `scanFolder`.
- `ScanEngine.CallbackArgs` gives the literal callback arguments for each outcome.

The methods of the classes `WhitelistStore.Whitelist` and `ScanEngine.Scanner` follow the source's loops and are proved against these functions.

The scanner is modelled as written, including two defects, which are listed under Findings. `Decide` is the single outcome the source evidently intends for a file. `Mode.Intended` runs the folder walk with it, and the properties about intended behaviour are stated over it.

Modules:
- `Wrappers`: `Option`.
- `FileSystem`: nodes, paths, `Basename`, ASCII lower-casing, the reachability predicate `Within` and `FileCount`.
- `Signatures`: the signature database and the two views of the rule loop, `FirstMatch` and `MatchCount`.
- `WhitelistStore`: digests, rows, `Checksum`, `Find` and `Lookup`, `Record*` for `update`, and the `Whitelist` class.
- `ScanEngine`: options, outcomes, the per-file and per-folder specifications, and the `Scanner` class.
- `ScanProperties`: the lemmas about the scan engine.

## Model

| member | source | states |
|---|---|---|
| FileSystem.Lower | scanner.js:37 | the name that `scan` filters and looks up has the base name's length and no capital letter left: each capital becomes the letter 32 code points above it and every other character is kept |
| FileSystem.LowerIdempotent | scanner.js:37 | lower-casing an already lower-cased name changes nothing |
| Signatures.FirstMatch | scanner.js:111-121 | without a whitelist, the rule that is reported is the one of lowest index whose expression matches the content; there is none exactly when no rule matches |
| Signatures.MatchCount | scanner.js:111-142 | with a whitelist, the rule loop starts exactly one deferred lookup per matching rule: the count is the size of the set of matching rule indices, at most the number of rules, and zero exactly when no rule matches |
| WhitelistStore.Checksum | whitelist.js:42-68 | a missing path gives the error "<file> is not found" and no digest; an existing file gives the digest of its whole content, a function of the bytes alone |
| WhitelistStore.Find | whitelist.js:129-149 | for any checksum text, the answer is `(false)` exactly when no row has that checksum; otherwise it is the filename and product of the first row, in insertion order, that has it; a lookup never fails |
| WhitelistStore.Lookup | whitelist.js:151-170 | `isFileInWhitelist` is `checksum` followed by `isInWhitelist`; a missing file passes the checksum error on in place of the boolean |
| WhitelistStore.FindAfterAppend | whitelist.js:113-145 | appending rows never changes the answer for a checksum already listed; an unlisted checksum is answered by the appended rows |
| WhitelistStore.RecordDirCount | whitelist.js:81-95 | `update` on a directory appends exactly one row per regular file it reaches through sub-directories, each carrying the given product |
| WhitelistStore.RecordEntriesCount | whitelist.js:86-95 | the first i entries of a listing append one row per file reached through them, all carrying the product |
| WhitelistStore.RecordEntriesInclude | whitelist.js:86-95 | the rows an entry appends are among the rows of any listing prefix that contains it |
| WhitelistStore.RecordDirReaches | whitelist.js:81-95 | every regular file reachable from the directory gets a row with its digest and the product |
| WhitelistStore.RecordedFileIsListed | whitelist.js:86-145 | after `update` of a directory, every file reachable from it is listed by `isInWhitelist`, whatever rows came before |
| WhitelistStore.Whitelist.constructor | whitelist.js:9-22 | a store opened on a non-empty database file name holds that file's table; without a name (in-memory) or with the empty name (anonymous temporary database) it starts empty |
| WhitelistStore.Whitelist.IsInWhitelist | whitelist.js:129-149 | the query over the table answers as `Find`: the first row with the checksum, or `(false)` |
| WhitelistStore.Whitelist.IsFileInWhitelist | whitelist.js:151-170 | answers as `Lookup` on the current table |
| WhitelistStore.Whitelist.UpdateFile | whitelist.js:101-127 | on a file, exactly one row `(sha1, filename, product)` is appended after the unchanged earlier rows, with no duplicate check, and `(null, filename, sha1)` is reported; on a missing path the table is unchanged and the checksum error is reported |
| WhitelistStore.Whitelist.Update | whitelist.js:70-99 | the table grows by exactly the rows of `Record`: a failed stat reports its error, a single file reports the exception `updateFile` throws and adds nothing, and a directory adds a row for every reachable file |
| WhitelistStore.Whitelist.UpdateDir | whitelist.js:81-96 | the `readdir` loop appends exactly the rows of `RecordDir`, one per reachable regular file, recursing into every sub-directory unconditionally; a listing error is reported and adds nothing (the model inserts in listing order, see Left out) |
| ScanEngine.CallbackArgs | scanner.js:40-184 | the second callback argument is `true` exactly for an infection, `false` exactly for a clean file and `"Whitelist"` exactly for a whitelisted one; the third is `null` exactly for clean and whitelisted files |
| ScanEngine.Precheck | scanner.js:37-67 | a file passes every guard only if it exists and is a regular file |
| ScanEngine.Scanner.constructor | scanner.js:14-30 | the defaults (100 MB `maxSize`, no filters, not recursive, no whitelist) apply only when no options object is given; a whitelist store is attached exactly when `whitelist` is a non-empty name |
| ScanEngine.Scanner.Scan | scanner.js:32-151 | `scan` reports exactly the emissions of `ScanEmissions` for the scanner's options, database and attached table |
| ScanEngine.Scanner.ProcessFile | scanner.js:99-146 | the read, the rule loop and the final clean report emit `ContentEmissions`: a read error once; without a whitelist the first matching rule or clean; with one, one lookup per matching rule, then clean |
| ScanEngine.Scanner.ScanFolder | scanner.js:153-168 | `scanFolder` reports exactly `FolderEmissions` as written |
| ScanEngine.Scanner.ScanDirectory | scanner.js:170-197 | the resolve, the folder filter, the listing and the entry loop report exactly `DirEmissions` |
| ScanEngine.Scanner.ScanEntry | scanner.js:188-195 | one listed entry reports exactly `EntryEmissions`: a sub-directory is walked only when `recursive` is set, a regular file is scanned, anything else reports nothing |
| ScanProperties.ContentEmissionsShape | scanner.js:99-146 | reading and matching a file reports only about that file and only a read error, an infection, a whitelist verdict or clean |
| ScanProperties.ScanEmitsAtPath | scanner.js:32-151 | `scan` always reports at least once, and only about the path it was given, in either mode |
| ScanProperties.NameFilter | scanner.js:37-46 | "Excluded" is reported exactly when `exclude` matches the lower-cased base name or a set `include` does not; such a file is reported only "Excluded", whatever is at the path |
| ScanProperties.ExistenceAndKind | scanner.js:51-63 | past the filters, a missing path is only "File is not found", a failed stat only its error, and anything but a regular file only "File should be provided" |
| ScanProperties.SizeLimit | scanner.js:65-67 | "File is too big" is reported exactly when `maxSize` is set and the size is strictly greater, and it is then the only report; a size equal to `maxSize` is scanned, and options without `maxSize` never limit |
| ScanProperties.NameHitWithoutWhitelist | scanner.js:70-76 | without a whitelist, a name on the web-shell list is reported only as a PATH-check, high-impact web shell, whatever the content |
| ScanProperties.ContentWithoutWhitelist | scanner.js:111-145 | without a whitelist, the lowest-index matching rule is reported with its id, type, impact and expression; if none matches the file is reported only clean |
| ScanProperties.WithoutWhitelistOneOutcome | scanner.js:37-145 | without a whitelist, `scan` reports each file exactly once, with the outcome `Decide` gives |
| ScanProperties.NameHitWithWhitelist | scanner.js:79-93 | with a whitelist, a name hit is reported "Whitelist" exactly when the file's digest is in the table and infected exactly when it is not |
| ScanProperties.CleanReportedWithWhitelist | scanner.js:79-145 | as written, with a whitelist every readable file is reported clean, even when it is also reported infected or whitelisted |
| ScanProperties.ContentHitsWithWhitelist | scanner.js:111-145 | as written, with a whitelist and no name hit, each matching rule yields one report: "Whitelist" when the digest is listed, otherwise an infection by the last rule of the database; the number of such reports is the number of matching rules, and clean is reported exactly once |
| ScanProperties.DecideWithWhitelist | scanner.js:79-140 | as intended, a name hit ends in a whitelist verdict, and a content hit is whitelisted when listed and otherwise reported with the first rule that matched |
| ScanProperties.StaleSignatureReported | scanner.js:111-140 | as written, a file matching only rule 10 of the rules [10, 13], with an unlisted digest, is reported as infected by rule 13 and never by rule 10 |
| ScanProperties.ListedNeverInfected | scanner.js:79-140 | a file whose digest the table lists is never reported infected, as written or as intended |
| ScanProperties.ListedContentNeverInfected | scanner.js:124-140 | for such a file, no content hit is reported as an infection |
| ScanProperties.RecordedFileNeverInfected | scanner.js:79-140 | after `update` of a directory, no file reachable from it is reported infected by a scanner using that table, as written or as intended |
| ScanProperties.FolderEntryPoints | scanner.js:160-168 | `scanFolder` on a missing path reports only "Folder is not found"; on anything but a directory it reports exactly what `scan` reports |
| ScanProperties.DeniedFolderPruned | scanner.js:171-180 | a directory whose resolved name the folder filters deny is reported only "Excluded folder", and nothing beneath it is reported |
| ScanProperties.ShallowWithoutRecursion | scanner.js:187-196 | without `recursive`, every report is about the directory itself or one of its regular-file entries: nothing from sub-directories, nothing for other entries |
| ScanProperties.ShallowEntries | scanner.js:187-196 | without `recursive`, the first i entries report only about regular files among them |
| ScanProperties.EntriesInclude | scanner.js:187-196 | what an entry reports is among what any listing prefix containing it reports |
| ScanProperties.WithinIsReached | scanner.js:171-194 | when the folder filters deny no name, every regular file within a directory is reached by the walk under some path whose last component is the file's own name |
| ScanProperties.RecursiveScansEveryFile | scanner.js:171-196 | with `recursive` set, a file the walk reaches under path `p` through directories the folder filters admit (each resolved and extended by the entry's name) is scanned at `p`, whatever sibling folders the filters deny: all `scan` reports for it at `p` is among what `scanFolder` reports |

## Left out

- Asynchrony: callbacks are flattened into synchronous reads of the tree. The order of emissions, and any interleaving between files, is not modelled; emissions form a multiset.
- The missing-callback exceptions of `scan`, `scanFolder`, `checksum`, `isInWhitelist` and `isFileInWhitelist` are not modelled: the model's operations return their reports instead of taking a callback. The one exception that arises on its own, inside `update` on a single file, is modelled as a `Thrown` report.
- The `EMFILE` retry of the read (scanner.js:101-105) depends on timing. A read either succeeds or fails with an error.
- The regular-expression engine, UTF-8 decoding, `fs.realpathSync` (symbolic links) and SHA-1 are parameters. This includes the `lastIndex` state of a `/g` expression, which would make repeated tests of the same filter disagree. The fixed digest of the test fixture (test/index.js:251-257) needs real SHA-1 and is not stated.
- FileSystem.Lower: lower-cases ASCII letters only, not the full Unicode mapping of `toLowerCase`.
- Options of the wrong JavaScript type are not modelled. A non-number `maxSize` behaves as `None`, a non-RegExp filter as `None`, and a non-string `whitelist` as no whitelist.
- Stat failures: `scan`'s stat error is modelled through `Facts`. The walk's own `fs.stat`/`fs.statSync` (scanner.js:165, 189; whitelist.js:88) are taken to succeed on every node of the tree, because the source has no handler there.
- WhitelistStore.Checksum: defined on missing paths and regular files only. On a directory or an unreadable file the source's read stream fails with no error handler. The model hashes the content of a file whatever its `readError`.
- WhitelistStore.Find: database errors from the select (whitelist.js:138-140) are not modelled. Among several rows with the checksum it returns the first in insertion order, an order the unordered select does not promise.
- WhitelistStore.Whitelist.UpdateDir: the order of the rows one `update` inserts is not modelled. Each insert waits for its file's asynchronous checksum (whitelist.js:108-113), and a sub-directory's rows also wait for its own `fs.stat` and `readdir` (whitelist.js:73, 81), so the source inserts in completion order. The model inserts in listing order. This affects only which of several rows with the same checksum `Find` returns.
- WhitelistStore.Whitelist.UpdateFile: insert errors (whitelist.js:117-118) are not modelled.
- sqlite connection handling, the `serialize` queue, the table creation on `open`, the error logger and `process.exit(1)`, and the close-on-exit hook (whitelist.js:15-39) are not modelled. Neither is the Scanner's not passing a logger to the store.
- With a whitelist attached, `scan` only ever looks up files that exist, so `WhitelistError` arises only from an answer that is not a boolean. The model has no such answer for an existing file; a file deleted between the stat and the checksum is not modelled.
- The signature database (`./signatures`) is a parameter of the scanner; its contents are not part of this model.
- index.js (a placeholder `main` and re-exports) is not part of this model.

## Findings

| source | as written | input that shows it | evidently intended | confidence | as-written member | corrected member |
|---|---|---|---|---|---|---|
| scanner.js:79-145 | with a whitelist attached, neither a name hit nor a content hit returns, so the read, the rule loop and the final `callback(file, false, null)` run as well | a readable file on the web-shell name list whose digest is not in the table: it is reported infected and also clean | the whitelist's verdict on a hit is the file's only report | not executed | ScanProperties.CleanReportedWithWhitelist | ScanProperties.DecideWithWhitelist |
| scanner.js:111-140 | the deferred `isFileInWhitelist` callbacks read the function-scoped loop variable `signature` after the loop has finished, so every content hit is reported with the last rule of the database | rules [10, 13], a file matched only by rule 10, an empty table: reported infected by rule 13 | each hit is reported with the rule that matched | not executed | ScanProperties.StaleSignatureReported | ScanProperties.DecideWithWhitelist |
