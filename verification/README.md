# Verified models of pg_lake's background, cleanup, cache and text code

A Dafny 4.11 model of the parts of pg_lake where ordering, sharing or text formats carry the risk.
`dafny verify dfyconfig.toml` checks everything; the files do not depend on anything outside this
directory.

| part | modules | form |
|---|---|---|
| base worker launcher | `LauncherShm`, `LauncherRuns`, `LauncherInvariants`, four `Launcher*Proofs`, `LauncherTheorems`, `LauncherRestarts`, `LauncherWitnesses` | a class for the shared hashes, a state machine over every interleaving |
| in-progress file cleanup | `InProgressRuns`, `InProgressProofs`, `InProgressCleaning`, `InProgressTheorems`, `InProgressSweep`, `InProgressSubtx` | a state machine with subtransactions, and the cleanup pass as a class |
| array text | `ArrayText`, `ArrayPrinter` | list text and reader; the printing loop into a buffer of precomputed size |
| CSV | `CsvText`, `CsvWriter` | file text and reader; the writer as a class |
| file cache | `CacheEviction`, `CachePaths`, `CacheListing`, `CacheDirectory`, `CacheBound`, `CachePass`, `CacheNames` | eviction loops against exact sums; URL and path mapping; the pass as a class over the directory |
| attached workers | `AttachedWorker` | two queues, worker and reader interleaved |
| extension dependencies | `ExtensionUpdates` | a catalog class with an event log |
| column statistics | `StatsTruncation` | bounds truncated in place, under unsigned byte order |
| COPY streams | `CopyStream` | reader classes over message sequences |
| JSON strings | `JsonText` | escaping, and the unescaping loop |
| shared types | `Basics` | options and bytes |

Five promises turned out not to hold for the code as it is; each has a run or an input that shows it
and the exact condition, or the strongest statement, that does hold.

* **At most one process per worker key.** A base worker that finds its registration gone removes its
  own hash entry and exits a moment later (pg_extension_base/src/base_worker_launcher.c:1919-1934). A
  database starter still working through an older list then starts the key again, so two processes
  are alive (`TwoProcessesPossible`). `AtMostOneWorker` shows that this is the only way: one of the
  two is that exiting worker and the key is no longer registered.
* **A rolled-back DROP brings its workers back.** There are two ways it does not. A worker marked
  before it announces itself exits with code 0 and leaves STARTING behind, which counts as running for
  ever (`RollbackCanStrandWorker`, `StrandedStaysDown`). A worker that had announced itself is lost if a
  starter answers the request while the old process is still alive: it sees a running worker, finishes
  and exits, and the worker's exit handler asks for no starter because the restart was already marked
  (pg_extension_base/src/base_worker_launcher.c:1497-1502 and 2045-2052, `AnnouncedWorkerCanBeLost`).
  `ExitedWorkerNeverLostIff` is the exact condition for no further run to lose the worker, over every
  reachable state and exit code: the entry is not left STARTING, and a starter is asked for or still has
  the key ahead of it when the exit handler runs.
* **A cache management pass keeps the directory below its limit.** It does, from every directory of
  files of a set of URLs, if and only if each URL names no file, looks like an unfinished download, or
  has no wildcard character before its query, no slash in an http(s) query and no dropped query behind
  `..` (`DirectoryBoundedIff`). There are three ways to fail. A file below a slash in a query whose name
  does not start like a cache file, as for `http://h/a?x=/b`, is never listed: it is not counted,
  evicted or reported, and stays through every pass whatever its size (`SlashInQueryIsOverlooked`,
  `OverlookedStays`). A listed file may end the whole pass with an error (`WildcardThrows`,
  `ParentNameThrows`). Or it is counted and reported as removed and stays, with another file removed in
  its place, as for `http://h/a?x=/pgl-cache.y` (`OtherFileExample`). Eviction removes the file it
  listed exactly under the condition of `EvictionHitsIff`.
* **An operation lock is held as long as its transaction runs.** A subtransaction that took it first and
  is rolled back gives it up, and a cleaner may remove its files under the running transaction
  (`RollbackGivesUpLock`). A file can be removed exactly if the lock is not held
  (`RemovableIffUnlocked`), and with a record that was not rolled back it is held
  (`RunningFilesExist`). Files that are kept survive in any case (`KeptFilesSurvive`).
* **Truncated text bounds stay above all values.** They do exactly if the byte that is incremented is
  not 255, which wraps to the end of the string (`TextUpperSoundIff`).

Smaller ones: the cache path of a URL is eight characters longer than the length test assumes
(`PathLength`), a reader of attached worker results without an expected descriptor can fail with
"received tuple data without a TupleDesc" although the worker sends one (`MissingDescIff`), and with
dependency creation switched off an update fails exactly if anything in the whole dependency closure
is missing, and an installed extension keeps its version unless one that requires it is updated, which
a created one need not be, although the comment at pg_extension_base/src/extension_dependencies.c:131
puts all dependencies at the latest version (`EnsureExtensionIsUpdated`). URLs that differ in repeated
slashes or `.` parts are different objects and one cache file (`SameFileOnDiskIff`), and the finished
file of `s3://b/pgl-stage` is removed by every pass (`FinishedFileLooksStaged`). A column listed a second
time after truncation dropped its upper bound fails an assertion; production builds leave assertions
out and read the missing bound (`ApplyColumnStatsModeForAllFileStats`).
Column statistics mode `full` is a truncation to 256 bytes in the code
(pg_lake_engine/src/data_file/data_file_stats.c:1013-1017), not an unbounded copy as its comment says;
the model follows the code.

## Premises

Launcher: every spawned process reaches its exit handler; worker ids and database OIDs are not reused
and ids fit in 16 bits; a database does not change between template and ordinary; the launcher is
enabled; a commit becomes visible in the same step that releases its locks; a registration list is the
set of committed registrations of the database; SIGTERM may arrive at any time; the no-wait lock whose
result the server starter ignores is left out, which only adds runs. A registration is removed by a
command of another session, never by the worker itself (`DeregisterBaseWorkerSelf`,
pg_extension_base/src/base_worker_launcher.c:2272). `MayCommit` stands for the waits of PostgreSQL: DROP
EXTENSION of the base extension commits only with no uncommitted registration or creation of it in that
database, DROP DATABASE only with nobody else connected to it.

In-progress files: a recorded path was never recorded before; a file is written once, under a committed
record of its own operation and no record of another; a transaction does not come back to records it
made in a subtransaction that was rolled back; a cleaner is not an owner transaction; remote deletes
succeed; an insert really records, so the transaction is not read-only and the table is visible
to others (pg_lake_engine/src/cleanup/in_progress_files.c:471-488 does not return early). A cleaner may
read any list of committed rows, which covers the location filter and the limit per loop.

Arrays: an array has as many elements as the product of its dimensions, and the delimiter is not `]`.
CSV: server encodings without embedded ASCII, no transcoding. Cache sizes: sums stay below 2^63; a
download has at most the recorded size; the glob of a pass returns every file of the directory, and
nothing else changes the directory during the pass. Wildcard characters are `*`, `?` and `[`, as in
DuckDB's file system interface. Attached workers: the command is a single statement. Extensions: the
requires lists have no cycle. TRANSMIT: libpq hands out no empty data message.

## Model

| member | source | states |
|---|---|---|
| `LauncherShm.PackedKeySurvives` | pg_extension_base/src/base_worker_launcher.c:1545-1548 | a worker reads its own key back from the process argument if and only if its id fits in 16 bits |
| `LauncherShm.BaseWorkerControl.StartDatabaseStarter` | pg_extension_base/src/base_worker_launcher.c:890-1001 | a spawn takes an entry nobody held, answers its request and shuts a second one out; every other result leaves an open request as it was; other databases are untouched |
| `LauncherShm.BaseWorkerControl.StartBaseWorker` | pg_extension_base/src/base_worker_launcher.c:1479-1597 | the same for workers, and a spawn happens only after the delay, whose last instant still blocks |
| `LauncherShm.BaseWorkerControl.AnnounceDatabaseStarter` | pg_extension_base/src/base_worker_launcher.c:1026-1077 | whoever announces itself took an entry that named nobody and was not to be restarted, and any later announcement or start is refused |
| `LauncherShm.BaseWorkerControl.DatabaseStarterExit` | pg_extension_base/src/base_worker_launcher.c:1239-1266 | after the exit the next start spawns if and only if a restart was asked for or the exit was a failure, and is otherwise done |
| `LauncherShm.BaseWorkerControl.DatabaseStarterNeedsRestart` | pg_extension_base/src/base_worker_launcher.c:1605-1619 | a running starter stays and is started again after its exit, whatever its code; an idle one is started next; no entry is created |
| `LauncherShm.BaseWorkerControl.AnnounceBaseWorker` | pg_extension_base/src/base_worker_launcher.c:1848-1898 | the same exclusive claim on the worker hash, at every later time |
| `LauncherShm.BaseWorkerControl.RequestBaseWorkerRestart` | pg_extension_base/src/base_worker_launcher.c:1974-2003 | after its clean exit the worker is due at once for -1 and after that many milliseconds for a positive value, and a starter is asked for; other values ask for nothing |
| `LauncherShm.BaseWorkerControl.BaseWorkerExit` | pg_extension_base/src/base_worker_launcher.c:2017-2085 | an unrequested failure is due after its delay and asks for a starter, a clean exit is not started again, a requested exit is startable unless left STARTING and asks for no starter |
| `LauncherShm.BaseWorkerControl.RemoveWorkerEntriesNotInDatabaseList` | pg_extension_base/src/base_worker_launcher.c:829-860 | exactly the entries of listed databases stay, unchanged |
| `LauncherShm.BaseWorkerControl.RemoveBaseWorkerEntriesForDatabase` | pg_extension_base/src/base_worker_launcher.c:1732-1751 | exactly the entries of other databases stay |
| `LauncherShm.BaseWorkerControl.RemoveBaseWorkerEntriesNotInRegistrationList` | pg_extension_base/src/base_worker_launcher.c:1762-1783 | in one database exactly the registered entries stay |
| `LauncherShm.BaseWorkerControl.PrepareForDrop` | pg_extension_base/src/base_worker_launcher.c:2666-2763 | which entries are marked and which processes are killed by a drop |
| `LauncherShm.BaseWorkerControl.DeregisterBaseWorker` | pg_extension_base/src/base_worker_launcher.c:2313-2343 | a starting worker is made to give up by itself, a running one is killed and startable after its exit, an idle one is untouched |
| `LauncherTheorems.RunKeepsInv` | pg_extension_base/src/base_worker_launcher.c:32-58 | the invariant over hashes, processes, transactions and history survives every run of every process |
| `LauncherTheorems.NoRegistrationMissed` | pg_extension_base/src/base_worker_launcher.c:1177-1216 | in every reachable state a registration committed in a non-template database was read by a starter, or its starter has no entry, is asked for, or has not read its list yet |
| `LauncherTheorems.SettledDatabaseHasAllEntries` | pg_extension_base/src/base_worker_launcher.c:1177-1232 | with no starter running or asked for, every committed registration has a worker entry |
| `LauncherTheorems.OpenRequestIsWaitedFor` | pg_extension_base/src/base_worker_launcher.c:2114-2196 | a transaction with an open request holds the advisory lock, and a starter that will wait for it is asked for or still before its lock |
| `LauncherTheorems.AtMostOneStarter` | pg_extension_base/src/base_worker_launcher.c:921-988 | no reachable state has two live starters for one database |
| `LauncherTheorems.AtMostOneWorker` | pg_extension_base/src/base_worker_launcher.c:1491-1586 | two live workers of one key: one removed its own entry and is exiting, and the key is not registered |
| `LauncherTheorems.RegisteredWorkerOwnsEntry` | pg_extension_base/src/base_worker_launcher.c:1867-1895 | the entry of a registered key names its live worker: STARTING without pid before it announces itself, its pid afterwards |
| `LauncherWitnesses.TwoProcessesPossible` | pg_extension_base/src/base_worker_launcher.c:1919-1934 | a run with two live processes for one key |
| `LauncherTheorems.BackoffHolds` | pg_extension_base/src/base_worker_launcher.c:2053-2076 | after an unrequested failure no run without a crash restart spawns the worker before the delay has fully passed |
| `LauncherRestarts.ExitedWorkerNeverLostIff` | pg_extension_base/src/base_worker_launcher.c:2017-2085 | a registered worker that exits with any code while a restart is wanted is lost by no further run if and only if it is not left STARTING and a starter has it ahead or is asked for |
| `LauncherRestarts.AttendedIffNeverLost` | pg_extension_base/src/base_worker_launcher.c:1177-1232 | a waiting worker is attended, that is startable and owed a pass by a starter, if and only if no run without a start or removal loses it |
| `LauncherRestarts.OwedUntilStarted` | pg_extension_base/src/base_worker_launcher.c:1479-1597 | no step of any process makes an attended worker unattended before it is started or deregistered |
| `LauncherRestarts.LostUntilAsked` | pg_extension_base/src/base_worker_launcher.c:921-988 | no step but a server restart, deregistration or a new request for its startable entry revives a lost worker |
| `LauncherWitnesses.AnnouncedWorkerCanBeLost` | pg_extension_base/src/base_worker_launcher.c:2045-2052 | a run in which a worker that had announced itself is marked by a rolled-back drop and never started again |
| `LauncherTheorems.StrandedStaysDown` | pg_extension_base/src/base_worker_launcher.c:1497-1502 | no step other than removal of the entry revives a STARTING entry without process |
| `LauncherWitnesses.RollbackCanStrandWorker` | pg_extension_base/src/base_worker_launcher.c:1878-1891 | a run in which a rolled-back drop leaves a registered worker down |
| `InProgressCleaning.RunKeepsInv` | pg_lake_engine/src/cleanup/in_progress_files.c:160-221 | the invariant over rows, locks, files, transactions, their savepoints and cleaners survives every run, crashes included |
| `InProgressTheorems.KeptFilesSurvive` | pg_lake_engine/src/cleanup/in_progress_files.c:170-218 | a file whose owner committed after deleting its record is still there after every further run |
| `InProgressTheorems.RunningFilesExist` | pg_lake_engine/src/cleanup/in_progress_files.c:174-178 | a file of a running transaction whose record was not rolled back is in remote storage, covered by a committed row and guarded by the lock |
| `InProgressTheorems.NothingOrphanedIsForgotten` | pg_lake_engine/src/cleanup/in_progress_files.c:365-441 | a remote file is kept if and only if no row or prefix row covers it, in every reachable state |
| `InProgressTheorems.LockMeansRunning` | pg_lake_engine/src/cleanup/in_progress_files.c:688-716 | a lock held by anyone but a cleaner means that the transaction runs; a running transaction holds it for every record that was not rolled back |
| `InProgressSubtx.RemovableIffUnlocked` | pg_lake_engine/src/cleanup/in_progress_files.c:687-697 | some run without the transaction removes its file if and only if the transaction does not hold its operation lock |
| `InProgressSubtx.RollbackGivesUpLock` | pg_lake_engine/src/cleanup/in_progress_files.c:663-697 | a run with SAVEPOINT, a first record and ROLLBACK TO after which a file of the running transaction can be removed |
| `InProgressSweep.InProgressStore.RemoveEntry` | pg_lake_engine/src/cleanup/in_progress_files.c:174-206 | one entry: skipped if and only if its operation is locked, otherwise its files are deleted |
| `InProgressSweep.InProgressStore.RemoveInProgressFiles` | pg_lake_engine/src/cleanup/in_progress_files.c:160-221 | the paths, files and rows a whole pass deletes, and that nothing else changes |
| `InProgressSweep.FlushCleansEverything` | pg_lake_engine/src/cleanup/in_progress_files.c:126-153 | with nothing else running a full pass is a run that leaves no row and exactly the kept files |
| `ArrayText.PrintLength` | pg_lake_engine/src/pgduck/array_conversion.c:93-154 | the length of the text plus terminator is the item lengths, one separator each and two brackets per list |
| `ArrayText.RowMajor` | pg_lake_engine/src/pgduck/array_conversion.c:159-201 | the element at a position is the one at its row-major offset |
| `ArrayText.ReadsPrinted` | pg_lake_engine/src/pgduck/array_conversion.c:102-138 | a list reader consumes exactly the printed text and rebuilds the nested lists |
| `ArrayText.ArrayRoundTrip` | pg_lake_engine/src/pgduck/array_conversion.c:159-201 | dimensions and elements are recovered from the text |
| `ArrayText.ArrayTextInjective` | pg_lake_engine/src/pgduck/array_conversion.c:102-138 | different arrays have different texts, so the string "NULL" is not a null element |
| `ArrayPrinter.OverallLength` | pg_lake_engine/src/pgduck/array_conversion.c:93-154 | the first pass computes that size |
| `ArrayPrinter.RemainingStep` | pg_lake_engine/src/pgduck/array_conversion.c:187-200 | a carry of the counter takes exactly one element off |
| `ArrayPrinter.TailStep` | pg_lake_engine/src/pgduck/array_conversion.c:166-201 | one round writes an element, the closing brackets of the carry and a separator, and leaves the text of the next position |
| `ArrayPrinter.Advance` | pg_lake_engine/src/pgduck/array_conversion.c:187-200 | the carry loop moves the counter and writes its brackets and separator |
| `ArrayPrinter.PrintElements` | pg_lake_engine/src/pgduck/array_conversion.c:157-207 | as many rounds as elements, and a buffer filled exactly, terminator included |
| `ArrayPrinter.ArrayOutForPGDuck` | pg_lake_engine/src/pgduck/array_conversion.c:35-213 | `[]` without elements, an error exactly for custom lower bounds, otherwise the list text |
| `CsvText.CsvRoundTrip` | pg_lake_engine/src/csv/csv_writer.c:743-825 | reading the file of any rows of at least one column gives those rows back, with any force-quote flags and either treatment of empty lines |
| `CsvText.LineIsData` | pg_lake_engine/src/csv/csv_writer.c:1021-1023 | no written line is the end-of-data mark |
| `CsvText.EmptyLineRow` | pg_lake_engine/src/csv/csv_writer.c:183-191 | only a single empty text gives an empty line |
| `CsvWriter.CopyToState.CopyAttributeOutCSV` | pg_lake_engine/src/csv/csv_writer.c:993-1072 | the quoting decision and the text sent |
| `CsvWriter.CopyToState.SendQuoted` | pg_lake_engine/src/csv/csv_writer.c:1042-1066 | the chunked loop sends the text with every quote doubled |
| `CsvWriter.CopyToState.CopySendEndOfRow` | pg_lake_engine/src/csv/csv_writer.c:179-230 | the line written, the byte count and the longest line |
| `CsvWriter.CopyToState.CopyOneRowTo` | pg_lake_engine/src/csv/csv_writer.c:723-828 | a file that held some rows holds those rows and the new one |
| `CsvWriter.LongestLineIsMaximum` | pg_lake_engine/src/csv/csv_writer.c:194-197 | the recorded size bounds every line and is reached |
| `CacheEviction.SortIsSorted` | duckdb_pglake/src/include/pg_lake/fs/file_cache_manager.hpp:72-86 | ordering by access time and path sorts and loses nothing |
| `CacheEviction.MarkCandidates` | duckdb_pglake/src/fs/file_cache_manager.cpp:514-540 | which candidates are to be downloaded, their total, and which are too large |
| `CacheEviction.MarkedExactly` | duckdb_pglake/src/fs/file_cache_manager.cpp:516-540 | a candidate is marked if and only if it is below the limit and has no file, and is otherwise unchanged |
| `CacheEviction.EvictOldest` | duckdb_pglake/src/fs/file_cache_manager.cpp:617-664 | the loop stops at the first position where the rest fits, and its sums are the sizes of what is left |
| `CacheEviction.ManageCache` | duckdb_pglake/src/fs/file_cache_manager.cpp:494-746 | the reported actions and the counted cache size of a pass from the listing on, if no removal throws |
| `CacheEviction.ExactLru` | duckdb_pglake/src/fs/file_cache_manager.cpp:614-664 | no shorter oldest-first prefix would do, and nothing left is older than anything evicted |
| `CacheEviction.EvictionReports` | duckdb_pglake/src/fs/file_cache_manager.cpp:624-664 | every listed file and pending candidate of the evicted prefix is reported once, in order, with its outcome, and nothing else |
| `CacheEviction.BytesConserved` | duckdb_pglake/src/fs/file_cache_manager.cpp:628-664 | the bytes listed before are those still counted plus those reported removed |
| `CacheEviction.BudgetHolds` | duckdb_pglake/src/fs/file_cache_manager.cpp:617-664 | for a positive limit and no lock failure, the counted size and the downloads end below the limit |
| `CacheEviction.OverrunIsSkippedFiles` | duckdb_pglake/src/fs/file_cache_manager.cpp:637-645 | an overrun of the counted size consists of files whose removal was skipped, and nothing is downloaded |
| `CacheEviction.DownloadReports` | duckdb_pglake/src/fs/file_cache_manager.cpp:667-709 | every item still marked is reported once, in order, with its outcome, and nothing else |
| `CacheEviction.NegativeLimitEvictsNothing` | duckdb_pglake/src/fs/file_cache_manager.cpp:621-623 | the unsigned comparison makes a negative limit a very large one |
| `CacheDirectory.InStepIffAllHit` | duckdb_pglake/src/fs/file_cache_manager.cpp:617-664 | over listed files, every prefix of the removals leaves exactly the files not counted as removed, without an error, if and only if every listed path is the one its removal reaches |
| `CacheDirectory.InStepIffEvictable` | duckdb_pglake/src/fs/file_cache_manager.cpp:394-435 | for listed files cached from URLs the same holds if and only if every URL meets the condition of `EvictionHitsIff` |
| `CacheDirectory.DirectoryConserved` | duckdb_pglake/src/fs/file_cache_manager.cpp:628-664 | if listed paths are reached, the bytes in the directory after the removals are those still counted plus those of the files that are not listed, which all stay |
| `CacheDirectory.DirectoryBudget` | duckdb_pglake/src/fs/file_cache_manager.cpp:617-709 | if listed paths are reached, with a positive limit and no lock failure, the directory without the files that are not listed ends below the limit, finished and unfinished downloads included |
| `CachePass.CacheFolder.EvictOldest` | duckdb_pglake/src/fs/file_cache_manager.cpp:617-664 | the loop with its removals: what the directory holds after it, that only a removal that throws ends it early, where it stops and what it reports |
| `CachePass.CacheFolder.ListCache` | duckdb_pglake/src/fs/file_cache_manager.cpp:543-613 | the listing removes unfinished downloads that are not locked, lists exactly the files named like cache files, and throws if and only if it asks for the URL of a file that has none |
| `CachePass.CacheFolder.ManageCache` | duckdb_pglake/src/fs/file_cache_manager.cpp:494-709 | the directory and the reports after a whole pass, and that its items list the directory |
| `CacheBound.DirectoryBoundedIff` | duckdb_pglake/src/fs/file_cache_manager.cpp:543-709 | from every directory of files of the given URLs a pass ends without an error and below the limit, if and only if every URL names no file, looks unfinished, or meets the condition of `EvictionHitsIff` |
| `CacheBound.OverlookedStays` | duckdb_pglake/src/fs/file_cache_manager.cpp:585-589 | a file that is not listed stays through every pass that evicts what it lists, whatever its size |
| `CacheListing.ListingIff` | duckdb_pglake/src/fs/file_cache_manager.cpp:543-589 | which URLs have a file that is taken for unfinished, none at all, or one that is passed over |
| `CacheListing.SlashInQueryIsOverlooked` | duckdb_pglake/src/fs/file_cache_manager.cpp:585-589 | the http URL whose cache file, named `b`, is never listed |
| `CacheListing.FinishedFileLooksStaged` | duckdb_pglake/src/fs/file_cache_manager.cpp:553-583 | an s3 URL whose finished cache file is removed as unfinished |
| `CachePaths.PathLength` | duckdb_pglake/src/fs/file_cache_manager.cpp:206-208 | a path is eight characters longer than directory and URL, which the length test does not count |
| `CachePaths.NameFits` | duckdb_pglake/src/fs/file_cache_manager.cpp:189-191 | a cache file name leaves room for the staging suffix |
| `CachePaths.CacheableIsNeverInvalid` | duckdb_pglake/src/fs/file_cache_manager.cpp:138-158 | a URL that passes the cacheability test is never rejected as malformed |
| `CachePaths.SamePathIffSameFile` | duckdb_pglake/src/fs/file_cache_manager.cpp:138-197 | two cached URLs share a path if and only if they are equal, up to the query unless http(s) |
| `CacheNames.SameFileOnDiskIff` | duckdb_pglake/src/fs/file_cache_manager.cpp:138-197 | two cached URLs share a file on disk if and only if their directories and names agree up to repeated slashes and `.` parts |
| `CachePaths.UrlComesBackIffNoSlash` | duckdb_pglake/src/fs/file_cache_manager.cpp:94-117 | the URL comes back from the path, up to a dropped query, if and only if a kept query has no slash |
| `CachePaths.EvictionHitsIff` | duckdb_pglake/src/fs/file_cache_manager.cpp:394-435 | removal by the URL of a listed path reaches that path if and only if there is no wildcard before the query, a kept query has no slash and a dropped one does not leave ".." |
| `CachePaths.ParentNameThrows` | duckdb_pglake/src/fs/file_cache_manager.cpp:204-222 | an s3 URL whose cache file makes eviction throw, because its name without the query is rejected |
| `CachePaths.WildcardThrows` | duckdb_pglake/src/fs/file_cache_manager.cpp:413-414 | a cacheable s3 URL with a bracket, whose cache file makes eviction throw |
| `CachePaths.MissWithoutSlashThrows` | duckdb_pglake/src/fs/file_cache_manager.cpp:407-414 | every miss other than by a slash in a kept query is an error |
| `CachePaths.OtherFileIsRemoved` | duckdb_pglake/src/fs/file_cache_manager.cpp:94-117 | a slash in a kept query whose last part looks like a cache file makes eviction remove the path of another URL |
| `CacheListing.OtherFileExample` | duckdb_pglake/src/fs/file_cache_manager.cpp:94-117 | an http URL with a named cache file for which eviction removes another file that can exist |
| `CachePaths.DirAndFile` | duckdb_pglake/src/fs/file_utils.cpp:35-67 | directory and file name split a path at its last slash |
| `AttachedWorker.NormalReturnIsValidated` | pg_extension_base/src/attached_worker.c:597-656 | in every interleaving a normal return has stored exactly the tuples sent, and with an expected descriptor and any tuple the worker's description arrived and matched |
| `AttachedWorker.StoredInOrder` | pg_extension_base/src/attached_worker.c:634-650 | at every point the stored tuples are a prefix of those sent |
| `AttachedWorker.MissingDescIff` | pg_extension_base/src/attached_worker.c:641-648 | the missing-descriptor error is reachable if and only if no descriptor was expected and the worker sends a tuple |
| `AttachedWorker.ProtocolQueue.ProcessProtocolMessages` | pg_extension_base/src/attached_worker.c:439-538 | a drain takes exactly the messages up to the first error or completion and reports their first row description |
| `AttachedWorker.DrainIsReaderSteps` | pg_extension_base/src/attached_worker.c:604-632 | the reader's drain steps take the same messages and decide the same way |
| `AttachedWorker.ValidateWorkerTupleDesc` | pg_extension_base/src/attached_worker.c:559-581 | accepted if and only if column count and types agree |
| `ExtensionUpdates.Catalog.EnsureExtensionExists` | pg_extension_base/src/extension_dependencies.c:192-203 | missing dependencies are created first, nothing is updated |
| `ExtensionUpdates.Catalog.HandleAlterExtensionStmt` | pg_extension_base/src/extension_dependencies.c:109-146 | dependencies come before what needs them in every configuration; without a version every dependency is updated if it was there and created if not; with a version nothing is updated; without creation it succeeds if and only if the closure is installed |
| `ExtensionUpdates.Catalog.EnsureExtensionIsUpdated` | pg_extension_base/src/extension_dependencies.c:209-243 | the recursive update ends, in order, and updates every extension reachable through installed ones; an installed extension is updated if and only if one that requires it is |
| `ExtensionUpdates.Catalog.HandleCreateExtensionStmt` | pg_extension_base/src/extension_dependencies.c:154-185 | installed dependencies are updated in order before the extension is created; without creation it succeeds if and only if each of them has its whole closure installed |
| `ExtensionUpdates.ReachableUpdated` | pg_extension_base/src/extension_dependencies.c:126-145 | a log that respects the order and updates an extension updates every chain of installed dependencies below it |
| `ExtensionUpdates.OrderedConcat` | pg_extension_base/src/extension_dependencies.c:126-145 | updating one dependency after the other keeps the order, whatever the first one created |
| `StatsTruncation.LowerSound` | pg_lake_engine/src/data_file/data_file_stats.c:1104-1114 | values above the old lower bound are above the new one |
| `StatsTruncation.BinaryUpperSound` | pg_lake_engine/src/data_file/data_file_stats.c:1175-1204 | values below the old upper bound are below the new one, or it is absent |
| `StatsTruncation.TextUpperSoundIff` | pg_lake_engine/src/data_file/data_file_stats.c:1121-1146 | the same for text if and only if the incremented byte is not 255 |
| `StatsTruncation.TextUpperSound` | pg_lake_engine/src/data_file/data_file_stats.c:1121-1146 | text without byte 255, as in UTF-8, is always sound |
| `StatsTruncation.TextUpperUnsoundExample` | pg_lake_engine/src/data_file/data_file_stats.c:1132-1143 | two bytes 255 truncated to one give the empty upper bound |
| `StatsTruncation.TruncationSoundIff` | pg_lake_engine/src/data_file/data_file_stats.c:1037-1097 | for every mode and type, values within the old bounds stay within the new ones exactly outside that case |
| `StatsTruncation.TruncateStatsMinForText` | pg_lake_engine/src/data_file/data_file_stats.c:1104-1114 | the C string in the buffer becomes the truncated bound |
| `StatsTruncation.TruncateStatsMaxForText` | pg_lake_engine/src/data_file/data_file_stats.c:1121-1146 | the C string in the buffer becomes the incremented bound, wrap-around included, or there is none |
| `StatsTruncation.TruncateStatsMaxForBinary` | pg_lake_engine/src/data_file/data_file_stats.c:1175-1204 | the backward loop finds the last byte below 255 |
| `StatsTruncation.ApplyColumnStatsModeForAllFileStats` | pg_lake_engine/src/data_file/data_file_stats.c:958-979 | all columns end with truncated bounds if and only if none has a lower bound only, at the start or when listed again; otherwise those before the first such column do |
| `StatsTruncation.TruncationBreaksExample` | pg_lake_engine/src/data_file/data_file_stats.c:1041-1046 | bounds that truncation leaves with a lower bound only |
| `CopyStream.CopyFromStdinState.ReceiveDataFromClient` | pg_lake_copy/src/copy/copy_io.c:164-253 | bytes returned and bytes pending are the bytes pending before; none are returned only at the end |
| `CopyStream.CopyInputToFile` | pg_lake_copy/src/copy/copy_io.c:59-120 | the file is the concatenated data up to the end of the stream, and the call succeeds if and only if the client ended it with CopyDone |
| `CopyStream.SkippedAddNothing` | pg_lake_copy/src/copy/copy_io.c:226-234 | flush and sync messages anywhere change nothing |
| `CopyStream.CutsAddNothing` | pg_lake_copy/src/copy/copy_io.c:240-249 | how the data is cut into messages changes nothing |
| `CopyStream.TransmitReader.ReceiveCopyData` | pg_lake_copy/src/copy/copy.c:1510-1553 | the next payload is buffered, the stream has ended, or a failed COPY is raised, once and only at its end |
| `CopyStream.TransmitReader.CopyReceivedTransmitDataToBuffer` | pg_lake_copy/src/copy/copy.c:1476-1502 | at most the size asked for, no byte lost, none returned if and only if the stream has ended, and an error if and only if it ended in a failed COPY |
| `CopyStream.TransmitReader.ReadInChunks` | pg_lake_copy/src/copy/copy.c:1476-1502 | any sequence of positive sizes delivers the stream from its beginning, and a failure is raised only after all of it |
| `JsonText.JsonRoundTrip` | pg_lake_engine/src/json/json_utils.c:29-39 | every text comes back from its escaped form |
| `JsonText.CharRoundTrip` | pg_lake_engine/src/json/json_utils.c:69-115 | each escape is undone whatever follows it |
| `JsonText.UnEscapeJson` | pg_lake_engine/src/json/json_utils.c:46-124 | the loop computes the unescaped text, or runs past a malformed end |

## Left out

- `LauncherTheorems.AtMostOneWorker`: allows a second process while a deregistered worker is exiting, because the code does.
- `CopyStream.CopyFromStdinState.ReceiveDataFromClient`: does not model message size limits and interrupts.
- `JsonText.UnEscapeJson`: does not model the read one byte before the buffer that the test for a closing quote makes on an empty text, and takes the text to stay empty; a trailing backslash, a short `\u` and digits that are not hexadecimal are one malformed result, because the code reads past its buffer or leaves them to strtol there.
- `ExtensionUpdates.Catalog.EnsureExtensionIsUpdated`: which created extensions are updated as well is not given in advance, because it depends on whether a later entry of some requires list meets them again.
- A worker that deregisters itself, and PostgreSQL's own waits, as said under Premises.
- Server starter details: the list of databases it reads, its sleep times and its own restart.
- Registration catalog joins and permission checks; registrations are a set of keys.
- Eventual progress of the launcher and of cleanup: only safety and what a completed pass does are stated.
- The case-insensitive location filter of in-progress rows; a cleaner reads any list of rows.
- Container elements in the array reader: their text is printed as it is and has its own formats.
- Binary and text COPY formats, headers, transcoding and value serialisation in the CSV writer.
- `CacheEviction.ManageCache`: starts from the listing (`CachePass.CacheFolder.ManageCache` is the whole pass); the three ways a download can fail are one outcome, because the sums treat them alike.
- Directory creation and the lock map of the file cache; a lock is a try that may fail.
- `CacheNames.SameFileOnDiskIff`: does not resolve `..` parts, links or case, which depend on the file system.
- Cache-on-write, access time updates and the remote file systems.
- Several statements in one attached command, and whether the worker's transaction commits.
- Conversion of binary bounds to and from their text form, and character boundaries in truncated text.
- Errors of file and socket writes.
