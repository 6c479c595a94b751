# SqlForward migration engine, modelled in Dafny

Jamrozik.SqlForward is a forward-only database migrator. Its engine,
`DatabaseMigration`, works in these steps:

- It opens a connection.
- It enters `Started` and runs the initialization script, which prepares the `ScriptLog` table, in stage `Initializing`.
- It reads the names already recorded in `ScriptLog`.
- It lists the `*.sql` files of the scripts folder and sorts them.
- It reports how many are pending (`CheckingPendingMigrations`) and enters `Migrating`.
- It runs every pending file in order, each in its own transaction, and records the file name in `ScriptLog` after the script commits.
- It stops after the optional target migration. The first failing script is rolled back, and its exception ends the run.
- Only a run that throws nothing reports `Finished`.

Every stage change and script outcome is reported to the `Changed` observers as a `DatabaseMigrationEventArgs`.

The model has three layers:

- **State.** `Engine.DatabaseMigration` is a class whose `stage` and `events` change in place. It works over a `Database` object that holds the `ScriptLog` rows and the scripts that took effect. A `Command` collects parameters in place, and `MigrationParameterColletion` is a class whose dictionary changes in place. Each state-changing method is proved to produce exactly the new state that the matching function of `MigrationSpec` gives: `Logged`, `Executed`, `Recorded`, `Initialized`, `RunPending`, `Iterated` and `Synchronized`. Loops carry the invariants for this: the `foreach` of `IterateMigrations` with its counter and `break`, the reader loop of `GetExecutedScripts`, and the parameter loops.
- **Properties.** What the engine promises is proved about those functions. This covers:
  - the pending filter and its count;
  - the run order;
  - the stop target and halt-on-failure;
  - what is applied and recorded, in which order and with which parameters;
  - the notifications and the order of their stages;
  - idempotence of a rerun.
- **Values.** `DatabaseMigrationEventArgs` and `MigrationParameter` are immutable datatypes (`MigrationEvent`, `MigrationParameter`). Their constructors store every field as given, and the fields cannot change later. `MigrationParameter.Value` applies the stored resolver to (script name, parameter name), and `RunProperties.BindAllResolves` states that each bound value is exactly that.

The outside world is a `MigrationSpec.Host` parameter with three parts:

- the `*.sql` listing of a folder (`None` for a missing folder, or one that cannot be listed);
- the mapping of `~` paths;
- an oracle that says whether running a given script path throws, and with which `ScriptError`.

Two behaviours of the code show in the model:

- The initialization script lives in the scripts folder and matches `*.sql`. It therefore runs twice on a first run: once in `Initializing`, and once as a pending migration, which records it in `ScriptLog`. A first run over the initialization script plus `Rev001` and `Rev002` therefore leaves three rows.
- `IterateMigrations` records the file name with its extension (`Path.GetFileName`), and that is also what it compares against the log. The announcement raised before a migration runs also carries the file name with its extension. Only the notifications of a script's success or failure, raised by `ExecuteScriptInTransaction`, name it without its extension (`Path.GetFileNameWithoutExtension`). The model follows the code.

## Model

| member | source | states |
|---|---|---|
| Engine.NewDatabaseMigration | Jamrozik.SqlForward/DatabaseMigration.cs:56-62 | fails with ArgumentNullException exactly when no connection factory is given; otherwise yields a fresh engine in stage None, with no notifications, two fresh and distinct empty parameter collections and the given settings |
| Engine.DatabaseMigration.constructor | Jamrozik.SqlForward/DatabaseMigration.cs:88-142 | initial state: stage None, no notifications, two fresh, distinct and empty parameter collections, folder and initialization script as configured |
| Engine.AddParameterToCommand | Jamrozik.SqlForward/DatabaseMigration.cs:311-319 | returns the parameter with the given name, type and value; the command gains exactly that parameter at the end |
| Engine.AddCollectionToCommand | Jamrozik.SqlForward/DatabaseMigration.cs:353-359 | the command gains every parameter of the collection, in the order added, each resolved for the script name; nothing when the collection is empty |
| Engine.DatabaseMigration.Log | Jamrozik.SqlForward/DatabaseMigration.cs:234-239 | the stage becomes the given one and one notification carrying that new stage is delivered; log and database are untouched |
| Engine.DatabaseMigration.ExecuteScriptInTransaction | Jamrozik.SqlForward/DatabaseMigration.cs:340-375 | new state and thrown exception are those of MigrationSpec.Executed: a failing script takes no effect, is reported with its exception and is rethrown; a succeeding one takes effect once with the parameters resolved for its file name and is reported without exception |
| Engine.DatabaseMigration.RecordMigrationExecuted | Jamrozik.SqlForward/DatabaseMigration.cs:287-301 | ScriptLog gains exactly the row for the file name: @name first, then the log parameters resolved for that name |
| Engine.DatabaseMigration.GetExecutedScripts | Jamrozik.SqlForward/DatabaseMigration.cs:194-210 | returns the ScriptName of every ScriptLog row, in row order, one per row |
| Engine.DatabaseMigration.InitializeScriptLogTable | Jamrozik.SqlForward/DatabaseMigration.cs:220-225 | enters Initializing and runs the initialization script inside the scripts folder with the log parameters (MigrationSpec.Initialized) |
| Engine.DatabaseMigration.MigrateFile | Jamrozik.SqlForward/DatabaseMigration.cs:266-274 | one loop turn for a pending file: announce, execute with the script parameters, and record only if it did not throw (MigrationSpec.RunPending) |
| Engine.DatabaseMigration.IterateMigrations | Jamrozik.SqlForward/DatabaseMigration.cs:257-281 | reports the pending count, enters Migrating, then runs the pending files in listing order until one throws or the target has been visited (MigrationSpec.Iterated) |
| Engine.DatabaseMigration.Synchronize | Jamrozik.SqlForward/DatabaseMigration.cs:167-188 | the whole run: Started, initialization, executed names, sorted listing, iteration, Finished only when nothing threw; any exception ends the run (MigrationSpec.Synchronized) |
| Engine.DatabaseMigration.SynchronizeAll | Jamrozik.SqlForward/DatabaseMigration.cs:158-161 | the run with no target |
| Parameters.InsertedSpec | Jamrozik.SqlForward/MigrationParameter.cs:30-36 | adding fails exactly for a name already present; a fresh name stores the parameter under its name, grows the count by one, keeps every other entry and appends the name to the enumeration order |
| Parameters.InsertedValid | Jamrozik.SqlForward/MigrationParameter.cs:30-36 | adding keeps the collection well formed: distinct keys, listed once each, every parameter under its own name |
| Parameters.MigrationParameterColletion.constructor | Jamrozik.SqlForward/DatabaseMigration.cs:127 | a new collection is empty and well formed |
| Parameters.MigrationParameterColletion.Add | Jamrozik.SqlForward/MigrationParameter.cs:32-36 | a present name throws ArgumentException and leaves the contents unchanged; otherwise the contents become the insertion and the same collection instance is returned |
| Parameters.MigrationParameterColletion.AddNew | Jamrozik.SqlForward/MigrationParameter.cs:38-41 | behaves exactly as Add of a parameter built from the three arguments |
| MigrationEvents.Ordinal | Jamrozik.SqlForward/DatabaseMigrationEventArgs.cs:8-16 | each stage has a numeric value below six |
| MigrationEvents.StageOf | Jamrozik.SqlForward/DatabaseMigrationEventArgs.cs:8-16 | each value 0..5 belongs to exactly one stage, so the enum has exactly six members in declaration order |
| MigrationEvents.DefaultStage | Jamrozik.SqlForward/DatabaseMigration.cs:107 | the initial stage is the enum's value 0, None |
| MigrationSpec.ExecutedNames | Jamrozik.SqlForward/DatabaseMigration.cs:203-208 | one name per ScriptLog row, the i-th being the i-th row's ScriptName |
| MigrationSpec.PendingCount | Jamrozik.SqlForward/DatabaseMigration.cs:259 | never more than the number of files |
| MigrationSpec.UpTo | Jamrozik.SqlForward/DatabaseMigration.cs:276-279 | the files the loop visits are a prefix of the listing |
| MigrationSpec.ScriptsFolder | Jamrozik.SqlForward/DatabaseMigration.cs:325-333 | a folder not starting with '~' is used as given |
| MigrationSpec.ScriptsToExecute | Jamrozik.SqlForward/DatabaseMigration.cs:246-249 | fails with DirectoryNotFoundException exactly when the folder is missing; otherwise a sorted permutation of the matched files |
| MigrationSpec.BindAllStep | Jamrozik.SqlForward/DatabaseMigration.cs:355-358 | one more key of the parameter loop binds exactly one more parameter, at the end |
| Ordering.LessEqTotal | Jamrozik.SqlForward/DatabaseMigration.cs:248 | any two paths are comparable |
| Ordering.LessEqAntisymmetric | Jamrozik.SqlForward/DatabaseMigration.cs:248 | paths ordered both ways are equal |
| Ordering.LessEqTransitive | Jamrozik.SqlForward/DatabaseMigration.cs:248 | the order is transitive |
| Ordering.Insert | Jamrozik.SqlForward/DatabaseMigration.cs:248 | inserting into a sorted sequence keeps it sorted and adds exactly one copy of the element |
| Ordering.Sort | Jamrozik.SqlForward/DatabaseMigration.cs:248 | the result is sorted and a permutation of the input |
| Ordering.SortIsUnique | Jamrozik.SqlForward/DatabaseMigration.cs:248 | any sorted permutation of the listing is the sort's result: the run order depends only on which files exist |
| Paths.FileNameIsLastSegment | Jamrozik.SqlForward/DatabaseMigration.cs:266 | the file name is the longest separator-free tail of the path |
| Paths.LastDot | Jamrozik.SqlForward/DatabaseMigration.cs:344 | the index of the last '.', or -1 when there is none |
| Paths.FileNameWithoutExtensionIsPrefix | Jamrozik.SqlForward/DatabaseMigration.cs:344 | the name the success and failure notifications of ExecuteScriptInTransaction carry is the file name up to its last '.', or all of it without a '.' |
| Paths.CombineFileName | Jamrozik.SqlForward/DatabaseMigration.cs:222 | the initialization script's combined path keeps the configured file name |
| MigrationProperties.Succeeding | Jamrozik.SqlForward/DatabaseMigration.cs:264-280 | the first k candidates succeed and, when k is short of all, the k-th fails |
| MigrationProperties.OutcomeNotifications | Jamrozik.SqlForward/DatabaseMigration.cs:364-369 | the notification of a script that ran carries no exception; that of a script that threw carries one, and is the failure notification for its extension-less name exactly in Migrating |
| MigrationProperties.RunPendingEffects | Jamrozik.SqlForward/DatabaseMigration.cs:266-274 | one pending file: two notifications in the current stage; on failure its exception, nothing applied or recorded; on success applied, then recorded under its file name |
| MigrationProperties.RunAllError | Jamrozik.SqlForward/DatabaseMigration.cs:264-280 | the loop keeps its stage and throws exactly when a candidate fails, with the first failing candidate's exception |
| MigrationProperties.RunAllLog | Jamrozik.SqlForward/DatabaseMigration.cs:271-272 | the loop records exactly the candidates before the first failure, in candidate order |
| MigrationProperties.RunAllApplied | Jamrozik.SqlForward/DatabaseMigration.cs:271 | the loop applies exactly the candidates before the first failure, in order, with the script parameters; nothing after the failure runs |
| MigrationProperties.RunAllEvents | Jamrozik.SqlForward/DatabaseMigration.cs:268-271 | earlier notifications are kept and each script run adds two |
| MigrationProperties.RunAllStages | Jamrozik.SqlForward/DatabaseMigration.cs:262-271 | every notification the loop adds carries the loop's stage |
| MigrationProperties.RunAllFailureNotice | Jamrozik.SqlForward/DatabaseMigration.cs:367-373 | when a candidate fails, the loop's last notification is that candidate's failure |
| RunProperties.PendingCountIsPending | Jamrozik.SqlForward/DatabaseMigration.cs:259 | the reported pending count is the number of pending files |
| RunProperties.PendingFilesMembers | Jamrozik.SqlForward/DatabaseMigration.cs:264-267 | a file is pending exactly when it is listed and its file name is not among the executed names |
| RunProperties.PendingFilesSorted | Jamrozik.SqlForward/DatabaseMigration.cs:264-267 | filtering keeps the sorted order |
| RunProperties.UpToStops | Jamrozik.SqlForward/DatabaseMigration.cs:276-279 | iteration ends right after the first file named as the target, pending or not; without a target every file is visited |
| RunProperties.CandidatesSpec | Jamrozik.SqlForward/DatabaseMigration.cs:257-281 | the scripts the loop sets out to run are exactly the pending files up to the target, sorted, and no more than the reported count |
| RunProperties.PendingCountPrefix | Jamrozik.SqlForward/DatabaseMigration.cs:259 | a prefix of the listing has no more pending files than the listing |
| RunProperties.PendingCountAppend | Jamrozik.SqlForward/DatabaseMigration.cs:259 | the pending count of two listings together is the sum of their counts |
| RunProperties.PendingCountPermutation | Jamrozik.SqlForward/DatabaseMigration.cs:259 | the pending count does not depend on the order of the listing |
| RunProperties.PendingCountExtremes | Jamrozik.SqlForward/DatabaseMigration.cs:259 | no pending file gives 0; all pending gives the listing's length |
| RunProperties.BindAllResolves | Jamrozik.SqlForward/MigrationParameter.cs:57-60 | each bound value is the resolver applied to the script name and the parameter's own name, one binding per key, in key order |
| RunProperties.BindingsResolveWithScriptName | Jamrozik.SqlForward/DatabaseMigration.cs:353-359 | every parameter of a collection is bound once, in the order added, with its name, type and value for the script |
| RunProperties.LogRecordResolvesWithFileName | Jamrozik.SqlForward/DatabaseMigration.cs:287-301 | a ScriptLog row is filed under the file name with extension; @name comes first as a string, then every log parameter resolved with the same file name |
| RunProperties.ExecutedNamesAppend | Jamrozik.SqlForward/DatabaseMigration.cs:203-208 | the names read from a log grown by rows are the old names followed by the new rows' names |
| RunProperties.LogRecordsSpec | Jamrozik.SqlForward/DatabaseMigration.cs:272 | one row per run file, in order, each the row for the file's name |
| RunProperties.LogRecordsNames | Jamrozik.SqlForward/DatabaseMigration.cs:266-272 | the names read back from those rows are the files' names, in order |
| RunProperties.ApplicationsSpec | Jamrozik.SqlForward/DatabaseMigration.cs:271 | one application per run file, in order, each with the parameters resolved for its file name |
| SynchronizeProperties.SynchronizedViaLoop | Jamrozik.SqlForward/DatabaseMigration.cs:167-188 | with a succeeding initialization and an existing folder, the run is the loop over the sorted listing's candidates, then Finished when the loop does not throw |
| SynchronizeProperties.SynchronizeInitFails | Jamrozik.SqlForward/DatabaseMigration.cs:220-225 | a failing initialization script ends the run in Initializing with its exception; nothing recorded or applied; observers saw Started and the failure |
| SynchronizeProperties.SynchronizeFolderMissing | Jamrozik.SqlForward/DatabaseMigration.cs:246-249 | when the host reports the scripts folder missing but the initialization script still succeeded (for instance a rooted InitializationScript outside that folder, or an empty DatabaseScripts, where the script is read relative to the working directory), the run ends in Initializing with DirectoryNotFoundException; the initialization script took effect, nothing is recorded |
| SynchronizeProperties.SynchronizeFolderMissingFailsInit | Jamrozik.SqlForward/DatabaseMigration.cs:220-225 | with a relative InitializationScript and a host on which scripts of a missing folder cannot be read, a missing folder makes the initialization script throw: the run ends in Initializing with that exception, before listing; nothing applied or recorded |
| SynchronizeProperties.SynchronizeRun | Jamrozik.SqlForward/DatabaseMigration.cs:167-188 | the run applies and records exactly the sorted candidates before the first failure; it throws exactly when one fails, with its exception, and ends in Migrating then, otherwise in Finished |
| SynchronizeProperties.LoopEvents | Jamrozik.SqlForward/DatabaseMigration.cs:262-280 | two notifications per run script, all in the loop's stage, the last being the failing script's failure or Finished |
| SynchronizeProperties.SynchronizeEventsStart | Jamrozik.SqlForward/DatabaseMigration.cs:169-170 | observers see Started, the initialization's success and the pending count first, and in total three plus two per run script plus one or two |
| SynchronizeProperties.SynchronizeEventsEnd | Jamrozik.SqlForward/DatabaseMigration.cs:186 | the loop's notifications are all in Migrating, then a failure notification in Migrating for the failing script, or Finished |
| SynchronizeProperties.SuccessfulRunListed | Jamrozik.SqlForward/DatabaseMigration.cs:180-184 | a run that throws nothing had a succeeding initialization script and an existing folder |
| SynchronizeProperties.SuccessfulRunShape | Jamrozik.SqlForward/DatabaseMigration.cs:169-186 | a successful run's notifications carry Started, Initializing, CheckingPendingMigrations, Migrating any number of times, then Finished |
| SynchronizeProperties.StagesInOrder | Jamrozik.SqlForward/DatabaseMigrationEventArgs.cs:8-16 | notifications of that shape never carry an earlier stage after a later one |
| SynchronizeProperties.SuccessfulRunStagesInOrder | Jamrozik.SqlForward/DatabaseMigration.cs:169-186 | on a successful run the stages observers see never go back |
| SynchronizeProperties.LastNotificationCarriesStage | Jamrozik.SqlForward/DatabaseMigration.cs:234-239 | however a run ends, its last notification carries the stage the engine is left in |
| SynchronizeProperties.FailedRunNeverFinishes | Jamrozik.SqlForward/DatabaseMigration.cs:367-373 | a run that throws never reports Finished and does not end in Finished |
| SynchronizeProperties.FailedMigrationNeverFinishes | Jamrozik.SqlForward/DatabaseMigration.cs:262-280 | a run that throws in a migration ends in Migrating and never reports Finished |
| RerunProperties.NoTargetRun | Jamrozik.SqlForward/DatabaseMigration.cs:257-281 | a successful run without target runs and records exactly the pending files of the sorted listing |
| RerunProperties.RunRecordsPending | Jamrozik.SqlForward/DatabaseMigration.cs:259-274 | such a run adds one ScriptLog row per pending file |
| RerunProperties.RunRecordsEveryFile | Jamrozik.SqlForward/DatabaseMigration.cs:264-274 | after such a run every listed file's name is in ScriptLog |
| RerunProperties.RerunRecordsNothing | Jamrozik.SqlForward/DatabaseMigration.cs:259-274 | running again over the same folder succeeds, records nothing, and only the initialization script runs |
| RerunProperties.RerunRecordsNewFiles | Jamrozik.SqlForward.Test/DatabaseMigrationTest.cs:116-126 | after a successful run, a second run from any state sharing that database's log (such as a new engine in stage None with no notifications), with its own settings and another folder holding files named like the first folder's files plus files with new names, keeps the rows already there and adds as many rows as added files, each row under the name of an added file |

## Left out

- ADO.NET is not modelled: connections, `Open` and disposal, readers, commands and transactions. The database is the `Database` object. A transaction that commits takes effect; one that rolls back does not.
- Script contents (`File.ReadAllText`) and SQL semantics are not modelled. Whether a script throws is an oracle on its path, independent of the database state. With it go reading errors, resolver exceptions and exceptions thrown by observers.
- The oracle is tied to the folder listing only where a lemma asks for it (`Host.ReadsOnlyExistingFolders`: a script inside a missing folder cannot be read). Elsewhere a script in a missing folder may be modelled as succeeding.
- The `ScriptLogInsert` statement is not modelled. The default one is assumed to store `@name` as `ScriptName` and always succeed; a replaced statement is not modelled.
- Culture-aware comparison is not modelled: `OrderBy` uses the default string comparer, and the model sorts in ordinal (code-point) order.
- `Directory.GetFiles` with `"*.sql"` is the host's listing, so its pattern quirks (such as three-letter extension matching) are the host's.
- `HostingEnvironment.MapPath` is a host function; only the non-`~` branch is stated exactly.
- `Path.Combine`, `Path.GetFileName` and `Path.GetFileNameWithoutExtension` follow Windows separators. Invalid path characters are not modelled.
- `DateTime.Now`, `Stopwatch` and `Trace.WriteLine` are not modelled. Messages say what they report, not their text.
- `ConfigurationManager` defaults and `null` settings are not modelled: both settings are constructor arguments.
- MigrationSpec.ScriptsToExecute: every failure of `Directory.GetFiles` is modelled as `DirectoryNotFoundException` for the folder, because the host reports only whether a listing exists. The source throws other exceptions in some cases, and the model does not distinguish them:
  - `ArgumentException` for an empty or whitespace-only `DatabaseScripts`. For an empty one the initialization script is read relative to the working directory, so it can succeed before the listing fails.
  - `IOException` for a path that names a file.
  - `UnauthorizedAccessException` when access is denied.
- MigrationSpec.Host.ReadsOnlyExistingFolders leaves out the empty folder, because `Path.Combine("", name)` is `name`, read relative to the working directory.
- `null` parameter names are not modelled: names are strings, so the `ArgumentNullException` that `Dictionary.Add` throws for a `null` key cannot arise.
- `GetExecutedScripts` called outside `Synchronize`, where the connection is not set, is not modelled.
- The `Changed` event is modelled as the sequence of notifications raised. Subscribing and unsubscribing are left out.
- The public setters of `MigrationParameter` and the protected setters of the collection properties are never used by the core and are left out.
- Overriding the virtual `ExecuteScriptInTransaction` and the collection properties is left out.
- `Parameters.InsertedSpec`: the dictionary's enumeration order is modelled as insertion order, which holds for a dictionary that is only ever added to.
- RerunProperties.RerunRecordsNewFiles: the test's second folder adds two files; the lemma is stated for any number of added files whose names are new to the log.
