/**
 * What one run of DatabaseMigration does, as functions over an abstract view of
 * the engine and its database (DatabaseMigration.cs). The class in
 * database_migration.dfy is proved to change its state exactly as these say.
 */
module MigrationSpec {
  import opened Wrappers
  import opened MigrationEvents
  import opened Paths
  import opened Ordering
  import opened Parameters

  /** One parameter added to a command: its name, type and resolved value. */
  datatype Binding = Binding(name: string, databaseType: DbType, value: DbValue)

  /** A script whose transaction committed: its path and the parameters bound to it. */
  datatype Application = Application(script: string, bindings: seq<Binding>)

  /**
   * A row of the ScriptLog table: the ScriptName column (filled from @name by the
   * default insert statement) and the parameters the insert command carried.
   */
  datatype LogRecord = LogRecord(scriptName: string, bindings: seq<Binding>)

  /**
   * What a run can change: the engine's current stage, the notifications delivered
   * to `Changed` observers, the ScriptLog rows, and the scripts that took effect.
   */
  datatype World = World(stage: Stage, events: seq<MigrationEvent>, log: seq<LogRecord>, applied: seq<Application>)

  /** Whether running a script fails, by its full path: `Some` carries the exception raised. */
  type Oracle = string -> Option<ScriptError>

  /**
   * The engine's surroundings: Directory.GetFiles(folder, "*.sql") (`None` when the
   * folder does not exist; every other listing failure is treated the same way),
   * HostingEnvironment.MapPath, and the script oracle.
   */
  datatype Host = Host(listSql: string -> Option<seq<string>>, mapPath: string -> string, fails: Oracle)
  {
    /**
     * A script named by a relative name inside a folder that does not exist cannot
     * be read, so running it throws. The oracle is not otherwise tied to the listing.
     */
    ghost predicate ReadsOnlyExistingFolders()
    {
      forall folder: string, name: string {:trigger Combine(folder, name)} ::
        listSql(folder).None? && folder != [] && name != [] && !IsRooted(name) ==> fails(Combine(folder, name)).Some?
    }
  }

  /** The engine's configuration: DatabaseScripts, InitializationScript and both parameter collections. */
  datatype Settings = Settings(
    databaseScripts: string,
    initializationScript: string,
    scriptParameters: ParameterMap,
    scriptLogParameters: ParameterMap)

  /** The outcome of a step: the new world and the exception it throws, if any. */
  datatype Outcome = Outcome(world: World, error: Option<Exception>)

  /** Log: set the stage, then notify the observers with an event carrying that stage. */
  function Logged(w: World, stage: Stage, message: Message, migration: Option<string>, ex: Option<Exception>): World
  {
    w.(stage := stage, events := w.events + [MigrationEvent(stage, migration, message, ex)])
  }

  /** The command parameter `p` becomes for the script named `scriptName`. */
  function Bind(p: MigrationParameter, scriptName: string): Binding
  {
    Binding(p.name, p.databaseType, p.Value(scriptName))
  }

  /** foreach parameter in the collection, in `keys` order: the bindings added to a command. */
  function BindAll(m: ParameterMap, keys: seq<string>, scriptName: string): seq<Binding>
  {
    if keys == [] then []
    else
      var last := keys[|keys| - 1];
      BindAll(m, keys[..|keys| - 1], scriptName) + (if last in m.entries then [Bind(m.entries[last], scriptName)] else [])
  }

  /** One more key of the foreach loop over the collection binds one more parameter. */
  lemma BindAllStep(m: ParameterMap, keys: seq<string>, i: nat, scriptName: string)
    requires i < |keys| && keys[i] in m.entries
    ensures BindAll(m, keys[..i + 1], scriptName) == BindAll(m, keys[..i], scriptName) + [Bind(m.entries[keys[i]], scriptName)]
  {
    assert keys[..i + 1][..i] == keys[..i];
  }

  /** Every parameter of a collection, resolved for the script named `scriptName`. */
  function Bindings(m: ParameterMap, scriptName: string): seq<Binding>
  {
    BindAll(m, m.order, scriptName)
  }

  /** The row RecordMigrationExecuted inserts: @name first, then every log parameter, all for `fileName`. */
  function LogRecordFor(fileName: string, logParameters: ParameterMap): LogRecord
  {
    LogRecord(fileName, [Binding("name", StringType, Text(fileName))] + Bindings(logParameters, fileName))
  }

  /** RecordMigrationExecuted. */
  function Recorded(w: World, fileName: string, logParameters: ParameterMap): World
  {
    w.(log := w.log + [LogRecordFor(fileName, logParameters)])
  }

  /**
   * ExecuteScriptInTransaction: bind the parameters resolved with the script's file
   * name and run it; on success commit and notify; on failure notify with the
   * exception, roll back (nothing takes effect) and rethrow. Either notification names
   * the script without its extension and carries the current stage.
   */
  function Executed(w: World, script: string, parameters: ParameterMap, fails: Oracle): Outcome
  {
    var migration := FileNameWithoutExtension(script);
    match fails(script)
    case Some(e) =>
      Outcome(Logged(w, w.stage, ErrorMessage(migration), Some(migration), Some(ScriptFailure(e))), Some(ScriptFailure(e)))
    case None =>
      var committed := w.(applied := w.applied + [Application(script, Bindings(parameters, FileName(script)))]);
      Outcome(Logged(committed, w.stage, ExecutedMessage(migration), Some(migration), Option.None), Option.None)
  }

  /** The names GetExecutedScripts reads from ScriptLog, in row order. */
  function ExecutedNames(log: seq<LogRecord>): (names: seq<string>)
    ensures |names| == |log|
    ensures forall i :: 0 <= i < |log| ==> names[i] == log[i].scriptName
  {
    if log == [] then []
    else ExecutedNames(log[..|log| - 1]) + [log[|log| - 1].scriptName]
  }

  /** A discovered file is pending when its file name is not among the executed names. */
  predicate IsPending(file: string, executed: seq<string>)
  {
    FileName(file) !in executed
  }

  /** The number of discovered files that are pending, as IterateMigrations reports it. */
  function PendingCount(files: seq<string>, executed: seq<string>): (n: nat)
    ensures n <= |files|
  {
    if files == [] then 0
    else (if IsPending(files[0], executed) then 1 else 0) + PendingCount(files[1..], executed)
  }

  /**
   * The body of the foreach loop for a pending file: announce it as the
   * `count + 1`-th of `pending`, execute it with the script parameters, and record
   * it when that succeeded.
   */
  function RunPending(w: World, file: string, s: Settings, fails: Oracle, pending: nat, count: nat): Outcome
  {
    var fileName := FileName(file);
    var announced := Logged(w, w.stage, StartingMessage(count + 1, pending, fileName), Some(fileName), Option.None);
    var o := Executed(announced, file, s.scriptParameters, fails);
    if o.error.Some? then o
    else Outcome(Recorded(o.world, fileName, s.scriptLogParameters), Option.None)
  }

  /** The discovered files whose name is not among the executed names, in their order. */
  function PendingFiles(files: seq<string>, executed: seq<string>): (p: seq<string>)
    ensures |p| <= |files|
  {
    if files == [] then []
    else (if IsPending(files[0], executed) then [files[0]] else []) + PendingFiles(files[1..], executed)
  }

  /** The files up to and including the first one named `target` (all of them without a target or a match). */
  function UpTo(files: seq<string>, target: Option<string>): (u: seq<string>)
    ensures u <= files
  {
    if files == [] then []
    else if target == Some(FileName(files[0])) then [files[0]]
    else [files[0]] + UpTo(files[1..], target)
  }

  /**
   * The scripts the foreach loop of IterateMigrations sets out to run, in order: the
   * pending files, up to the break after the file named `target`.
   */
  function Candidates(files: seq<string>, executed: seq<string>, target: Option<string>): seq<string>
  {
    PendingFiles(UpTo(files, target), executed)
  }

  /** The loop over the candidates `c`, `count` scripts having run already: run each until one fails. */
  function RunAll(w: World, c: seq<string>, s: Settings, fails: Oracle, pending: nat, count: nat): Outcome
    decreases |c|
  {
    if c == [] then Outcome(w, Option.None)
    else
      var o := RunPending(w, c[0], s, fails, pending, count);
      if o.error.Some? then o else RunAll(o.world, c[1..], s, fails, pending, count + 1)
  }

  /** IterateMigrations: report the pending count, enter Migrating, then run the loop. */
  function Iterated(w: World, target: Option<string>, executed: seq<string>, files: seq<string>,
                    s: Settings, fails: Oracle): Outcome
  {
    var pending := PendingCount(files, executed);
    var checked := Logged(w, CheckingPendingMigrations, PendingMessage(pending, |files|, |executed|), Option.None, Option.None);
    RunAll(checked.(stage := Migrating), Candidates(files, executed, target), s, fails, pending, 0)
  }

  /** GetScriptsFolder: DatabaseScripts, mapped by the host when it starts with '~'. */
  function ScriptsFolder(databaseScripts: string, host: Host): (folder: string)
    ensures !IsVirtual(databaseScripts) ==> folder == databaseScripts
  {
    if IsVirtual(databaseScripts) then host.mapPath(databaseScripts) else databaseScripts
  }

  /** GetScriptsToExecute: every *.sql file of the folder, sorted ascending by full path; a folder that cannot be listed gives DirectoryNotFoundException. */
  function ScriptsToExecute(folder: string, host: Host): (r: Result<seq<string>, Exception>)
    ensures r.Failure? <==> host.listSql(folder).None?
    ensures r.Failure? ==> r.error == DirectoryNotFoundException(folder)
    ensures r.Success? ==> Sorted(r.value) && multiset(r.value) == multiset(host.listSql(folder).value)
  {
    match host.listSql(folder)
    case None => Failure(DirectoryNotFoundException(folder))
    case Some(files) => Success(Sort(files))
  }

  /** The path of the initialization script: InitializationScript inside the scripts folder. */
  function InitializationPath(s: Settings, host: Host): string
  {
    Combine(ScriptsFolder(s.databaseScripts, host), s.initializationScript)
  }

  /** InitializeScriptLogTable: enter Initializing and run the initialization script with the log parameters. */
  function Initialized(w: World, s: Settings, host: Host): Outcome
  {
    Executed(w.(stage := Initializing), InitializationPath(s, host), s.scriptLogParameters, host.fails)
  }

  /**
   * Synchronize(specificMigration): Started, initialization, read the log, list and
   * sort the scripts, iterate, and Finished only when nothing threw.
   */
  function Synchronized(w: World, target: Option<string>, s: Settings, host: Host): Outcome
  {
    var started := Logged(w, Started, StartedMessage(target), Option.None, Option.None);
    var init := Initialized(started, s, host);
    if init.error.Some? then init
    else
      var executed := ExecutedNames(init.world.log);
      match ScriptsToExecute(ScriptsFolder(s.databaseScripts, host), host)
      case Failure(e) => Outcome(init.world, Some(e))
      case Success(files) =>
        var run := Iterated(init.world, target, executed, files, s, host.fails);
        if run.error.Some? then run
        else Outcome(Logged(run.world, Finished, FinishedMessage, Option.None, Option.None), Option.None)
  }
}
