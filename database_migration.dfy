/**
 * The DatabaseMigration engine (DatabaseMigration.cs) as a class whose stage and
 * delivered notifications change in place, over the database its connection
 * reaches. Every state-changing method is proved to change that state exactly as
 * the matching function of MigrationSpec says.
 */
module Engine {
  import opened Wrappers
  import opened MigrationEvents
  import opened Paths
  import opened Parameters
  import opened MigrationSpec
  import opened MigrationProperties

  /** The database the connection factory connects to: its ScriptLog rows and the scripts that took effect in it. */
  class Database {
    var log: seq<LogRecord>
    var applied: seq<Application>

    constructor (log: seq<LogRecord>, applied: seq<Application>)
      ensures this.log == log && this.applied == applied
    {
      this.log := log;
      this.applied := applied;
    }
  }

  /** Func<IDbConnection>: every connection it makes reaches the same database. */
  datatype ConnectionFactory = ConnectionFactory(database: Database)

  /** An IDbCommand being prepared: the parameters added to it so far. */
  class Command {
    var parameters: seq<Binding>

    constructor ()
      ensures parameters == []
    {
      parameters := [];
    }
  }

  /** AddParameterToCommand: creates a parameter with the given name, type and value and adds it to the command. */
  method AddParameterToCommand(command: Command, databaseType: DbType, name: string, value: DbValue) returns (parameter: Binding)
    modifies command
    ensures parameter == Binding(name, databaseType, value)
    ensures command.parameters == old(command.parameters) + [parameter]
  {
    parameter := Binding(name, databaseType, value);
    command.parameters := command.parameters + [parameter];
  }

  /**
   * AddCollectionToCommand: when the collection is not empty, adds each of its
   * parameters to the command, in the order they were added, resolved for `scriptName`.
   */
  method AddCollectionToCommand(command: Command, collection: MigrationParameterColletion, scriptName: string)
    requires collection.Valid()
    modifies command
    ensures command.parameters == old(command.parameters) + Bindings(collection.Contents(), scriptName)
  {
    ghost var m := collection.Contents();
    if collection.Count() > 0 {
      var i := 0;
      while i < |collection.order|
        invariant 0 <= i <= |m.order| && m == collection.Contents()
        invariant command.parameters == old(command.parameters) + BindAll(m, m.order[..i], scriptName)
      {
        var key := collection.order[i];
        var p := collection.entries[key];
        BindAllStep(m, m.order, i, scriptName);
        var _ := AddParameterToCommand(command, p.databaseType, p.name, p.Value(scriptName));
        i := i + 1;
      }
      assert m.order[..i] == m.order;
    }
  }

  /**
   * `new DatabaseMigration(connectionFactory)`: a missing factory throws
   * ArgumentNullException; otherwise a migrator in stage None, with two new, separate
   * and empty parameter collections and the two settings as read from the configuration.
   */
  method NewDatabaseMigration(factory: Option<ConnectionFactory>, databaseScripts: string, initializationScript: string)
    returns (r: Result<DatabaseMigration, Exception>)
    ensures r.Failure? <==> factory.None?
    ensures r.Failure? ==> r.error == ArgumentNullException("No connection factory provided")
    ensures r.Success? ==>
      && fresh(r.value)
      && fresh(r.value.scriptParameters) && fresh(r.value.scriptLogParameters)
      && r.value.scriptParameters != r.value.scriptLogParameters
      && r.value.connectionFactory == factory.value
      && r.value.Valid()
      && r.value.stage == Stage.None && r.value.events == []
      && r.value.Settings() == MigrationSpec.Settings(databaseScripts, initializationScript, Empty, Empty)
  {
    match factory
    case None =>
      r := Failure(ArgumentNullException("No connection factory provided"));
    case Some(f) =>
      var m := new DatabaseMigration(f, databaseScripts, initializationScript);
      r := Success(m);
  }

  /** DatabaseMigration: runs the pending scripts of a folder against a database, in file-name order, once each. */
  class DatabaseMigration {
    const connectionFactory: ConnectionFactory
    /** DatabaseScripts: the scripts folder, '~' meaning the web application's root. */
    var databaseScripts: string
    /** InitializationScript: the file name, inside the scripts folder, of the script that prepares ScriptLog. */
    var initializationScript: string
    /** CurrentDatabaseMigrationStage. */
    var stage: Stage
    /** Every notification raised through the Changed event so far. */
    var events: seq<MigrationEvent>
    const scriptParameters: MigrationParameterColletion
    const scriptLogParameters: MigrationParameterColletion

    ghost predicate Valid()
      reads this, scriptParameters, scriptLogParameters
    {
      scriptParameters.Valid() && scriptLogParameters.Valid()
    }

    /** The state a run changes. */
    function Snapshot(): World
      reads this, connectionFactory.database
    {
      World(stage, events, connectionFactory.database.log, connectionFactory.database.applied)
    }

    /** The configuration a run reads. */
    function Settings(): MigrationSpec.Settings
      reads this, scriptParameters, scriptLogParameters
    {
      MigrationSpec.Settings(databaseScripts, initializationScript, scriptParameters.Contents(), scriptLogParameters.Contents())
    }

    /** The constructor, once the factory is known to be present. */
    constructor (connectionFactory: ConnectionFactory, databaseScripts: string, initializationScript: string)
      ensures this.connectionFactory == connectionFactory
      ensures Valid()
      ensures fresh(scriptParameters) && fresh(scriptLogParameters)
      ensures scriptParameters != scriptLogParameters
      ensures stage == Stage.None && events == []
      ensures Settings() == MigrationSpec.Settings(databaseScripts, initializationScript, Empty, Empty)
    {
      this.connectionFactory := connectionFactory;
      this.databaseScripts := databaseScripts;
      this.initializationScript := initializationScript;
      stage := DefaultStage();
      events := [];
      scriptParameters := new MigrationParameterColletion();
      scriptLogParameters := new MigrationParameterColletion();
    }

    /** Log: enters `stage` and notifies the observers with an event carrying it. */
    method Log(stage: Stage, message: Message, migration: Option<string>, ex: Option<Exception>)
      modifies this`stage, this`events
      ensures Snapshot() == Logged(old(Snapshot()), stage, message, migration, ex)
    {
      this.stage := stage;
      events := events + [MigrationEvent(this.stage, migration, message, ex)];
    }

    /**
     * ExecuteScriptInTransaction: binds the collection's parameters, resolved for the
     * script's file name, and runs the script; it takes effect and is reported only
     * when it succeeds, and a failure is reported, rolled back and rethrown.
     */
    method ExecuteScriptInTransaction(script: string, parameterCollection: MigrationParameterColletion, host: Host)
      returns (err: Option<Exception>)
      requires parameterCollection.Valid()
      modifies this`stage, this`events, connectionFactory.database
      ensures Snapshot() == Executed(old(Snapshot()), script, parameterCollection.Contents(), host.fails).world
      ensures err == Executed(old(Snapshot()), script, parameterCollection.Contents(), host.fails).error
    {
      var database := connectionFactory.database;
      var migrationName := FileNameWithoutExtension(script);
      var command := new Command();
      AddCollectionToCommand(command, parameterCollection, FileName(script));
      assert command.parameters == Bindings(parameterCollection.Contents(), FileName(script));
      match host.fails(script)
      case Some(e) =>
        Log(stage, ErrorMessage(migrationName), Some(migrationName), Some(ScriptFailure(e)));
        err := Some(ScriptFailure(e));
      case None =>
        database.applied := database.applied + [Application(script, command.parameters)];
        Log(stage, ExecutedMessage(migrationName), Some(migrationName), Option.None);
        err := Option.None;
    }

    /** RecordMigrationExecuted: inserts the ScriptLog row for `fileName`, with @name and every log parameter. */
    method RecordMigrationExecuted(fileName: string)
      requires Valid()
      modifies connectionFactory.database
      ensures Valid()
      ensures Snapshot() == Recorded(old(Snapshot()), fileName, scriptLogParameters.Contents())
    {
      var database := connectionFactory.database;
      var command := new Command();
      var _ := AddParameterToCommand(command, StringType, "name", Text(fileName));
      AddCollectionToCommand(command, scriptLogParameters, fileName);
      assert command.parameters == LogRecordFor(fileName, scriptLogParameters.Contents()).bindings;
      database.log := database.log + [LogRecord(fileName, command.parameters)];
    }

    /** GetExecutedScripts: the ScriptName of every ScriptLog row, in row order. */
    method GetExecutedScripts() returns (names: seq<string>)
      ensures names == ExecutedNames(connectionFactory.database.log)
    {
      var rows := connectionFactory.database.log;
      names := [];
      var i := 0;
      while i < |rows|
        invariant 0 <= i <= |rows|
        invariant names == ExecutedNames(rows[..i])
      {
        assert rows[..i + 1][..i] == rows[..i];
        names := names + [rows[i].scriptName];
        i := i + 1;
      }
      assert rows[..i] == rows;
    }

    /** InitializeScriptLogTable: enters Initializing and runs the initialization script with the log parameters. */
    method InitializeScriptLogTable(scriptsFolder: string, host: Host) returns (err: Option<Exception>)
      requires Valid()
      requires scriptsFolder == ScriptsFolder(databaseScripts, host)
      modifies this`stage, this`events, connectionFactory.database
      ensures Valid()
      ensures Snapshot() == Initialized(old(Snapshot()), Settings(), host).world
      ensures err == Initialized(old(Snapshot()), Settings(), host).error
    {
      var scriptLogCreation := Combine(scriptsFolder, initializationScript);
      stage := Initializing;
      err := ExecuteScriptInTransaction(scriptLogCreation, scriptLogParameters, host);
    }

    /**
     * The body of the foreach loop for a pending file: announces it as the
     * `count + 1`-th of `pending`, executes it with the script parameters, and
     * records it in ScriptLog when that succeeded.
     */
    method MigrateFile(file: string, pending: nat, count: nat, host: Host) returns (err: Option<Exception>)
      requires Valid()
      modifies this`stage, this`events, connectionFactory.database
      ensures Valid()
      ensures Snapshot() == RunPending(old(Snapshot()), file, Settings(), host.fails, pending, count).world
      ensures err == RunPending(old(Snapshot()), file, Settings(), host.fails, pending, count).error
    {
      var fileName := FileName(file);
      Log(stage, StartingMessage(count + 1, pending, fileName), Some(fileName), Option.None);
      err := ExecuteScriptInTransaction(file, scriptParameters, host);
      if err.Some? {
        return;
      }
      RecordMigrationExecuted(fileName);
    }

    /**
     * IterateMigrations: reports the pending count, enters Migrating, then runs each
     * pending file in order (announce, execute, record) until one fails or the file
     * named `target` has been passed.
     */
    method IterateMigrations(target: Option<string>, executed: seq<string>, files: seq<string>, host: Host)
      returns (err: Option<Exception>)
      requires Valid()
      modifies this`stage, this`events, connectionFactory.database
      ensures Valid()
      ensures Snapshot() == Iterated(old(Snapshot()), target, executed, files, Settings(), host.fails).world
      ensures err == Iterated(old(Snapshot()), target, executed, files, Settings(), host.fails).error
    {
      var pending := PendingCount(files, executed);
      Log(CheckingPendingMigrations, PendingMessage(pending, |files|, |executed|), Option.None, Option.None);
      stage := Migrating;
      ghost var settings := Settings();
      ghost var goal := RunAll(Snapshot(), Candidates(files, executed, target), settings, host.fails, pending, 0);
      var count := 0;
      var i := 0;
      ghost var candidates := Candidates(files, executed, target);
      assert files[0..] == files;
      while i < |files|
        invariant 0 <= i <= |files|
        invariant Valid() && Settings() == settings
        invariant candidates == Candidates(files[i..], executed, target)
        invariant RunAll(Snapshot(), candidates, settings, host.fails, pending, count) == goal
      {
        var file := files[i];
        var fileName := FileName(file);
        ghost var before := Snapshot();
        ghost var rest := Candidates(files[i + 1..], executed, target);
        assert files[i..][0] == file && files[i..][1..] == files[i + 1..];
        if fileName !in executed {
          RunAllPendingCons(before, files[i..], executed, target, settings, host.fails, pending, count);
          err := MigrateFile(file, pending, count, host);
          if err.Some? {
            return;
          }
          count := count + 1;
        } else {
          RunAllSkippedCons(before, files[i..], executed, target, settings, host.fails, pending, count);
        }
        if target.Some? && fileName == target.value {
          err := Option.None;
          return;
        }
        assert RunAll(Snapshot(), rest, settings, host.fails, pending, count) == goal;
        candidates := rest;
        i := i + 1;
      }
      err := Option.None;
    }

    /**
     * Synchronize(specificMigration): Started; initialization; the executed names and
     * the sorted scripts of the folder; the iteration; Finished when nothing threw.
     * Whatever throws ends the run with that exception.
     */
    method Synchronize(target: Option<string>, host: Host) returns (err: Option<Exception>)
      requires Valid()
      modifies this`stage, this`events, connectionFactory.database
      ensures Valid()
      ensures Snapshot() == Synchronized(old(Snapshot()), target, Settings(), host).world
      ensures err == Synchronized(old(Snapshot()), target, Settings(), host).error
    {
      Log(Started, StartedMessage(target), Option.None, Option.None);
      var scriptsFolder := ScriptsFolder(databaseScripts, host);
      err := InitializeScriptLogTable(scriptsFolder, host);
      if err.Some? {
        return;
      }
      var executed := GetExecutedScripts();
      var files := ScriptsToExecute(scriptsFolder, host);
      if files.Failure? {
        err := Some(files.error);
        return;
      }
      err := IterateMigrations(target, executed, files.value, host);
      if err.Some? {
        return;
      }
      Log(Finished, FinishedMessage, Option.None, Option.None);
    }

    /** Synchronize(): all pending migrations, with no target. */
    method SynchronizeAll(host: Host) returns (err: Option<Exception>)
      requires Valid()
      modifies this`stage, this`events, connectionFactory.database
      ensures Valid()
      ensures Snapshot() == Synchronized(old(Snapshot()), Option.None, Settings(), host).world
      ensures err == Synchronized(old(Snapshot()), Option.None, Settings(), host).error
    {
      err := Synchronize(Option.None, host);
    }
  }
}
