/**
 * The migration stage enumeration and the immutable notification record that the
 * engine hands to its `Changed` observers (DatabaseMigrationEventArgs.cs).
 */
module MigrationEvents {
  import opened Wrappers

  /** DatabaseMigrationStage, in declaration order (the C# enum's numeric values 0..5). */
  datatype Stage = None | Started | Initializing | CheckingPendingMigrations | Migrating | Finished

  /** The numeric value C# gives each member of the enum. */
  function Ordinal(s: Stage): (n: nat)
    ensures n < 6
  {
    match s
    case None => 0
    case Started => 1
    case Initializing => 2
    case CheckingPendingMigrations => 3
    case Migrating => 4
    case Finished => 5
  }

  /** The enum member with numeric value `n`; it is the only one with that value. */
  function StageOf(n: nat): (s: Stage)
    requires n < 6
    ensures Ordinal(s) == n
    ensures forall t: Stage :: Ordinal(t) == n <==> t == s
  {
    if n == 0 then Stage.None
    else if n == 1 then Started
    else if n == 2 then Initializing
    else if n == 3 then CheckingPendingMigrations
    else if n == 4 then Migrating
    else Finished
  }

  /** `default(DatabaseMigrationStage)`: the member whose value is 0. */
  function DefaultStage(): (s: Stage)
    ensures Ordinal(s) == 0
  {
    Stage.None
  }

  /**
   * A failure raised by a script: an I/O error reading its text or an error the
   * database reports while running it. The engine only passes it on.
   */
  datatype ScriptError = ScriptError(code: int)

  /** The exceptions the engine throws or propagates. */
  datatype Exception =
    | ArgumentNullException(paramName: string)
    | ArgumentException(key: string)
    | DirectoryNotFoundException(path: string)
    | ScriptFailure(error: ScriptError)

  /**
   * What a notification's message reports. The text the source builds around these
   * values (the current time, the elapsed time) is not modelled.
   */
  datatype Message =
    | StartedMessage(target: Option<string>)
    | PendingMessage(pending: nat, all: nat, executed: nat)
    | StartingMessage(position: nat, pending: nat, fileName: string)
    | ExecutedMessage(migration: string)
    | ErrorMessage(migration: string)
    | FinishedMessage

  /**
   * DatabaseMigrationEventArgs: every field is given once, at construction, and a
   * datatype value cannot be changed afterwards (the source's setters are private).
   */
  datatype MigrationEvent = MigrationEvent(
    currentStage: Stage,
    currentMigration: Option<string>,
    message: Message,
    exception: Option<Exception>)

  /** The notification observers see when the migration named `migration` fails. */
  predicate IsFailureEvent(e: MigrationEvent, migration: string)
  {
    e.currentStage == Migrating && e.currentMigration == Some(migration) && e.exception.Some?
  }

  /** A notification that reports no failure. */
  predicate IsSuccessEvent(e: MigrationEvent)
  {
    e.exception.None?
  }
}
