/**
 * What one call of Synchronize promises (DatabaseMigration.cs:167-188), proved
 * about MigrationSpec.Synchronized: how each exception ends a run, what is
 * recorded and applied, and the stages observers see.
 */
module SynchronizeProperties {
  import opened Wrappers
  import opened MigrationEvents
  import opened Paths
  import opened Ordering
  import opened Parameters
  import opened MigrationSpec
  import opened MigrationProperties
  import opened RunProperties

  /** The notification a run starts with. */
  function StartedEvent(target: Option<string>): MigrationEvent
  {
    MigrationEvent(Started, Option.None, StartedMessage(target), Option.None)
  }

  /** The notification reporting how many of the discovered files are pending. */
  function PendingEvent(files: seq<string>, executed: seq<string>): MigrationEvent
  {
    MigrationEvent(CheckingPendingMigrations, Option.None, PendingMessage(PendingCount(files, executed), |files|, |executed|), Option.None)
  }

  /** The notification a successful run ends with. */
  function FinishedEvent(): MigrationEvent
  {
    MigrationEvent(Finished, Option.None, FinishedMessage, Option.None)
  }

  /** The initialization script taking effect, with the log parameters resolved for its file name. */
  function InitApplication(s: Settings, host: Host): Application
  {
    var p := InitializationPath(s, host);
    Application(p, Bindings(s.scriptLogParameters, FileName(p)))
  }

  /** The world when the foreach loop starts, for a run whose initialization succeeded over the sorted listing `files`. */
  function LoopStart(w: World, target: Option<string>, s: Settings, host: Host, files: seq<string>): World
  {
    var p := InitializationPath(s, host);
    var executed := ExecutedNames(w.log);
    World(Migrating,
          w.events + [StartedEvent(target), SuccessEvent(Initializing, p), PendingEvent(files, executed)],
          w.log,
          w.applied + [InitApplication(s, host)])
  }

  /**
   * A run whose initialization succeeds and whose folder exists is the loop over
   * the candidates of the sorted listing, started from LoopStart, followed by
   * Finished when the loop does not throw.
   */
  lemma SynchronizedViaLoop(w: World, target: Option<string>, s: Settings, host: Host, listing: seq<string>)
    requires host.fails(InitializationPath(s, host)).None?
    requires host.listSql(ScriptsFolder(s.databaseScripts, host)) == Some(listing)
    ensures
      var files := Sort(listing);
      var run := RunAll(LoopStart(w, target, s, host, files), Candidates(files, ExecutedNames(w.log), target),
                        s, host.fails, PendingCount(files, ExecutedNames(w.log)), 0);
      Synchronized(w, target, s, host) ==
        if run.error.Some? then run
        else Outcome(Logged(run.world, Finished, FinishedMessage, Option.None, Option.None), Option.None)
  {
    var started := Logged(w, Started, StartedMessage(target), Option.None, Option.None);
    var init := Initialized(started, s, host);
    assert init.error.None?;
    assert init.world.log == w.log;
    var files := Sort(listing);
    assert ScriptsToExecute(ScriptsFolder(s.databaseScripts, host), host) == Success(files);
    var executed := ExecutedNames(w.log);
    var checked := Logged(init.world, CheckingPendingMigrations, PendingMessage(PendingCount(files, executed), |files|, |executed|), Option.None, Option.None);
    assert checked.(stage := Migrating) == LoopStart(w, target, s, host, files);
  }

  /**
   * A failing initialization script ends the run in Initializing with its
   * exception: nothing is recorded or applied, and observers saw Started and the
   * initialization failure.
   */
  lemma SynchronizeInitFails(w: World, target: Option<string>, s: Settings, host: Host)
    requires host.fails(InitializationPath(s, host)).Some?
    ensures
      var o, p := Synchronized(w, target, s, host), InitializationPath(s, host);
      var e := host.fails(p).value;
      && o.error == Some(ScriptFailure(e))
      && o.world.stage == Initializing
      && o.world.log == w.log
      && o.world.applied == w.applied
      && o.world.events == w.events + [StartedEvent(target), FailureEvent(Initializing, p, e)]
  {
    var started := Logged(w, Started, StartedMessage(target), Option.None, Option.None);
    assert started.events == w.events + [StartedEvent(target)];
  }

  /**
   * A scripts folder that does not exist, when the initialization script still
   * succeeded (it is named by a rooted path outside that folder), ends the run in
   * Initializing with DirectoryNotFoundException; nothing is recorded.
   */
  lemma SynchronizeFolderMissing(w: World, target: Option<string>, s: Settings, host: Host)
    requires host.fails(InitializationPath(s, host)).None?
    requires host.listSql(ScriptsFolder(s.databaseScripts, host)).None?
    ensures
      var o, p := Synchronized(w, target, s, host), InitializationPath(s, host);
      && o.error == Some(DirectoryNotFoundException(ScriptsFolder(s.databaseScripts, host)))
      && o.world.stage == Initializing
      && o.world.log == w.log
      && o.world.applied == w.applied + [InitApplication(s, host)]
      && o.world.events == w.events + [StartedEvent(target), SuccessEvent(Initializing, p)]
  {
    var started := Logged(w, Started, StartedMessage(target), Option.None, Option.None);
    assert started.events == w.events + [StartedEvent(target)];
  }

  /**
   * With the usual relative InitializationScript, a scripts folder that does not
   * exist makes the initialization script unreadable: the run ends in Initializing
   * with that script's exception before the folder is listed, and nothing is applied
   * or recorded.
   */
  lemma SynchronizeFolderMissingFailsInit(w: World, target: Option<string>, s: Settings, host: Host)
    requires host.ReadsOnlyExistingFolders()
    requires host.listSql(ScriptsFolder(s.databaseScripts, host)).None?
    requires ScriptsFolder(s.databaseScripts, host) != []
    requires s.initializationScript != [] && !IsRooted(s.initializationScript)
    ensures
      var o, p := Synchronized(w, target, s, host), InitializationPath(s, host);
      && host.fails(p).Some?
      && o.error == Some(ScriptFailure(host.fails(p).value))
      && o.world.stage == Initializing
      && o.world.log == w.log
      && o.world.applied == w.applied
  {
    var folder := ScriptsFolder(s.databaseScripts, host);
    assert host.fails(Combine(folder, s.initializationScript)).Some?;
    SynchronizeInitFails(w, target, s, host);
  }

  /**
   * A run over an existing folder runs the pending files up to the target, in
   * sorted order, until one fails. Exactly the candidates before the failing one
   * are applied and recorded, in that order; a failure is rethrown and leaves the
   * stage at Migrating, and a run without one ends in Finished.
   */
  lemma SynchronizeRun(w: World, target: Option<string>, s: Settings, host: Host, listing: seq<string>)
    requires host.fails(InitializationPath(s, host)).None?
    requires host.listSql(ScriptsFolder(s.databaseScripts, host)) == Some(listing)
    ensures
      var o := Synchronized(w, target, s, host);
      var files, executed := Sort(listing), ExecutedNames(w.log);
      var c := Candidates(files, executed, target);
      var k := Succeeding(c, host.fails);
      && Sorted(c)
      && (forall f :: f in c <==> f in UpTo(files, target) && IsPending(f, executed))
      && (o.error.Some? <==> k < |c|)
      && (k < |c| ==> o.error == Some(ScriptFailure(host.fails(c[k]).value)))
      && o.world.stage == (if k < |c| then Migrating else Finished)
      && o.world.log == w.log + LogRecords(c[..k], s.scriptLogParameters)
      && o.world.applied == w.applied + [InitApplication(s, host)] + Applications(c[..k], s.scriptParameters)
  {
    var files, executed := Sort(listing), ExecutedNames(w.log);
    var c := Candidates(files, executed, target);
    var w0 := LoopStart(w, target, s, host, files);
    var pending := PendingCount(files, executed);
    SynchronizedViaLoop(w, target, s, host, listing);
    CandidatesSpec(files, executed, target);
    RunAllError(w0, c, s, host.fails, pending, 0);
    RunAllLog(w0, c, s, host.fails, pending, 0);
    RunAllApplied(w0, c, s, host.fails, pending, 0);
  }

  /**
   * The notifications of the loop started from `w0`, followed by Finished when it
   * does not throw: two per script run, all in the loop's stage, and last either
   * the failure of the script that threw or Finished.
   */
  lemma LoopEvents(w0: World, c: seq<string>, s: Settings, fails: Oracle, pending: nat, o: Outcome)
    requires
      var run := RunAll(w0, c, s, fails, pending, 0);
      o == if run.error.Some? then run else Outcome(Logged(run.world, Finished, FinishedMessage, Option.None, Option.None), Option.None)
    ensures
      var ev, n, k := o.world.events, |w0.events|, Succeeding(c, fails);
      && (o.error.Some? <==> k < |c|)
      && |ev| == n + 2 * k + (if k < |c| then 2 else 1)
      && ev[..n] == w0.events
      && AllInStage(ev[n..|ev| - 1], w0.stage)
      && (k < |c| ==> ev[|ev| - 1] == FailureEvent(w0.stage, c[k], fails(c[k]).value))
      && (k == |c| ==> ev[|ev| - 1] == FinishedEvent())
  {
    var run := RunAll(w0, c, s, fails, pending, 0);
    RunAllError(w0, c, s, fails, pending, 0);
    RunAllEvents(w0, c, s, fails, pending, 0);
    RunAllStages(w0, c, s, fails, pending, 0);
    RunAllFailureNotice(w0, c, s, fails, pending, 0);
    if Succeeding(c, fails) < |c| {
      FailedLoopEvents(w0.events, run.world.events, w0.stage);
    } else {
      FinishedLoopEvents(w0.events, run.world.events, w0.stage);
    }
  }

  /** The loop's notifications when it threw: its own, all after the earlier ones. */
  lemma FailedLoopEvents(before: seq<MigrationEvent>, ev: seq<MigrationEvent>, stage: Stage)
    requires before <= ev && |ev| > |before|
    requires AllInStage(ev[|before|..], stage)
    ensures ev[..|before|] == before && AllInStage(ev[|before|..|ev| - 1], stage)
  {
    assert ev[|before|..|ev| - 1] == ev[|before|..][..|ev| - 1 - |before|];
  }

  /** The loop's notifications followed by Finished when it did not throw. */
  lemma FinishedLoopEvents(before: seq<MigrationEvent>, ev: seq<MigrationEvent>, stage: Stage)
    requires before <= ev
    requires AllInStage(ev[|before|..], stage)
    ensures var all := ev + [FinishedEvent()];
      && all[..|before|] == before
      && AllInStage(all[|before|..|all| - 1], stage)
      && all[|all| - 1] == FinishedEvent()
  {
    var all := ev + [FinishedEvent()];
    assert all[|before|..|all| - 1] == ev[|before|..];
  }

  /**
   * What observers see first of a run over an existing folder: Started, the
   * initialization, and the pending count; then two notifications per script run,
   * and one more at the end.
   */
  lemma SynchronizeEventsStart(w: World, target: Option<string>, s: Settings, host: Host, listing: seq<string>, o: Outcome)
    requires host.fails(InitializationPath(s, host)).None?
    requires host.listSql(ScriptsFolder(s.databaseScripts, host)) == Some(listing)
    requires o == Synchronized(w, target, s, host)
    ensures
      var ev, n := o.world.events, |w.events|;
      var files, executed := Sort(listing), ExecutedNames(w.log);
      var c := Candidates(files, executed, target);
      var k := Succeeding(c, host.fails);
      && |ev| == n + 3 + 2 * k + (if k < |c| then 2 else 1)
      && ev[..n] == w.events
      && ev[n] == StartedEvent(target)
      && ev[n + 1] == SuccessEvent(Initializing, InitializationPath(s, host))
      && ev[n + 2] == PendingEvent(files, executed)
  {
    var files, executed := Sort(listing), ExecutedNames(w.log);
    var w0 := LoopStart(w, target, s, host, files);
    SynchronizedViaLoop(w, target, s, host, listing);
    LoopEvents(w0, Candidates(files, executed, target), s, host.fails, PendingCount(files, executed), o);
    StartEvents(o.world.events, w.events, StartedEvent(target), SuccessEvent(Initializing, InitializationPath(s, host)), PendingEvent(files, executed));
  }

  /** A sequence that starts with `before` and three more notifications. */
  lemma StartEvents(ev: seq<MigrationEvent>, before: seq<MigrationEvent>, a: MigrationEvent, b: MigrationEvent, c: MigrationEvent)
    requires |ev| >= |before| + 3 && ev[..|before| + 3] == before + [a, b, c]
    ensures ev[..|before|] == before
    ensures ev[|before|] == a && ev[|before| + 1] == b && ev[|before| + 2] == c
  {
    var n := |before|;
    assert ev[..n] == ev[..n + 3][..n];
    assert ev[n] == ev[..n + 3][n];
    assert ev[n + 1] == ev[..n + 3][n + 1];
    assert ev[n + 2] == ev[..n + 3][n + 2];
  }

  /**
   * What observers see last of a run over an existing folder: every script run
   * in Migrating, then the failure of the script that threw (and Finished never),
   * or Finished.
   */
  lemma SynchronizeEventsEnd(w: World, target: Option<string>, s: Settings, host: Host, listing: seq<string>, o: Outcome)
    requires host.fails(InitializationPath(s, host)).None?
    requires host.listSql(ScriptsFolder(s.databaseScripts, host)) == Some(listing)
    requires o == Synchronized(w, target, s, host)
    ensures
      var ev, n := o.world.events, |w.events|;
      var c := Candidates(Sort(listing), ExecutedNames(w.log), target);
      var k := Succeeding(c, host.fails);
      && (o.error.Some? <==> k < |c|)
      && |ev| > n + 3
      && AllInStage(ev[n + 3..|ev| - 1], Migrating)
      && (k < |c| ==> IsFailureEvent(ev[|ev| - 1], FileNameWithoutExtension(c[k])))
      && (k == |c| ==> ev[|ev| - 1] == FinishedEvent())
      && ev[|ev| - 1].currentStage == (if o.error.Some? then Migrating else Finished)
  {
    var files, executed := Sort(listing), ExecutedNames(w.log);
    var c := Candidates(files, executed, target);
    var w0 := LoopStart(w, target, s, host, files);
    assert w0.stage == Migrating && |w0.events| == |w.events| + 3;
    SynchronizedViaLoop(w, target, s, host, listing);
    LoopEvents(w0, c, s, host.fails, PendingCount(files, executed), o);
    var k := Succeeding(c, host.fails);
    if k < |c| {
      var last := o.world.events[|o.world.events| - 1];
      assert last == FailureEvent(Migrating, c[k], host.fails(c[k]).value);
    }
  }

  /** A run that throws nothing got past the initialization script and found the scripts folder. */
  lemma SuccessfulRunListed(w: World, target: Option<string>, s: Settings, host: Host, o: Outcome)
    requires o == Synchronized(w, target, s, host) && o.error.None?
    ensures host.fails(InitializationPath(s, host)).None?
    ensures host.listSql(ScriptsFolder(s.databaseScripts, host)).Some?
  {
    if host.fails(InitializationPath(s, host)).Some? {
      SynchronizeInitFails(w, target, s, host);
      assert false;
    }
    if host.listSql(ScriptsFolder(s.databaseScripts, host)).None? {
      SynchronizeFolderMissing(w, target, s, host);
      assert false;
    }
  }

  /**
   * On a successful run the stages observers see never go back (their blocks are
   * given by SuccessfulRunShape).
   */
  lemma SuccessfulRunStagesInOrder(w: World, target: Option<string>, s: Settings, host: Host, o: Outcome)
    requires o == Synchronized(w, target, s, host) && o.error.None?
    ensures StagesNeverGoBack(o.world.events, |w.events|)
  {
    SuccessfulRunShape(w, target, s, host, o);
    StagesInOrder(o.world.events, |w.events|);
  }

  /**
   * The stages of a successful run's notifications, block by block: Started,
   * Initializing, CheckingPendingMigrations, any number of Migrating, and a last
   * Finished.
   */
  lemma SuccessfulRunShape(w: World, target: Option<string>, s: Settings, host: Host, o: Outcome)
    requires o == Synchronized(w, target, s, host) && o.error.None?
    ensures SuccessShape(o.world.events, |w.events|)
  {
    SuccessfulRunListed(w, target, s, host, o);
    var listing := host.listSql(ScriptsFolder(s.databaseScripts, host)).value;
    SynchronizeEventsStart(w, target, s, host, listing, o);
    SynchronizeEventsEnd(w, target, s, host, listing, o);
  }

  /** Started, Initializing, CheckingPendingMigrations, any number of Migrating, then Finished. */
  predicate SuccessShape(ev: seq<MigrationEvent>, n: nat)
  {
    && |ev| >= n + 4
    && ev[n].currentStage == Started && ev[n + 1].currentStage == Initializing
    && ev[n + 2].currentStage == CheckingPendingMigrations
    && AllInStage(ev[n + 3..|ev| - 1], Migrating) && ev[|ev| - 1].currentStage == Finished
  }

  /** From position `from` on, no notification carries an earlier stage than one before it. */
  predicate StagesNeverGoBack(ev: seq<MigrationEvent>, from: nat)
  {
    forall i, j :: from <= i < j < |ev| ==> Ordinal(ev[i].currentStage) <= Ordinal(ev[j].currentStage)
  }

  /** Started, Initializing, CheckingPendingMigrations, then Migrating until a last Finished: a sequence whose stages never go back. */
  lemma StagesInOrder(ev: seq<MigrationEvent>, n: nat)
    requires SuccessShape(ev, n)
    ensures StagesNeverGoBack(ev, n)
  {
    var mid := ev[n + 3..|ev| - 1];
    forall i | n <= i < |ev|
      ensures Ordinal(ev[i].currentStage) == if i < n + 3 then i - n + 1 else if i < |ev| - 1 then 4 else 5
    {
      if n + 3 <= i < |ev| - 1 {
        assert ev[i] == mid[i - (n + 3)];
      }
    }
  }

  /** Whatever way a run ends, the last notification observers saw carries the stage the engine is left in. */
  lemma LastNotificationCarriesStage(w: World, target: Option<string>, s: Settings, host: Host, o: Outcome)
    requires o == Synchronized(w, target, s, host)
    ensures |o.world.events| > 0 && o.world.events[|o.world.events| - 1].currentStage == o.world.stage
  {
    var p := InitializationPath(s, host);
    if host.fails(p).Some? {
      SynchronizeInitFails(w, target, s, host);
    } else if host.listSql(ScriptsFolder(s.databaseScripts, host)).None? {
      SynchronizeFolderMissing(w, target, s, host);
    } else {
      var listing := host.listSql(ScriptsFolder(s.databaseScripts, host)).value;
      SynchronizeRun(w, target, s, host, listing);
      SynchronizeEventsStart(w, target, s, host, listing, o);
      SynchronizeEventsEnd(w, target, s, host, listing, o);
    }
  }

  /** From position `from` on, no notification carries Finished. */
  predicate NeverFinished(ev: seq<MigrationEvent>, from: nat)
  {
    forall i :: from <= i < |ev| ==> ev[i].currentStage != Finished
  }

  /**
   * A run that throws never reports Finished and does not leave the engine in
   * Finished, however it fails: in the initialization script, for a missing
   * folder, or in a migration.
   */
  lemma FailedRunNeverFinishes(w: World, target: Option<string>, s: Settings, host: Host, o: Outcome)
    requires o == Synchronized(w, target, s, host) && o.error.Some?
    ensures o.world.stage != Finished && NeverFinished(o.world.events, |w.events|)
  {
    var p := InitializationPath(s, host);
    if host.fails(p).Some? {
      SynchronizeInitFails(w, target, s, host);
      AppendedNeverFinished(w.events, [StartedEvent(target), FailureEvent(Initializing, p, host.fails(p).value)]);
    } else if host.listSql(ScriptsFolder(s.databaseScripts, host)).None? {
      SynchronizeFolderMissing(w, target, s, host);
      AppendedNeverFinished(w.events, [StartedEvent(target), SuccessEvent(Initializing, p)]);
    } else {
      var listing := host.listSql(ScriptsFolder(s.databaseScripts, host)).value;
      FailedMigrationNeverFinishes(w, target, s, host, listing, o);
    }
  }

  /** A run that throws in a migration ends in Migrating and never reports Finished. */
  lemma FailedMigrationNeverFinishes(w: World, target: Option<string>, s: Settings, host: Host, listing: seq<string>, o: Outcome)
    requires host.fails(InitializationPath(s, host)).None?
    requires host.listSql(ScriptsFolder(s.databaseScripts, host)) == Some(listing)
    requires o == Synchronized(w, target, s, host) && o.error.Some?
    ensures o.world.stage == Migrating && NeverFinished(o.world.events, |w.events|)
  {
    FailedMigrationEvents(w, target, s, host, listing, o);
    SynchronizeRun(w, target, s, host, listing);
  }

  /** The notifications of a run that throws in a migration: none carries Finished. */
  lemma FailedMigrationEvents(w: World, target: Option<string>, s: Settings, host: Host, listing: seq<string>, o: Outcome)
    requires host.fails(InitializationPath(s, host)).None?
    requires host.listSql(ScriptsFolder(s.databaseScripts, host)) == Some(listing)
    requires o == Synchronized(w, target, s, host) && o.error.Some?
    ensures NeverFinished(o.world.events, |w.events|)
  {
    assert FailedShape(o.world.events, |w.events|) by {
      SynchronizeEventsStart(w, target, s, host, listing, o);
      SynchronizeEventsEnd(w, target, s, host, listing, o);
    }
    FailedStagesNeverFinished(o.world.events, |w.events|);
  }

  /** Notifications none of which carries Finished, appended to earlier ones. */
  lemma AppendedNeverFinished(before: seq<MigrationEvent>, added: seq<MigrationEvent>)
    requires forall j :: 0 <= j < |added| ==> added[j].currentStage != Finished
    ensures NeverFinished(before + added, |before|)
  {
    var ev := before + added;
    forall i | |before| <= i < |ev| ensures ev[i].currentStage != Finished {
      assert ev[i] == added[i - |before|];
    }
  }

  /** Started, Initializing, CheckingPendingMigrations, then Migrating to the end. */
  predicate FailedShape(ev: seq<MigrationEvent>, n: nat)
  {
    && |ev| > n + 3
    && ev[n].currentStage == Started && ev[n + 1].currentStage == Initializing
    && ev[n + 2].currentStage == CheckingPendingMigrations
    && AllInStage(ev[n + 3..|ev| - 1], Migrating) && ev[|ev| - 1].currentStage == Migrating
  }

  /** Notifications of that shape never carry Finished. */
  lemma FailedStagesNeverFinished(ev: seq<MigrationEvent>, n: nat)
    requires FailedShape(ev, n)
    ensures NeverFinished(ev, n)
  {
    var mid := ev[n + 3..|ev| - 1];
    forall i | n + 3 <= i < |ev| - 1 ensures ev[i].currentStage == Migrating {
      assert ev[i] == mid[i - (n + 3)];
    }
  }
}
